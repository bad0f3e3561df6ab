/** The chunked upload against a session that may lose any response or keep only part
    of a chunk. */
module ResumableUpload {
  import opened Basics

  const CHUNK: nat := 4 * 320 * 1024
  const MAX_CONSECUTIVE_FAILURES: nat := 8

  type ItemId = nat

  /** What happens to a chunk's PUT: how much of it the server keeps, and whether the
      reply gets back. */
  datatype PutFate = PutFate(kept: nat, answered: bool)

  predicate Faultless(f: PutFate) { f.kept >= CHUNK && f.answered }

  /** What happens to a status query: whether the reply gets back, and names a range. */
  datatype StatusFate = StatusFate(answered: bool, namesRange: bool)

  predicate Informative(f: StatusFate) { f.answered && f.namesRange }

  /** A chunk's reply; every other status and every lost reply raises. */
  datatype PutReply = Finished(item: ItemId) | Accepted | PutFailed

  /** A status reply's first range, if it lists one. */
  datatype StatusReply = Status(next: Option<nat>) | StatusFailed

  datatype Outcome = Item(item: ItemId) | Raised(error: Error)

  datatype Error = ChunkFailed | StatusUnknown | NoFinalResponse

  predicate IsPrefix(a: Content, b: Content) { |a| <= |b| && a == b[..|a|] }

  predicate ArePrefixes(past: seq<Content>, b: Content) { forall a :: a in past ==> IsPrefix(a, b) }

  lemma OneMorePrefix(past: seq<Content>, a: Content, b: Content)
    requires ArePrefixes(past, b) && IsPrefix(a, b)
    ensures ArePrefixes(past + [a], b)
  {
  }

  /** The upload session: a contiguous prefix, completed by its last byte. */
  class Session {
    const size: nat
    const item: ItemId
    var received: Content
    var complete: bool
    ghost var puts: nat             // PUTs so far
    ghost var failedInARow: nat     // PUTs failed since the last answered one
    ghost var asked: nat            // status queries so far
    ghost var uninformed: bool      // the last call was a status query that named no range
    ghost var misplaced: nat        // PUTs of other than the next byte, except right after such a query
    ghost var past: seq<Content>    // what was stored after each call

    predicate Valid()
      reads this
    {
      |received| <= size && (complete <==> |received| == size > 0)
    }

    constructor (size: nat, item: ItemId)
      ensures Valid() && this.size == size && this.item == item
      ensures Fresh()
    {
      this.size, this.item, received, complete := size, item, [], false;
      puts, failedInARow, past := 0, 0, [];
      asked, uninformed, misplaced := 0, false, 0;
    }

    ghost predicate Fresh()
      reads this
    {
      received == [] && puts == 0 && failedInARow == 0 && past == [] && asked == 0 && !uninformed && misplaced == 0
    }

    /** `Content-Range: bytes start-...`: anything but the next byte is refused, and so
        is a finished session. */
    method Put(start: nat, chunk: Content, fate: PutFate) returns (reply: PutReply)
      requires Valid() && 0 < |chunk| && start + |chunk| <= size
      modifies this
      ensures Valid() && puts == old(puts) + 1 && past == old(past) + [received]
      ensures asked == old(asked) && !uninformed
      ensures misplaced == if start != |old(received)| && !old(uninformed) then old(misplaced) + 1 else old(misplaced)
      ensures failedInARow == if reply.PutFailed? then old(failedInARow) + 1 else 0
      ensures received == if start == |old(received)| then old(received) + chunk[..Stored(fate, chunk)] else old(received)
      ensures !reply.PutFailed? <==> start == |old(received)| && fate.kept >= |chunk| && fate.answered
      ensures reply.Finished? ==> complete && reply.item == item
      ensures reply.Accepted? ==> !complete
    {
      reply := PutFailed;
      misplaced := if start != |received| && !uninformed then misplaced + 1 else misplaced;
      uninformed := false;
      if !complete && start == |received| {
        received := received + chunk[..Stored(fate, chunk)];
        complete := |received| == size;
        if fate.kept >= |chunk| && fate.answered {
          reply := if complete then Finished(item) else Accepted;
        }
      }
      puts, past := puts + 1, past + [received];
      failedInARow := if reply.PutFailed? then failedInARow + 1 else 0;
    }

    /** `_resume_upload_session`: a finished session no longer exists. */
    method GetStatus(fate: StatusFate) returns (reply: StatusReply)
      requires Valid()
      modifies this`asked, this`uninformed
      ensures Valid() && asked == old(asked) + 1 && uninformed == !(reply.Status? && reply.next.Some?)
      ensures reply.StatusFailed? <==> complete || !fate.answered
      ensures reply.Status? ==> reply.next == if fate.namesRange then Some(|received|) else None
    {
      asked, uninformed := asked + 1, true;
      if complete || !fate.answered {
        return StatusFailed;
      }
      uninformed := !fate.namesRange;
      reply := Status(if fate.namesRange then Some(|received|) else None);
    }
  }

  function Stored(fate: PutFate, chunk: Content): nat {
    if fate.kept < |chunk| then fate.kept else |chunk|
  }

  /** `_next_expected_start`: an empty list confirms nothing. */
  function NextExpectedStart(next: Option<nat>): nat {
    if next.None? then 0 else next.value
  }

  /** The last `k` PUTs before the `n`-th all met a fault. */
  predicate Faulty(put: nat -> PutFate, k: nat, n: nat) {
    k <= n && forall i :: n - k <= i < n ==> !Faultless(put(i))
  }

  predicate NineFaulty(put: nat -> PutFate, n: nat) { Faulty(put, MAX_CONSECUTIVE_FAILURES + 1, n) }

  ghost predicate AllInformative(status: nat -> StatusFate) { forall i :: Informative(status(i)) }

  ghost predicate AllFaultless(put: nat -> PutFate) { forall i :: Faultless(put(i)) }

  /** The next bytes of the file, as many as the server keeps, continue the prefix. */
  lemma PrefixGrows(received: Content, file: Content, end: nat, kept: nat)
    requires IsPrefix(received, file) && |received| <= end <= |file| && kept <= end - |received|
    ensures IsPrefix(received + file[|received|..end][..kept], file)
  {
    assert file[..|received| + kept] == file[..|received|] + file[|received|..end][..kept];
  }

  /** `upload_large` on a new session, whatever befalls its calls: `put(i)` the `i`-th PUT,
      `status(i)` the `i`-th status query.

      The session only ever holds a prefix of the file, and every PUT is of the next byte,
      except one that follows a status reply without a range. An item is returned only when
      the session is complete with every byte of it. An error is one of: nine chunks failed
      in a row; a status query failed, the session being finished with its last reply lost,
      or the query's own reply; an empty file. If every status reply names a range, nine
      chunks fail in a row only if nine PUTs in a row met a fault, and without such a
      stretch the upload ends with the item or with the reply to its last PUT lost. It ends
      after at most nine PUTs for each full chunk and the last. */
  method UploadLarge(session: Session, file: Content, put: nat -> PutFate, status: nat -> StatusFate) returns (r: Outcome)
    requires session.Valid() && session.size == |file| && session.Fresh()
    modifies session
    ensures session.Valid() && IsPrefix(session.received, file)
    ensures ArePrefixes(session.past, file)
    ensures session.misplaced == 0
    ensures r.Item? ==> session.complete && session.received == file && r.item == session.item
    ensures r == Raised(ChunkFailed) ==> session.failedInARow == MAX_CONSECUTIVE_FAILURES + 1
    ensures r == Raised(StatusUnknown) ==>
      session.asked > 0 && (session.complete || !status(session.asked - 1).answered)
    ensures r == Raised(NoFinalResponse) ==> |file| == 0
    ensures AllInformative(status) && r == Raised(ChunkFailed) ==> NineFaulty(put, session.puts)
    ensures AllInformative(status) && (forall n :: !NineFaulty(put, n)) && |file| > 0 ==>
      r.Item? || (r == Raised(StatusUnknown) && session.complete && session.received == file)
    ensures |file| > 0 && AllFaultless(put) ==> r.Item?
    ensures session.puts <= 9 * (|file| / CHUNK + 1)
  {
    var consecutiveFailures := 0;
    var start := 0;
    var size := |file|;
    var i, j := 0, 0;
    ghost var accepted := 0;
    while start < size
      invariant i == session.puts && j == session.asked
      invariant session.Valid() && start <= |session.received| && IsPrefix(session.received, file)
      invariant start == size ==> size == 0
      invariant ArePrefixes(session.past, file)
      invariant session.failedInARow == consecutiveFailures <= MAX_CONSECUTIVE_FAILURES
      invariant session.misplaced == 0 && (start == |session.received| || session.uninformed)
      invariant AllInformative(status) ==>
        start == |session.received| && Faulty(put, consecutiveFailures, i)
      invariant AllFaultless(put) ==> start == |session.received| && consecutiveFailures == 0
      invariant accepted * CHUNK <= start
      invariant session.puts <= 9 * accepted + consecutiveFailures
      decreases size - start, MAX_CONSECUTIVE_FAILURES - consecutiveFailures
    {
      var end := (if start + CHUNK < size then start + CHUNK else size) - 1;
      var chunk := file[start..end + 1];
      assert |file| / CHUNK >= accepted by { Quotient(|file|, accepted); }
      if start == |session.received| { PrefixGrows(session.received, file, end + 1, Stored(put(i), chunk)); }
      ghost var past := session.past;
      var reply := session.Put(start, chunk, put(i));
      OneMorePrefix(past, session.received, file);
      i := i + 1;
      if reply.PutFailed? {
        consecutiveFailures := consecutiveFailures + 1;
        if consecutiveFailures > MAX_CONSECUTIVE_FAILURES {
          return Raised(ChunkFailed);
        }
        var answer := session.GetStatus(status(j));
        j := j + 1;
        if answer.StatusFailed? {
          return Raised(StatusUnknown);
        }
        var newStart := NextExpectedStart(answer.next);
        if newStart <= start {
          continue;
        }
        start := newStart;
        continue;
      }
      consecutiveFailures := 0;
      if reply.Finished? {
        return Item(reply.item);
      }
      accepted := accepted + 1;
      start := end + 1;
    }
    r := Raised(NoFinalResponse);
  }

  lemma Quotient(x: nat, n: nat)
    requires n * CHUNK <= x
    ensures n <= x / CHUNK
  {
  }
}
