/** QuickXorHash: what each bit of the hash is, and which changes it sees. */
module QuickXorHash {
  import opened Basics
  import opened Bits

  type Byte = x: nat | x < 256

  const WIDTH := 160
  const SHIFT := 11

  // ---- the specification ----

  /** The input bits, as (byte, bit), that land on hash bit `k`. */
  ghost function SetBits(data: seq<Byte>, k: nat): set<(nat, nat)> {
    set j: nat, i: nat | j < |data| && i < 8 && Lands(j, i, k) && Bit(data[j], i) :: (j, i)
  }

  predicate Lands(j: nat, i: nat, k: nat) { (SHIFT * j + i) % WIDTH == k }

  predicate Odd(n: nat) { n % 2 == 1 }

  function HashBit(h: seq<Byte>, k: nat): bool
    requires |h| == 20 && k < WIDTH
  {
    Bit(h[k / 8], k % 8)
  }

  /** Bit `k` is the parity of the input bits landing on it; from bit 96 on the
      length's bits are mixed in. */
  ghost predicate IsHash(data: seq<Byte>, h: seq<Byte>) {
    |h| == 20 && forall k: nat :: k < WIDTH ==> BitIsRight(data, h, k)
  }

  ghost predicate BitIsRight(data: seq<Byte>, h: seq<Byte>, k: nat)
    requires |h| == 20 && k < WIDTH
  {
    HashBit(h, k) == (Odd(|SetBits(data, k)|) != (k >= 96 && Bit(|data|, k - 96)))
  }

  // ---- the loop ----

  /** Where a byte ends up: its bits from `pos` on, wrapped at 160. */
  function Wrapped(b: Byte, pos: nat): nat {
    var full := Shl(b, pos);
    OnesBit(WIDTH, 0);
    Xor(And(full, Shl(1, WIDTH) - 1), Shr(full, WIDTH))
  }

  lemma ByteIsSmall(b: Byte, k: nat)
    requires k >= 8
    ensures !Bit(b, k)
  {
    assert Shl(1, 8) == 256 by { assert Shl(1, 4) == 16; }
    HighBitsAreZero(b, 8, k);
  }

  lemma WrappedBit(b: Byte, pos: nat, k: nat)
    requires pos < WIDTH
    ensures Bit(Wrapped(b, pos), k) ==
      (k < WIDTH && (if k >= pos then Bit(b, k - pos) else Bit(b, k + WIDTH - pos)))
  {
    var full := Shl(b, pos);
    OnesBit(WIDTH, k);
    XorBit(And(full, Shl(1, WIDTH) - 1), Shr(full, WIDTH), k);
    AndBit(full, Shl(1, WIDTH) - 1, k);
    ShrBit(full, WIDTH, k);
    ShlBit(b, pos, k);
    ShlBit(b, pos, k + WIDTH);
    ByteIsSmall(b, k + WIDTH - pos + if k >= pos then 0 else 8);
  }

  /** The one bit of byte `n` that may land on `k`. */
  function Candidate(n: nat, k: nat): nat
    requires k < WIDTH
  {
    var pos := SHIFT * n % WIDTH;
    if k >= pos then k - pos else k + WIDTH - pos
  }

  lemma Remainder(x: nat, q: nat, r: nat)
    requires x == WIDTH * q + r && r < WIDTH
    ensures x % WIDTH == r
  {
  }

  lemma LandsOnce(n: nat, i: nat, k: nat)
    requires k < WIDTH && i < 8
    ensures Lands(n, i, k) <==> i == Candidate(n, k)
  {
    var q, pos := SHIFT * n / WIDTH, SHIFT * n % WIDTH;
    assert SHIFT * n == WIDTH * q + pos;
    if pos + i < WIDTH {
      Remainder(SHIFT * n + i, q, pos + i);
    } else {
      Remainder(SHIFT * n + i, q + 1, pos + i - WIDTH);
    }
  }

  /** One more byte adds at most one bit to what lands on `k`. */
  lemma SetBitsGrow(data: seq<Byte>, b: Byte, k: nat)
    requires k < WIDTH
    ensures var i := Candidate(|data|, k);
      SetBits(data + [b], k) == SetBits(data, k) + if i < 8 && Bit(b, i) then {(|data|, i)} else {}
  {
    var n, c := |data|, Candidate(|data|, k);
    var next := SetBits(data, k) + if c < 8 && Bit(b, c) then {(n, c)} else {};
    forall j: nat, i: nat ensures (j, i) in SetBits(data + [b], k) <==> (j, i) in next {
      if j == n && i < 8 {
        LandsOnce(n, i, k);
      }
      if c < 8 {
        LandsOnce(n, c, k);
      }
    }
    assert forall p :: p in SetBits(data + [b], k) ==> (p.0, p.1) in next;
    assert forall p :: p in next ==> (p.0, p.1) in SetBits(data + [b], k);
  }

  lemma SetBitsStep(data: seq<Byte>, b: Byte, k: nat)
    requires k < WIDTH
    ensures Odd(|SetBits(data + [b], k)|) == (Odd(|SetBits(data, k)|) != Bit(Wrapped(b, SHIFT * |data| % WIDTH), k))
  {
    var i := Candidate(|data|, k);
    CandidateBit(|data|, b, k);
    SetBitsGrow(data, b, k);
    ParityGrows(SetBits(data, k), (|data|, i), i < 8 && Bit(b, i));
  }

  lemma ParityGrows<T>(s: set<T>, x: T, added: bool)
    requires x !in s
    ensures Odd(|s + if added then {x} else {}|) == (Odd(|s|) != added)
  {
    if added {
      assert |s + {x}| == |s| + 1;
    } else {
      assert s + {} == s;
    }
  }

  lemma CandidateBit(n: nat, b: Byte, k: nat)
    requires k < WIDTH
    ensures Bit(Wrapped(b, SHIFT * n % WIDTH), k) == (Candidate(n, k) < 8 && Bit(b, Candidate(n, k)))
  {
    WrappedBit(b, SHIFT * n % WIDTH, k);
    if Candidate(n, k) >= 8 {
      ByteIsSmall(b, Candidate(n, k));
    }
  }

  /** Bit `k` of the accumulator after `data`. */
  ghost predicate Accumulated(data: seq<Byte>, acc: nat, k: nat) {
    Bit(acc, k) == (k < WIDTH && Odd(|SetBits(data, k)|))
  }

  lemma AccumulateOne(data: seq<Byte>, b: Byte, acc: nat, k: nat)
    requires Accumulated(data, acc, k)
    ensures Accumulated(data + [b], Xor(acc, Wrapped(b, SHIFT * |data| % WIDTH)), k)
  {
    var pos := SHIFT * |data| % WIDTH;
    XorBit(acc, Wrapped(b, pos), k);
    if k < WIDTH {
      SetBitsStep(data, b, k);
    } else {
      WrappedBit(b, pos, k);
    }
  }

  method Accumulate(data: seq<Byte>) returns (acc: nat)
    ensures forall k: nat :: Accumulated(data, acc, k)
    ensures acc < Shl(1, WIDTH)
  {
    acc := 0;
    var j := 0;
    forall k: nat ensures Accumulated(data[..0], acc, k) {
      ZeroHasNoBits(k);
      assert SetBits(data[..0], k) == {};
    }
    while j < |data|
      invariant j <= |data|
      invariant forall k: nat :: Accumulated(data[..j], acc, k)
    {
      var pos := j * SHIFT % WIDTH;
      var next := Xor(acc, Wrapped(data[j], pos));
      assert data[..j + 1] == data[..j] + [data[j]];
      var done := data[..j + 1];
      forall k: nat ensures Accumulated(done, next, k) {
        AccumulateOne(data[..j], data[j], acc, k);
      }
      acc := next;
      j := j + 1;
    }
    assert data[..j] == data;
    forall k | k >= WIDTH ensures !Bit(acc, k) {
      assert Accumulated(data, acc, k);
    }
    NoHighBitsIsSmall(acc, WIDTH);
  }

  /** Byte `i` of `x`, little endian. */
  function ByteAt(x: nat, i: nat): (b: Byte)
    ensures forall k: nat :: k < 8 ==> Bit(b, k) == Bit(x, 8 * i + k)
  {
    AndIsSmall(Shr(x, 8 * i), 255);
    ByteAtBits(x, i);
    And(Shr(x, 8 * i), 255)
  }

  lemma ByteAtBits(x: nat, i: nat)
    ensures forall k: nat :: k < 8 ==> Bit(And(Shr(x, 8 * i), 255), k) == Bit(x, 8 * i + k)
  {
    forall k: nat | k < 8 ensures Bit(And(Shr(x, 8 * i), 255), k) == Bit(x, 8 * i + k) {
      ShrBit(x, 8 * i, k);
      AndBit(Shr(x, 8 * i), 255, k);
      TwoToTheEighth();
      OnesBit(8, k);
    }
  }

  lemma TwoToTheEighth()
    ensures Shl(1, 8) == 256
  {
    assert Shl(1, 4) == 16;
  }

  /** Xor of two bytes is a byte. */
  function XorByte(a: Byte, b: Byte): (c: Byte)
    ensures forall k: nat :: Bit(c, k) == (Bit(a, k) != Bit(b, k))
  {
    XorByteBits(a, b);
    Xor(a, b)
  }

  lemma XorByteBits(a: Byte, b: Byte)
    ensures Xor(a, b) < 256
    ensures forall k: nat :: Bit(Xor(a, b), k) == (Bit(a, k) != Bit(b, k))
  {
    forall k: nat ensures Bit(Xor(a, b), k) == (Bit(a, k) != Bit(b, k)) {
      XorBit(a, b, k);
    }
    forall k | k >= 8 ensures !Bit(Xor(a, b), k) {
      ByteIsSmall(a, k);
      ByteIsSmall(b, k);
    }
    NoHighBitsIsSmall(Xor(a, b), 8);
    TwoToTheEighth();
  }

  /** `quickxorhash_bytes`; `None` where `to_bytes(8)` overflows. */
  method Hash(data: seq<Byte>) returns (r: Option<seq<Byte>>)
    ensures r.Some? <==> |data| < Shl(1, 64)
    ensures r.Some? ==> IsHash(data, r.value)
  {
    var acc := Accumulate(data);
    if |data| >= Shl(1, 64) {
      return None;
    }
    var raw := new Byte[20](i => if 0 <= i then ByteAt(acc, i) else 0);
    var lengthBytes := seq(8, (i: int) => if 0 <= i then ByteAt(|data|, i) else 0);
    for i := 0 to 8
      invariant forall m: nat :: m < 20 ==>
        raw[m] == if 12 <= m < 12 + i then XorByte(ByteAt(acc, m), ByteAt(|data|, m - 12)) else ByteAt(acc, m)
    {
      raw[12 + i] := XorByte(raw[12 + i], lengthBytes[i]);
    }
    forall k: nat | k < WIDTH ensures BitIsRight(data, raw[..], k) {
      assert Accumulated(data, acc, k);
      OutputBit(data, acc, raw[..], k);
    }
    r := Some(raw[..]);
  }

  /** The bytes of the accumulator, the length mixed into the last eight. */
  lemma OutputBit(data: seq<Byte>, acc: nat, h: seq<Byte>, k: nat)
    requires |h| == 20 && k < WIDTH && Accumulated(data, acc, k)
    requires h[k / 8] == if k / 8 >= 12 then XorByte(ByteAt(acc, k / 8), ByteAt(|data|, k / 8 - 12)) else ByteAt(acc, k / 8)
    ensures BitIsRight(data, h, k)
  {
    assert 8 * (k / 8) + k % 8 == k;
  }

  // ---- which changes the hash sees ----

  /** The input bits landing on `k` in which `a` and `b` differ. */
  ghost function Differences(a: seq<Byte>, b: seq<Byte>, k: nat): set<(nat, nat)>
    requires |a| == |b|
  {
    set j: nat, i: nat | j < |a| && i < 8 && Lands(j, i, k) && Bit(a[j], i) != Bit(b[j], i) :: (j, i)
  }

  lemma SymmetricDifferenceParity<T>(a: set<T>, b: set<T>)
    ensures Odd(|(a - b) + (b - a)|) == (Odd(|a|) != Odd(|b|))
  {
    assert a == (a - b) + (a * b);
    assert b == (b - a) + (a * b);
    assert |(a - b) + (b - a)| == |a - b| + |b - a|;
    assert |(a - b) + (a * b)| == |a - b| + |a * b|;
    assert |(b - a) + (a * b)| == |b - a| + |a * b|;
  }

  lemma DifferencesAreSymmetric(a: seq<Byte>, b: seq<Byte>, k: nat)
    requires |a| == |b|
    ensures Differences(a, b, k) == (SetBits(a, k) - SetBits(b, k)) + (SetBits(b, k) - SetBits(a, k))
  {
  }

  lemma SameByte(a: Byte, b: Byte)
    requires forall i: nat :: i < 8 ==> Bit(a, i) == Bit(b, i)
    ensures a == b
  {
    TwoToTheEighth();
    SameBits(a, b, 8);
  }

  /** Bit by bit, the hash sees exactly the parity of the differences. */
  lemma HashBitsDiffer(a: seq<Byte>, b: seq<Byte>, ha: seq<Byte>, hb: seq<Byte>, k: nat)
    requires |a| == |b| && IsHash(a, ha) && IsHash(b, hb) && k < WIDTH
    ensures HashBit(ha, k) != HashBit(hb, k) <==> Odd(|Differences(a, b, k)|)
  {
    assert BitIsRight(a, ha, k) && BitIsRight(b, hb, k);
    DifferencesAreSymmetric(a, b, k);
    SymmetricDifferenceParity(SetBits(a, k), SetBits(b, k));
  }

  /** Two inputs of one length collide if and only if every hash bit is hit by an even
      number of differences. */
  lemma CollideIff(a: seq<Byte>, b: seq<Byte>, ha: seq<Byte>, hb: seq<Byte>)
    requires |a| == |b| && IsHash(a, ha) && IsHash(b, hb)
    ensures ha == hb <==> forall k: nat :: k < WIDTH ==> !Odd(|Differences(a, b, k)|)
  {
    forall k: nat | k < WIDTH ensures HashBit(ha, k) != HashBit(hb, k) <==> Odd(|Differences(a, b, k)|) {
      HashBitsDiffer(a, b, ha, hb, k);
    }
    if forall k: nat :: k < WIDTH ==> !Odd(|Differences(a, b, k)|) {
      forall m | 0 <= m < 20 ensures ha[m] == hb[m] {
        forall i: nat | i < 8 ensures Bit(ha[m], i) == Bit(hb[m], i) {
          assert HashBit(ha, 8 * m + i) == HashBit(hb, 8 * m + i);
        }
        SameByte(ha[m], hb[m]);
      }
    }
  }

  /** `a` and `b` differ only in the `n` bytes from `w` on. */
  predicate DifferWithin(a: seq<Byte>, b: seq<Byte>, w: nat, n: nat) {
    |a| == |b| && forall j: nat :: j < |a| && a[j] != b[j] ==> w <= j < w + n
  }

  /** Within 14 bytes no two bits land on the same hash bit. */
  lemma LandApart(j: nat, i: nat, j': nat, i': nat, k: nat)
    requires Lands(j, i, k) && Lands(j', i', k) && i < 8 && i' < 8
    requires -14 < j' - j < 14
    ensures j == j' && i == i'
  {
    var x, y := SHIFT * j + i, SHIFT * j' + i';
    assert x - y == WIDTH * (x / WIDTH - y / WIDTH);
    assert -WIDTH < x - y < WIDTH;
  }

  /** Every change confined to 14 consecutive bytes changes the hash. */
  lemma WindowIsDetected(a: seq<Byte>, b: seq<Byte>, ha: seq<Byte>, hb: seq<Byte>, w: nat)
    requires DifferWithin(a, b, w, 14) && a != b
    requires IsHash(a, ha) && IsHash(b, hb)
    ensures ha != hb
  {
    var j: nat :| j < |a| && a[j] != b[j];
    if forall i: nat :: i < 8 ==> Bit(a[j], i) == Bit(b[j], i) {
      SameByte(a[j], b[j]);
    }
    var i: nat :| i < 8 && Bit(a[j], i) != Bit(b[j], i);
    var k := (SHIFT * j + i) % WIDTH;
    assert Lands(j, i, k);
    forall j': nat, i': nat | (j', i') in Differences(a, b, k) ensures (j', i') == (j, i) {
      LandApart(j, i, j', i', k);
    }
    assert forall p :: p in Differences(a, b, k) ==> (p.0, p.1) == (j, i);
    assert Differences(a, b, k) == {(j, i)};
    CollideIff(a, b, ha, hb);
  }

  /** `data` with bit `i` of byte `j` flipped. */
  function Flip(data: seq<Byte>, j: nat, i: nat): seq<Byte>
    requires j < |data| && i < 8
  {
    OneBit(i);
    data[j := XorByte(data[j], Shl(1, i))]
  }

  lemma OneBit(i: nat)
    requires i < 8
    ensures Shl(1, i) < 256
  {
    forall k | k >= 8 ensures !Bit(Shl(1, i), k) {
      ShlBit(1, i, k);
      ZeroHasNoBits(k - i - 1);
    }
    NoHighBitsIsSmall(Shl(1, i), 8);
    TwoToTheEighth();
  }

  lemma FlipBits(data: seq<Byte>, j: nat, i: nat, j': nat, i': nat)
    requires j < |data| && i < 8 && j' < |data|
    ensures Bit(Flip(data, j, i)[j'], i') == (Bit(data[j'], i') != (j' == j && i' == i))
  {
    OneBit(i);
    ShlBit(1, i, i');
    if i' > i {
      ZeroHasNoBits(i' - i - 1);
    }
  }

  /** Two flipped bits cancel out if and only if they land on the same hash bit. */
  lemma TwoFlipsCollideIff(data: seq<Byte>, j: nat, i: nat, j': nat, i': nat, ha: seq<Byte>, hb: seq<Byte>)
    requires j < |data| && i < 8 && j' < |data| && i' < 8 && (j, i) != (j', i')
    requires IsHash(data, ha) && IsHash(Flip(Flip(data, j, i), j', i'), hb)
    ensures ha == hb <==> (SHIFT * j + i) % WIDTH == (SHIFT * j' + i') % WIDTH
  {
    var flipped := Flip(Flip(data, j, i), j', i');
    forall k: nat
      ensures Differences(data, flipped, k)
           == (if Lands(j, i, k) then {(j, i)} else {}) + (if Lands(j', i', k) then {(j', i')} else {})
    {
      TwoFlipsDiffer(data, j, i, j', i', k);
    }
    CollideIff(data, flipped, ha, hb);
    var k := (SHIFT * j + i) % WIDTH;
    assert Lands(j, i, k);
    assert |Differences(data, flipped, k)| == if Lands(j', i', k) then 2 else 1;
  }

  lemma TwoFlipsDiffer(data: seq<Byte>, j: nat, i: nat, j': nat, i': nat, k: nat)
    requires j < |data| && i < 8 && j' < |data| && i' < 8 && (j, i) != (j', i')
    ensures Differences(data, Flip(Flip(data, j, i), j', i'), k)
         == (if Lands(j, i, k) then {(j, i)} else {}) + (if Lands(j', i', k) then {(j', i')} else {})
  {
    var once := Flip(data, j, i);
    forall m: nat, n: nat | m < |data| && n < 8
      ensures Bit(data[m], n) != Bit(Flip(once, j', i')[m], n) <==> (m, n) == (j, i) || (m, n) == (j', i')
    {
      FlipBits(data, j, i, m, n);
      FlipBits(once, j', i', m, n);
    }
  }

  /** 14 is tight: bit 0 of a byte and bit 6 of the 14th byte after it cancel out. */
  lemma FifteenBytesMayCollide(data: seq<Byte>, j: nat, ha: seq<Byte>, hb: seq<Byte>)
    requires j + 14 < |data|
    requires IsHash(data, ha) && IsHash(Flip(Flip(data, j, 0), j + 14, 6), hb)
    ensures DifferWithin(data, Flip(Flip(data, j, 0), j + 14, 6), j, 15)
    ensures data != Flip(Flip(data, j, 0), j + 14, 6) && ha == hb
  {
    TwoFlipsCollideIff(data, j, 0, j + 14, 6, ha, hb);
    var q, pos := SHIFT * j / WIDTH, SHIFT * j % WIDTH;
    assert SHIFT * (j + 14) + 6 == WIDTH * (q + 1) + pos;
    Remainder(SHIFT * (j + 14) + 6, q + 1, pos);
    FlipBits(data, j, 0, j, 0);
    FlipBits(Flip(data, j, 0), j + 14, 6, j, 0);
  }
}
