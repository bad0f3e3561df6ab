/** Two runs in which an item's two ids lead the cache astray. */
module CacheRuns {
  import opened Basics
  import opened CacheModel
  import opened CacheTree
  import opened CacheIdentity

  const TOP: Id := Graph("root")
  const TOP_ROW: Row := Row(Some("root"), None, "", Some(""), true, NO_META, false)

  /** Only the drive's root is cached. */
  const ROOT_ONLY: Rows := map[TOP := TOP_ROW]

  function Rank(x: Id): nat { if x == TOP then 0 else if x == Graph("c") then 2 else 1 }

  /** The folder `d`, made offline. */
  const D_PENDING: Row := Row(None, Some(TOP), "d", Some("/d"), true, NO_META, false)
  const D_CONFIRMED: Row := D_PENDING.(remoteId := Some("r"))

  /** The file `c` inside it, reported before `d` is confirmed. */
  const C_EARLY: Row := Row(Some("c"), Some(Graph("r")), "c", None, false, NO_META, false)

  const MKDIR_D: Write := InsertPending(0, TOP, "d", true)
  const SEE_D: Write := Upsert(Item("r", "d", false, Some("root"), true, NO_META), Rank)
  const SEE_C: Write := Upsert(Item("c", "c", false, Some("r"), false, NO_META), Rank)
  const CONFIRM_D: Write := Confirm(Pending(0), "r", NO_META)

  const WITH_D: Rows := map[TOP := TOP_ROW, Pending(0) := D_PENDING]
  const WITH_C: Rows := map[TOP := TOP_ROW, Pending(0) := D_PENDING, Graph("c") := C_EARLY]

  lemma MakesD()
    ensures Enabled(ROOT_ONLY, MKDIR_D) && After(ROOT_ONLY, MKDIR_D) == WITH_D
  {
    assert Join("", "d") == "/d";
  }

  /** The page's own report of `d` is skipped: its path is taken by the pending row. */
  lemma SkipsD()
    ensures Enabled(WITH_D, SEE_D) && After(WITH_D, SEE_D) == WITH_D
  {
    HolderIs(WITH_D, TOP, "root");
    assert Holder(WITH_D, "r") == None;
    SeenBeforeConfirmedIsSkipped(WITH_D, Rank, Pending(0), SEE_D.g);
  }

  /** Its child is stored under `d`'s remote id. */
  lemma StoresC()
    ensures Enabled(WITH_D, SEE_C) && After(WITH_D, SEE_C) == WITH_C
  {
    assert Holder(WITH_D, "r") == None && Holder(WITH_D, "c") == None;
    assert UpsertedRow(WITH_D, SEE_C.g) == C_EARLY;
  }

  /** A delta page between an offline mkdir's call and its confirmation: the folder's child
      is listed under no folder from then on. */
  lemma EarlyChildIsOrphaned()
    ensures Identity(ROOT_ONLY) && NoOrphans(ROOT_ONLY)
    ensures Feasible(ROOT_ONLY, [MKDIR_D, SEE_D, SEE_C, CONFIRM_D])
    ensures !NoOrphans(Run(ROOT_ONLY, [MKDIR_D, SEE_D, SEE_C, CONFIRM_D]))
  {
    MakesD();
    SkipsD();
    StoresC();
    var end := WITH_C[Pending(0) := D_CONFIRMED];
    assert Enabled(WITH_C, CONFIRM_D) && After(WITH_C, CONFIRM_D) == end;
    assert Misses(end[Graph("c")], Pending(0), end[Pending(0)]);
    Then(WITH_C, CONFIRM_D, []);
    Then(WITH_D, SEE_C, [CONFIRM_D]);
    Then(WITH_D, SEE_D, [SEE_C, CONFIRM_D]);
    Then(ROOT_ONLY, MKDIR_D, [SEE_D, SEE_C, CONFIRM_D]);
    assert [CONFIRM_D] + [] == [CONFIRM_D] && [SEE_C] + [CONFIRM_D] == [SEE_C, CONFIRM_D];
    assert [SEE_D] + [SEE_C, CONFIRM_D] == [SEE_D, SEE_C, CONFIRM_D];
    assert [MKDIR_D] + [SEE_D, SEE_C, CONFIRM_D] == [MKDIR_D, SEE_D, SEE_C, CONFIRM_D];
  }

  lemma Then(rows: Rows, w: Write, rest: seq<Write>)
    requires Enabled(rows, w) && Feasible(After(rows, w), rest)
    ensures Feasible(rows, [w] + rest) && Run(rows, [w] + rest) == Run(After(rows, w), rest)
  {
    assert ([w] + rest)[1..] == rest;
  }

  /** A folder made through the mount and deleted by a Folder Pair: gone from the drive, and
      still listed. */
  lemma DeletedItemStaysListed()
    ensures Feasible(ROOT_ONLY, [MKDIR_D, CONFIRM_D, MarkDeleted(Graph("r"))])
    ensures var end := Run(ROOT_ONLY, [MKDIR_D, CONFIRM_D, MarkDeleted(Graph("r"))]);
      Live(end, Pending(0)) && end[Pending(0)].remoteId == Some("r")
  {
    MakesD();
    var with := WITH_D[Pending(0) := D_CONFIRMED];
    var delete := MarkDeleted(Graph("r"));
    assert Enabled(WITH_D, CONFIRM_D) && After(WITH_D, CONFIRM_D) == with;
    Then(with, delete, []);
    Then(WITH_D, CONFIRM_D, [delete]);
    Then(ROOT_ONLY, MKDIR_D, [CONFIRM_D, delete]);
    assert [delete] + [] == [delete] && [CONFIRM_D] + [delete] == [CONFIRM_D, delete];
    assert [MKDIR_D] + [CONFIRM_D, delete] == [MKDIR_D, CONFIRM_D, delete];
  }
}
