/**
 * The Branch to Program link. A branch row has no program column; the
 * program of a branch is the one named by the FIRST mapping row, in storage
 * order, whose `branchId` is the branch's id. Create adds a mapping, update
 * upserts the first one, and every read derives `program_name` from it.
 */
module BranchSync {
  import opened Wrappers
  import opened Tables
  import opened Models

  /**
   * The transient `program_name` attribute of a returned branch: `Unset` when
   * the code never assigns it, `Null` when it is assigned `None` (the mapped
   * program does not exist), `Name` otherwise.
   */
  datatype ProgramNameAttr = Unset | Null | Name(value: string)

  /** A branch as the store returns it. */
  datatype BranchView = BranchView(branch: Branch, programName: ProgramNameAttr)

  /** Position `k` holds the first mapping row of branch `branchId`. */
  ghost predicate IsFirstMapping(maps: seq<ProgramBranchMapping>, branchId: int, k: int)
  {
    && 0 <= k < |maps|
    && maps[k].cols.branchId == branchId
    && forall j | 0 <= j < k :: maps[j].cols.branchId != branchId
  }

  /** No mapping row names branch `branchId`. */
  predicate Unmapped(maps: seq<ProgramBranchMapping>, branchId: int)
  {
    forall k | 0 <= k < |maps| :: maps[k].cols.branchId != branchId
  }

  /** `query(ProgramBranchMapping).filter(branch_id == branchId).first()`, as a position. */
  function FirstMapping(maps: seq<ProgramBranchMapping>, branchId: int): (r: Option<nat>)
    ensures r.Some? ==> IsFirstMapping(maps, branchId, r.value)
    ensures r.None? <==> Unmapped(maps, branchId)
    decreases |maps|
  {
    if |maps| == 0 then None
    else if maps[0].cols.branchId == branchId then Some(0)
    else match FirstMapping(maps[1..], branchId)
      case None => None
      case Some(i) => Some(i + 1)
  }

  /** There is only one first mapping. */
  lemma FirstMappingUnique(maps: seq<ProgramBranchMapping>, branchId: int, j: int, k: int)
    requires IsFirstMapping(maps, branchId, j) && IsFirstMapping(maps, branchId, k)
    ensures j == k
  {
  }

  /** `program.name if program else None` for the program with id `programId`. */
  function ProgramNameOf(programs: seq<Program>, programId: int): (r: ProgramNameAttr)
    ensures !r.Unset?
    ensures r.Null? <==> !HasId(programs, programId)
    ensures r.Name? ==> exists k | 0 <= k < |programs| :: programs[k].id == programId && programs[k].cols.name == r.value
  {
    match Find(programs, programId)
    case None => Null
    case Some(p) => Name(p.cols.name)
  }

  /**
   * The read-path enrichment of `get_branch` and `get_branches`: the branch
   * row unchanged, with the name of the program its first mapping names.
   */
  function Enrich(b: Branch, maps: seq<ProgramBranchMapping>, programs: seq<Program>): (v: BranchView)
    ensures v.branch == b
    ensures v.programName.Unset? <==> Unmapped(maps, b.id)
    ensures forall k | IsFirstMapping(maps, b.id, k) :: v.programName == ProgramNameOf(programs, maps[k].cols.programId)
  {
    match FirstMapping(maps, b.id)
    case None => BranchView(b, Unset)
    case Some(i) =>
      assert forall k | IsFirstMapping(maps, b.id, k) :: k == i by {
        forall k | IsFirstMapping(maps, b.id, k) ensures k == i { FirstMappingUnique(maps, b.id, k, i); }
      }
      BranchView(b, ProgramNameOf(programs, maps[i].cols.programId))
  }

  /**
   * The mapping half of `update_branch`: repoint the first mapping of the
   * branch to `programId` in place, or add a new mapping when there is none.
   */
  function Upsert(t: Table<ProgramBranchMappingCols>, branchId: int, programId: int): (r: Table<ProgramBranchMappingCols>)
    ensures WellFormed(t) ==> WellFormed(r)
    ensures FirstMapping(r.rows, branchId).Some?
    ensures r.rows[FirstMapping(r.rows, branchId).value].cols.programId == programId
  {
    match FirstMapping(t.rows, branchId)
    case Some(i) =>
      var r := SetCols(t, i, t.rows[i].cols.(programId := programId));
      assert IsFirstMapping(r.rows, branchId, i);
      FirstMappingUnique(r.rows, branchId, i, FirstMapping(r.rows, branchId).value);
      r
    case None =>
      var r := Insert(t, ProgramBranchMappingCols(programId, branchId, true));
      assert IsFirstMapping(r.rows, branchId, |t.rows|);
      FirstMappingUnique(r.rows, branchId, |t.rows|, FirstMapping(r.rows, branchId).value);
      r
  }

  /** When the branch has a mapping, only its first mapping changes, and only in `programId`. */
  lemma UpsertRepointsFirst(t: Table<ProgramBranchMappingCols>, branchId: int, programId: int, i: int)
    requires IsFirstMapping(t.rows, branchId, i)
    ensures var r := Upsert(t, branchId, programId);
      && |r.rows| == |t.rows| && r.nextId == t.nextId
      && r.rows[i] == Row(t.rows[i].id, ProgramBranchMappingCols(programId, branchId, t.rows[i].cols.status))
      && forall k | 0 <= k < |t.rows| && k != i :: r.rows[k] == t.rows[k]
  {
    FirstMappingUnique(t.rows, branchId, i, FirstMapping(t.rows, branchId).value);
  }

  /** When the branch has no mapping, exactly one new mapping is appended. */
  lemma UpsertAppendsWhenUnmapped(t: Table<ProgramBranchMappingCols>, branchId: int, programId: int)
    requires Unmapped(t.rows, branchId)
    ensures var r := Upsert(t, branchId, programId);
      && |r.rows| == |t.rows| + 1 && r.rows[..|t.rows|] == t.rows && r.nextId == t.nextId + 1
      && r.rows[|t.rows|] == Row(t.nextId, ProgramBranchMappingCols(programId, branchId, true))
  {
  }

  /** The number of mapping rows that name branch `branchId`. */
  function MappingCount(maps: seq<ProgramBranchMapping>, branchId: int): (n: nat)
    ensures n <= |maps|
    ensures n == 0 <==> Unmapped(maps, branchId)
    decreases |maps|
  {
    if |maps| == 0 then 0
    else (if maps[0].cols.branchId == branchId then 1 else 0) + MappingCount(maps[1..], branchId)
  }

  lemma {:induction false} MappingCountAppend(maps: seq<ProgramBranchMapping>, m: ProgramBranchMapping, branchId: int)
    ensures MappingCount(maps + [m], branchId) == MappingCount(maps, branchId) + (if m.cols.branchId == branchId then 1 else 0)
    decreases |maps|
  {
    if |maps| > 0 {
      assert (maps + [m])[1..] == maps[1..] + [m];
      MappingCountAppend(maps[1..], m, branchId);
    }
  }

  lemma {:induction false} MappingCountUpdate(maps: seq<ProgramBranchMapping>, i: nat, m: ProgramBranchMapping, branchId: int)
    requires i < |maps| && (maps[i].cols.branchId == branchId <==> m.cols.branchId == branchId)
    ensures MappingCount(maps[i := m], branchId) == MappingCount(maps, branchId)
    decreases |maps|
  {
    if i > 0 {
      assert maps[i := m][1..] == maps[1..][i - 1 := m];
      MappingCountUpdate(maps[1..], i - 1, m, branchId);
    } else {
      assert maps[i := m][1..] == maps[1..];
    }
  }

  /**
   * An upsert leaves a branch with exactly one mapping if it had none, and
   * with as many as before otherwise; other branches' counts do not move.
   */
  lemma UpsertMappingCount(t: Table<ProgramBranchMappingCols>, branchId: int, programId: int, other: int)
    requires other != branchId
    ensures var before := MappingCount(t.rows, branchId);
      MappingCount(Upsert(t, branchId, programId).rows, branchId) == if before == 0 then 1 else before
    ensures MappingCount(Upsert(t, branchId, programId).rows, other) == MappingCount(t.rows, other)
  {
    match FirstMapping(t.rows, branchId)
    case Some(i) =>
      var m := Row(t.rows[i].id, t.rows[i].cols.(programId := programId));
      assert Upsert(t, branchId, programId).rows == t.rows[i := m];
      MappingCountUpdate(t.rows, i, m, branchId);
      MappingCountUpdate(t.rows, i, m, other);
    case None =>
      var m := Row(t.nextId, ProgramBranchMappingCols(programId, branchId, true));
      assert Upsert(t, branchId, programId).rows == t.rows + [m];
      MappingCountAppend(t.rows, m, branchId);
      MappingCountAppend(t.rows, m, other);
  }

  /** After an upsert every read of the branch reports the new program's name. */
  lemma EnrichAfterUpsert(t: Table<ProgramBranchMappingCols>, b: Branch, programId: int, programs: seq<Program>)
    ensures Enrich(b, Upsert(t, b.id, programId).rows, programs).programName == ProgramNameOf(programs, programId)
  {
    var r := Upsert(t, b.id, programId);
    var k := FirstMapping(r.rows, b.id).value;
    assert IsFirstMapping(r.rows, b.id, k);
  }

  /**
   * The mapping `create_branch` adds makes every later read report the
   * program it named, provided no mapping named the new id before.
   */
  lemma EnrichAfterCreate(t: Table<ProgramBranchMappingCols>, b: Branch, programId: int, programs: seq<Program>)
    requires Unmapped(t.rows, b.id)
    ensures Enrich(b, Insert(t, ProgramBranchMappingCols(programId, b.id, true)).rows, programs)
         == BranchView(b, ProgramNameOf(programs, programId))
  {
    var r := Insert(t, ProgramBranchMappingCols(programId, b.id, true));
    assert IsFirstMapping(r.rows, b.id, |t.rows|);
  }

  /**
   * Without that proviso the read disagrees with `create_branch`'s answer:
   * a mapping already naming the new id comes first and wins.
   */
  lemma EnrichAfterCreateStale(t: Table<ProgramBranchMappingCols>, b: Branch, programId: int, programs: seq<Program>, k: int)
    requires IsFirstMapping(t.rows, b.id, k)
    ensures Enrich(b, Insert(t, ProgramBranchMappingCols(programId, b.id, true)).rows, programs)
         == BranchView(b, ProgramNameOf(programs, t.rows[k].cols.programId))
  {
    var r := Insert(t, ProgramBranchMappingCols(programId, b.id, true));
    assert IsFirstMapping(r.rows, b.id, k);
  }

  /**
   * The proviso holds whenever every mapping names a branch id already
   * issued: the new branch's id is the counter, above all of them.
   */
  lemma EnrichAfterCreateIssued(t: Table<ProgramBranchMappingCols>, b: Branch, programId: int, programs: seq<Program>)
    requires forall k | 0 <= k < |t.rows| :: t.rows[k].cols.branchId < b.id
    ensures Enrich(b, Insert(t, ProgramBranchMappingCols(programId, b.id, true)).rows, programs)
         == BranchView(b, ProgramNameOf(programs, programId))
  {
    assert Unmapped(t.rows, b.id);
    EnrichAfterCreate(t, b, programId, programs);
  }

  /** Mapping rows of other branches never affect a branch's enrichment. */
  lemma EnrichIgnoresOtherBranches(b: Branch, maps: seq<ProgramBranchMapping>, m: ProgramBranchMapping, programs: seq<Program>)
    requires m.cols.branchId != b.id
    ensures Enrich(b, maps + [m], programs) == Enrich(b, maps, programs)
  {
    match FirstMapping(maps, b.id)
    case None =>
      assert Unmapped(maps + [m], b.id);
    case Some(i) =>
      assert IsFirstMapping(maps + [m], b.id, i);
  }
}
