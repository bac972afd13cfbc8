/**
 * The end-to-end branch example: create two programs and a branch, repoint
 * the branch, read it back, and count its mappings.
 */
module Scenarios {
  import opened Wrappers
  import opened Tables
  import opened Schemas
  import opened Models
  import opened BranchSync
  import opened Crud

  function BTech(): Program { Row(1, ProgramCols("B.Tech", true)) }
  function MTech(): Program { Row(2, ProgramCols("M.Tech", true)) }
  function Cse(): Branch { Row(1, BranchCols("Computer Science", "CSE", true)) }

  /** POST /programs/ on an empty database: id 1. */
  method SeedFirstProgram() returns (s: Store)
    ensures fresh(s) && s.Valid()
    ensures s.programs == Table([BTech()], 2)
    ensures s.branches == EmptyTable() && s.programBranchMappings == EmptyTable()
  {
    s := new Store();
    var btech := s.CreateProgram(ProgramCreate("B.Tech"));
    assert btech == Ok(BTech());
  }

  /** A second POST /programs/ with a different name: id 2. */
  method SeedSecondProgram(s: Store)
    requires s.Valid()
    requires s.programs == Table([BTech()], 2)
    modifies s
    ensures s.Valid() && s.programs == Table([BTech(), MTech()], 3)
    ensures s.branches == old(s.branches) && s.programBranchMappings == old(s.programBranchMappings)
  {
    assert !KeyUsed([BTech()], ProgramName, "M.Tech", 2);
    var mtech := s.CreateProgram(ProgramCreate("M.Tech"));
    assert mtech == Ok(MTech());
  }

  /** POST /branches/ with program 1: the response names B.Tech. */
  method CreateCse(s: Store)
    requires s.Valid()
    requires s.programs == Table([BTech(), MTech()], 3)
    requires s.branches == EmptyTable() && s.programBranchMappings == EmptyTable()
    modifies s
    ensures s.Valid() && s.programs == old(s.programs)
    ensures s.branches == Table([Cse()], 2)
    ensures s.programBranchMappings == Table([Row(1, ProgramBranchMappingCols(1, 1, true))], 2)
  {
    var created := s.CreateBranch(BranchCreate("Computer Science", "CSE", 1));
    assert ProgramNameOf([BTech(), MTech()], 1) == Name("B.Tech");
    assert created == Ok(BranchView(Cse(), Name("B.Tech")));
  }

  /**
   * PUT /branches/1 with program 2, then GET /branches/1: both report M.Tech,
   * and branch 1 still has exactly one mapping row.
   */
  method RepointCse(s: Store)
    requires s.Valid()
    requires s.programs == Table([BTech(), MTech()], 3)
    requires s.branches == Table([Cse()], 2)
    requires s.programBranchMappings == Table([Row(1, ProgramBranchMappingCols(1, 1, true))], 2)
    modifies s
  {
    var maps := s.programBranchMappings;
    assert IndexOf([Cse()], 1) == Some(0);
    assert !KeyUsed([Cse()], BranchCode, "CSE", 1);
    var updated := s.UpdateBranch(1, BranchCreate("Computer Science", "CSE", 2));
    assert ProgramNameOf([BTech(), MTech()], 2) == Name("M.Tech");
    assert updated == Ok(Some(BranchView(Cse(), Name("M.Tech"))));

    var read := s.GetBranch(1);
    EnrichAfterUpsert(maps, Cse(), 2, [BTech(), MTech()]);
    assert read == Some(Enrich(Cse(), s.programBranchMappings.rows, [BTech(), MTech()]));
    assert read.value.programName == Name("M.Tech");
    UpsertMappingCount(maps, 1, 2, 0);
    assert MappingCount(maps.rows, 1) == 1;
    assert MappingCount(s.programBranchMappings.rows, 1) == 1;
  }

  method BranchRepointScenario()
  {
    var s := SeedFirstProgram();
    SeedSecondProgram(s);
    CreateCse(s);
    RepointCse(s);
  }
}
