/**
 * The query functions of the backend as methods on the database they query.
 * Each table is a field; writes replace the field, reads leave every field
 * alone. A write that would break a `unique=True` column is refused by the
 * database: it returns `Err` and changes nothing.
 */
module Crud {
  import opened Wrappers
  import opened Tables
  import opened Schemas
  import opened Models
  import opened BranchSync

  /** The failure a commit reports when a unique column would hold a value twice. */
  datatype StoreError = IntegrityError(column: string)

  /** `update_program`'s `exclude_unset`: only a supplied field is written. */
  function PatchProgram(c: ProgramCols, u: ProgramUpdate): (r: ProgramCols)
    ensures r.status == c.status
    ensures u.name.None? ==> r == c
    ensures u.name.Some? ==> r.name == u.name.value
  {
    match u.name
    case None => c
    case Some(n) => c.(name := n)
  }

  /** `created_at` is stamped with `now` exactly when the payload's value is missing or empty. */
  function StampCreatedAt(given: Option<string>, now: string): (s: string)
    ensures given.None? || given == Some("") ==> s == now
    ensures given.Some? && given.value != "" ==> s == given.value
    ensures s == "" ==> now == ""
  {
    if given.None? || given.value == "" then now else given.value
  }

  /** `get_course_outcomes`: the outcomes of one course, in storage order. */
  function OutcomesOfCourse(rows: seq<CourseOutcome>, courseId: int): (r: seq<CourseOutcome>)
    ensures forall x | x in r :: x in rows && x.cols.courseId == courseId
    ensures forall x | x in rows && x.cols.courseId == courseId :: x in r
    ensures Increasing(rows) ==> Increasing(r)
  {
    Filter(rows, (c: CourseOutcomeCols) => c.courseId == courseId)
  }

  /** The filter of `get_questions`: the questions of one course, in storage order. */
  function QuestionsOfCourse(rows: seq<Question>, courseId: int): (r: seq<Question>)
    ensures forall x | x in r :: x in rows && x.cols.courseId == courseId
    ensures forall x | x in rows && x.cols.courseId == courseId :: x in r
    ensures Increasing(rows) ==> Increasing(r)
  {
    Filter(rows, (c: QuestionCols) => c.courseId == courseId)
  }

  /**
   * The persisted database. Each request opens a fresh session over it;
   * a session adds nothing the model needs, so the store is the data itself.
   */
  class Store {
    var programs: Table<ProgramCols>
    var branches: Table<BranchCols>
    var regulations: Table<RegulationCols>
    var programBranchMappings: Table<ProgramBranchMappingCols>
    var courses: Table<CourseCols>
    var branchCourseMappings: Table<BranchCourseMappingCols>
    var faculties: Table<FacultyCols>
    var facultyCourseMappings: Table<FacultyCourseMappingCols>
    var bloomsLevels: Table<BloomsLevelCols>
    var difficultyLevels: Table<DifficultyLevelCols>
    var units: Table<UnitCols>
    var courseOutcomes: Table<CourseOutcomeCols>
    var questions: Table<QuestionCols>
    var generatedQps: Table<GeneratedQpCols>

    /** The database as a value. */
    function State(): Db
      reads this
    {
      Db(programs, branches, regulations, programBranchMappings, courses, branchCourseMappings,
         faculties, facultyCourseMappings, bloomsLevels, difficultyLevels, units, courseOutcomes,
         questions, generatedQps)
    }

    predicate Valid()
      reads this
    {
      DbValid(State())
    }

    /** `create_all` on an empty engine: every table exists and is empty. */
    constructor ()
      ensures Valid() && State() == EmptyDb()
    {
      programs, branches, regulations := EmptyTable(), EmptyTable(), EmptyTable();
      programBranchMappings, courses, branchCourseMappings := EmptyTable(), EmptyTable(), EmptyTable();
      faculties, facultyCourseMappings, bloomsLevels := EmptyTable(), EmptyTable(), EmptyTable();
      difficultyLevels, units, courseOutcomes := EmptyTable(), EmptyTable(), EmptyTable();
      questions, generatedQps := EmptyTable(), EmptyTable();
    }

    // ---------------------------------------------------------------- Programs

    method GetPrograms(skip: nat, limit: nat) returns (page: seq<Program>)
      ensures page == Page(programs.rows, skip, limit)
    {
      page := Page(programs.rows, skip, limit);
    }

    method GetProgram(id: int) returns (r: Option<Program>)
      ensures r == Find(programs.rows, id)
    {
      r := Find(programs.rows, id);
    }

    method CreateProgram(p: ProgramCreate) returns (r: Result<Program, StoreError>)
      requires Valid()
      modifies this
      ensures Valid()
      ensures var cols := ProgramCols(p.name, true);
        if KeyUsed(old(programs.rows), ProgramName, p.name, old(programs.nextId))
        then r == Err(IntegrityError("programs.name")) && State() == old(State())
        else (r == Ok(Row(old(programs.nextId), cols))
          && State() == old(State()).(programs := Insert(old(programs), cols)))
    {
      var cols := ProgramCols(p.name, true);
      if KeyUsed(programs.rows, ProgramName, cols.name, programs.nextId) {
        return Err(IntegrityError("programs.name"));
      }
      InsertKeepsUnique(programs, ProgramName, cols);
      r := Ok(Row(programs.nextId, cols));
      programs := Insert(programs, cols);
    }

    method UpdateProgram(id: int, u: ProgramUpdate) returns (r: Result<Option<Program>, StoreError>)
      requires Valid()
      modifies this
      ensures Valid()
      ensures match IndexOf(old(programs.rows), id)
        case None => r == Ok(None) && State() == old(State())
        case Some(i) =>
          var cols := PatchProgram(old(programs.rows)[i].cols, u);
          if KeyUsed(old(programs.rows), ProgramName, cols.name, id)
          then r == Err(IntegrityError("programs.name")) && State() == old(State())
          else (r == Ok(Some(Row(id, cols)))
            && State() == old(State()).(programs := SetCols(old(programs), i, cols)))
    {
      var found := IndexOf(programs.rows, id);
      if found.None? {
        return Ok(None);
      }
      var i := found.value;
      var cols := PatchProgram(programs.rows[i].cols, u);
      if KeyUsed(programs.rows, ProgramName, cols.name, id) {
        return Err(IntegrityError("programs.name"));
      }
      SetColsKeepsUnique(programs, i, ProgramName, cols);
      programs := SetCols(programs, i, cols);
      r := Ok(Some(programs.rows[i]));
    }

    method DeleteProgram(id: int) returns (r: Option<Program>)
      requires Valid()
      modifies this
      ensures Valid()
      ensures match IndexOf(old(programs.rows), id)
        case None => r == None && State() == old(State())
        case Some(i) => (r == Some(old(programs.rows)[i])
          && State() == old(State()).(programs := RemoveAt(old(programs), i)))
    {
      var found := IndexOf(programs.rows, id);
      if found.None? {
        return None;
      }
      r := Some(programs.rows[found.value]);
      RemoveKeepsUnique(programs, found.value, ProgramName);
      programs := RemoveAt(programs, found.value);
    }

    // ---------------------------------------------------------------- Branches

    /** `get_branches`: one page of branches, each enriched with its program's name. */
    method GetBranches(skip: nat, limit: nat) returns (views: seq<BranchView>)
      ensures |views| == |Page(branches.rows, skip, limit)|
      ensures forall k | 0 <= k < |views| ::
        views[k] == Enrich(Page(branches.rows, skip, limit)[k], programBranchMappings.rows, programs.rows)
    {
      var page := Page(branches.rows, skip, limit);
      views := [];
      var i := 0;
      while i < |page|
        invariant 0 <= i <= |page| && |views| == i
        invariant forall k | 0 <= k < i :: views[k] == Enrich(page[k], programBranchMappings.rows, programs.rows)
      {
        var branch := page[i];
        var name := Unset;
        var mapping := FirstMapping(programBranchMappings.rows, branch.id);
        if mapping.Some? {
          name := ProgramNameOf(programs.rows, programBranchMappings.rows[mapping.value].cols.programId);
        }
        views := views + [BranchView(branch, name)];
        i := i + 1;
      }
    }

    /** `get_branch`: the branch with id `id`, enriched with its program's name. */
    method GetBranch(id: int) returns (r: Option<BranchView>)
      ensures r.None? <==> !HasId(branches.rows, id)
      ensures r.Some? ==> r.value == Enrich(Find(branches.rows, id).value, programBranchMappings.rows, programs.rows)
    {
      var branch := Find(branches.rows, id);
      if branch.None? {
        return None;
      }
      var name := Unset;
      var mapping := FirstMapping(programBranchMappings.rows, id);
      if mapping.Some? {
        name := ProgramNameOf(programs.rows, programBranchMappings.rows[mapping.value].cols.programId);
      }
      r := Some(BranchView(branch.value, name));
    }

    /** `create_branch`: stores the branch without its program and adds one mapping for it. */
    method CreateBranch(p: BranchCreate) returns (r: Result<BranchView, StoreError>)
      requires Valid()
      modifies this
      ensures Valid()
      ensures var cols := BranchCols(p.name, p.code, true);
        var id := old(branches.nextId);
        if KeyUsed(old(branches.rows), BranchCode, p.code, id)
        then r == Err(IntegrityError("branches.code")) && State() == old(State())
        else (r == Ok(BranchView(Row(id, cols), ProgramNameOf(old(programs.rows), p.programId)))
          && State() == old(State()).(
               branches := Insert(old(branches), cols),
               programBranchMappings := Insert(old(programBranchMappings), ProgramBranchMappingCols(p.programId, id, true))))
    {
      var cols := BranchCols(p.name, p.code, true);
      if KeyUsed(branches.rows, BranchCode, cols.code, branches.nextId) {
        return Err(IntegrityError("branches.code"));
      }
      InsertKeepsUnique(branches, BranchCode, cols);
      var branch := Row(branches.nextId, cols);
      branches := Insert(branches, cols);
      var _ := CreateProgramBranchMapping(ProgramBranchMappingCreate(p.programId, branch.id));
      r := Ok(BranchView(branch, ProgramNameOf(programs.rows, p.programId)));
    }

    /**
     * `update_branch`: overwrites name and code, then upserts the mapping:
     * the first mapping of the branch is repointed in place, or one is added.
     */
    method UpdateBranch(id: int, p: BranchCreate) returns (r: Result<Option<BranchView>, StoreError>)
      requires Valid()
      modifies this
      ensures Valid()
      ensures match IndexOf(old(branches.rows), id)
        case None => r == Ok(None) && State() == old(State())
        case Some(i) =>
          var cols := BranchCols(p.name, p.code, old(branches.rows)[i].cols.status);
          if KeyUsed(old(branches.rows), BranchCode, p.code, id)
          then r == Err(IntegrityError("branches.code")) && State() == old(State())
          else (r == Ok(Some(BranchView(Row(id, cols), ProgramNameOf(old(programs.rows), p.programId))))
            && State() == old(State()).(
                 branches := SetCols(old(branches), i, cols),
                 programBranchMappings := Upsert(old(programBranchMappings), id, p.programId)))
    {
      var found := IndexOf(branches.rows, id);
      if found.None? {
        return Ok(None);
      }
      var i := found.value;
      var cols := BranchCols(p.name, p.code, branches.rows[i].cols.status);
      if KeyUsed(branches.rows, BranchCode, cols.code, id) {
        return Err(IntegrityError("branches.code"));
      }
      SetColsKeepsUnique(branches, i, BranchCode, cols);
      branches := SetCols(branches, i, cols);
      var existing := FirstMapping(programBranchMappings.rows, id);
      if existing.Some? {
        var k := existing.value;
        programBranchMappings := SetCols(programBranchMappings, k, programBranchMappings.rows[k].cols.(programId := p.programId));
      } else {
        var _ := CreateProgramBranchMapping(ProgramBranchMappingCreate(p.programId, id));
      }
      r := Ok(Some(BranchView(Row(id, cols), ProgramNameOf(programs.rows, p.programId))));
    }

    /** `delete_branch`: removes the branch row and leaves its mapping rows in place. */
    method DeleteBranch(id: int) returns (r: Option<Branch>)
      requires Valid()
      modifies this
      ensures Valid()
      ensures match IndexOf(old(branches.rows), id)
        case None => r == None && State() == old(State())
        case Some(i) => (r == Some(old(branches.rows)[i])
          && State() == old(State()).(branches := RemoveAt(old(branches), i)))
    {
      var found := IndexOf(branches.rows, id);
      if found.None? {
        return None;
      }
      r := Some(branches.rows[found.value]);
      RemoveKeepsUnique(branches, found.value, BranchCode);
      branches := RemoveAt(branches, found.value);
    }

    // ------------------------------------------------------------- Regulations

    method GetRegulations(skip: nat, limit: nat) returns (page: seq<Regulation>)
      ensures page == Page(regulations.rows, skip, limit)
    {
      page := Page(regulations.rows, skip, limit);
    }

    method GetRegulation(id: int) returns (r: Option<Regulation>)
      ensures r == Find(regulations.rows, id)
    {
      r := Find(regulations.rows, id);
    }

    method CreateRegulation(p: RegulationCreate) returns (r: Result<Regulation, StoreError>)
      requires Valid()
      modifies this
      ensures Valid()
      ensures var cols := RegulationCols(p.name, true);
        if KeyUsed(old(regulations.rows), RegulationName, p.name, old(regulations.nextId))
        then r == Err(IntegrityError("regulations.name")) && State() == old(State())
        else (r == Ok(Row(old(regulations.nextId), cols))
          && State() == old(State()).(regulations := Insert(old(regulations), cols)))
    {
      var cols := RegulationCols(p.name, true);
      if KeyUsed(regulations.rows, RegulationName, cols.name, regulations.nextId) {
        return Err(IntegrityError("regulations.name"));
      }
      InsertKeepsUnique(regulations, RegulationName, cols);
      r := Ok(Row(regulations.nextId, cols));
      regulations := Insert(regulations, cols);
    }

    /** `update_regulation`: every payload field is overwritten; id and status are kept. */
    method UpdateRegulation(id: int, p: RegulationCreate) returns (r: Result<Option<Regulation>, StoreError>)
      requires Valid()
      modifies this
      ensures Valid()
      ensures match IndexOf(old(regulations.rows), id)
        case None => r == Ok(None) && State() == old(State())
        case Some(i) =>
          var cols := RegulationCols(p.name, old(regulations.rows)[i].cols.status);
          if KeyUsed(old(regulations.rows), RegulationName, p.name, id)
          then r == Err(IntegrityError("regulations.name")) && State() == old(State())
          else (r == Ok(Some(Row(id, cols)))
            && State() == old(State()).(regulations := SetCols(old(regulations), i, cols)))
    {
      var found := IndexOf(regulations.rows, id);
      if found.None? {
        return Ok(None);
      }
      var i := found.value;
      var cols := RegulationCols(p.name, regulations.rows[i].cols.status);
      if KeyUsed(regulations.rows, RegulationName, cols.name, id) {
        return Err(IntegrityError("regulations.name"));
      }
      SetColsKeepsUnique(regulations, i, RegulationName, cols);
      regulations := SetCols(regulations, i, cols);
      r := Ok(Some(regulations.rows[i]));
    }

    method DeleteRegulation(id: int) returns (r: Option<Regulation>)
      requires Valid()
      modifies this
      ensures Valid()
      ensures match IndexOf(old(regulations.rows), id)
        case None => r == None && State() == old(State())
        case Some(i) => (r == Some(old(regulations.rows)[i])
          && State() == old(State()).(regulations := RemoveAt(old(regulations), i)))
    {
      var found := IndexOf(regulations.rows, id);
      if found.None? {
        return None;
      }
      r := Some(regulations.rows[found.value]);
      RemoveKeepsUnique(regulations, found.value, RegulationName);
      regulations := RemoveAt(regulations, found.value);
    }

    // ------------------------------------------------- Program-Branch mappings

    method GetProgramBranchMappings(skip: nat, limit: nat) returns (page: seq<ProgramBranchMapping>)
      ensures page == Page(programBranchMappings.rows, skip, limit)
    {
      page := Page(programBranchMappings.rows, skip, limit);
    }

    method CreateProgramBranchMapping(m: ProgramBranchMappingCreate) returns (r: ProgramBranchMapping)
      requires Valid()
      modifies this
      ensures Valid()
      ensures var cols := ProgramBranchMappingCols(m.programId, m.branchId, true);
        r == Row(old(programBranchMappings.nextId), cols)
        && State() == old(State()).(programBranchMappings := Insert(old(programBranchMappings), cols))
    {
      var cols := ProgramBranchMappingCols(m.programId, m.branchId, true);
      r := Row(programBranchMappings.nextId, cols);
      programBranchMappings := Insert(programBranchMappings, cols);
    }

    // ----------------------------------------------------------------- Courses

    method GetCourses(skip: nat, limit: nat) returns (page: seq<Course>)
      ensures page == Page(courses.rows, skip, limit)
    {
      page := Page(courses.rows, skip, limit);
    }

    method GetCourse(id: int) returns (r: Option<Course>)
      ensures r == Find(courses.rows, id)
    {
      r := Find(courses.rows, id);
    }

    method CreateCourse(p: CourseCreate) returns (r: Result<Course, StoreError>)
      requires Valid()
      modifies this
      ensures Valid()
      ensures var cols := CourseCols(p.name, p.code, p.branchId, p.regulationId, p.year, p.semester,
                                     p.courseType, p.electiveType, p.credits, true);
        if KeyUsed(old(courses.rows), CourseCode, p.code, old(courses.nextId))
        then r == Err(IntegrityError("courses.code")) && State() == old(State())
        else (r == Ok(Row(old(courses.nextId), cols))
          && State() == old(State()).(courses := Insert(old(courses), cols)))
    {
      var cols := CourseCols(p.name, p.code, p.branchId, p.regulationId, p.year, p.semester,
                             p.courseType, p.electiveType, p.credits, true);
      if KeyUsed(courses.rows, CourseCode, cols.code, courses.nextId) {
        return Err(IntegrityError("courses.code"));
      }
      InsertKeepsUnique(courses, CourseCode, cols);
      r := Ok(Row(courses.nextId, cols));
      courses := Insert(courses, cols);
    }

    /** `update_course`: every payload field is overwritten; id and status are kept. */
    method UpdateCourse(id: int, p: CourseCreate) returns (r: Result<Option<Course>, StoreError>)
      requires Valid()
      modifies this
      ensures Valid()
      ensures match IndexOf(old(courses.rows), id)
        case None => r == Ok(None) && State() == old(State())
        case Some(i) =>
          var cols := CourseCols(p.name, p.code, p.branchId, p.regulationId, p.year, p.semester,
                                 p.courseType, p.electiveType, p.credits, old(courses.rows)[i].cols.status);
          if KeyUsed(old(courses.rows), CourseCode, p.code, id)
          then r == Err(IntegrityError("courses.code")) && State() == old(State())
          else (r == Ok(Some(Row(id, cols)))
            && State() == old(State()).(courses := SetCols(old(courses), i, cols)))
    {
      var found := IndexOf(courses.rows, id);
      if found.None? {
        return Ok(None);
      }
      var i := found.value;
      var cols := CourseCols(p.name, p.code, p.branchId, p.regulationId, p.year, p.semester,
                             p.courseType, p.electiveType, p.credits, courses.rows[i].cols.status);
      if KeyUsed(courses.rows, CourseCode, cols.code, id) {
        return Err(IntegrityError("courses.code"));
      }
      SetColsKeepsUnique(courses, i, CourseCode, cols);
      courses := SetCols(courses, i, cols);
      r := Ok(Some(courses.rows[i]));
    }

    method DeleteCourse(id: int) returns (r: Option<Course>)
      requires Valid()
      modifies this
      ensures Valid()
      ensures match IndexOf(old(courses.rows), id)
        case None => r == None && State() == old(State())
        case Some(i) => (r == Some(old(courses.rows)[i])
          && State() == old(State()).(courses := RemoveAt(old(courses), i)))
    {
      var found := IndexOf(courses.rows, id);
      if found.None? {
        return None;
      }
      r := Some(courses.rows[found.value]);
      RemoveKeepsUnique(courses, found.value, CourseCode);
      courses := RemoveAt(courses, found.value);
    }

    // -------------------------------------------------- Branch-Course mappings

    method GetBranchCourseMappings(skip: nat, limit: nat) returns (page: seq<BranchCourseMapping>)
      ensures page == Page(branchCourseMappings.rows, skip, limit)
    {
      page := Page(branchCourseMappings.rows, skip, limit);
    }

    method CreateBranchCourseMapping(m: BranchCourseMappingCreate) returns (r: BranchCourseMapping)
      requires Valid()
      modifies this
      ensures Valid()
      ensures var cols := BranchCourseMappingCols(m.branchId, m.courseId, m.programBranchMappingId, m.regulationId, true);
        r == Row(old(branchCourseMappings.nextId), cols)
        && State() == old(State()).(branchCourseMappings := Insert(old(branchCourseMappings), cols))
    {
      var cols := BranchCourseMappingCols(m.branchId, m.courseId, m.programBranchMappingId, m.regulationId, true);
      r := Row(branchCourseMappings.nextId, cols);
      branchCourseMappings := Insert(branchCourseMappings, cols);
    }

    // --------------------------------------------------------------- Faculties

    method GetFaculties(skip: nat, limit: nat) returns (page: seq<Faculty>)
      ensures page == Page(faculties.rows, skip, limit)
    {
      page := Page(faculties.rows, skip, limit);
    }

    method GetFaculty(id: int) returns (r: Option<Faculty>)
      ensures r == Find(faculties.rows, id)
    {
      r := Find(faculties.rows, id);
    }

    method CreateFaculty(p: FacultyCreate) returns (r: Result<Faculty, StoreError>)
      requires Valid()
      modifies this
      ensures Valid()
      ensures var cols := FacultyCols(p.userType, p.branchId, p.honorific, p.name, p.empid, p.phone,
                                      p.email, p.passwordHash, true);
        var id := old(faculties.nextId);
        if KeyUsed(old(faculties.rows), FacultyEmpid, p.empid, id)
        then r == Err(IntegrityError("faculties.empid")) && State() == old(State())
        else if KeyUsed(old(faculties.rows), FacultyEmail, p.email, id)
        then r == Err(IntegrityError("faculties.email")) && State() == old(State())
        else r == Ok(Row(id, cols)) && State() == old(State()).(faculties := Insert(old(faculties), cols))
    {
      var cols := FacultyCols(p.userType, p.branchId, p.honorific, p.name, p.empid, p.phone,
                              p.email, p.passwordHash, true);
      if KeyUsed(faculties.rows, FacultyEmpid, cols.empid, faculties.nextId) {
        return Err(IntegrityError("faculties.empid"));
      }
      if KeyUsed(faculties.rows, FacultyEmail, cols.email, faculties.nextId) {
        return Err(IntegrityError("faculties.email"));
      }
      InsertKeepsUnique(faculties, FacultyEmpid, cols);
      InsertKeepsUnique(faculties, FacultyEmail, cols);
      r := Ok(Row(faculties.nextId, cols));
      faculties := Insert(faculties, cols);
    }

    /**
     * `update_faculty`: every payload field is overwritten (an omitted
     * `branchId` clears the column); id and status are kept.
     */
    method UpdateFaculty(id: int, p: FacultyCreate) returns (r: Result<Option<Faculty>, StoreError>)
      requires Valid()
      modifies this
      ensures Valid()
      ensures match IndexOf(old(faculties.rows), id)
        case None => r == Ok(None) && State() == old(State())
        case Some(i) =>
          var cols := FacultyCols(p.userType, p.branchId, p.honorific, p.name, p.empid, p.phone,
                                  p.email, p.passwordHash, old(faculties.rows)[i].cols.status);
          if KeyUsed(old(faculties.rows), FacultyEmpid, p.empid, id)
          then r == Err(IntegrityError("faculties.empid")) && State() == old(State())
          else if KeyUsed(old(faculties.rows), FacultyEmail, p.email, id)
               then r == Err(IntegrityError("faculties.email")) && State() == old(State())
               else (r == Ok(Some(Row(id, cols)))
                 && State() == old(State()).(faculties := SetCols(old(faculties), i, cols)))
    {
      var found := IndexOf(faculties.rows, id);
      if found.None? {
        return Ok(None);
      }
      var i := found.value;
      var cols := FacultyCols(p.userType, p.branchId, p.honorific, p.name, p.empid, p.phone,
                              p.email, p.passwordHash, faculties.rows[i].cols.status);
      if KeyUsed(faculties.rows, FacultyEmpid, cols.empid, id) {
        return Err(IntegrityError("faculties.empid"));
      }
      if KeyUsed(faculties.rows, FacultyEmail, cols.email, id) {
        return Err(IntegrityError("faculties.email"));
      }
      SetColsKeepsUnique(faculties, i, FacultyEmpid, cols);
      SetColsKeepsUnique(faculties, i, FacultyEmail, cols);
      faculties := SetCols(faculties, i, cols);
      r := Ok(Some(faculties.rows[i]));
    }

    method DeleteFaculty(id: int) returns (r: Option<Faculty>)
      requires Valid()
      modifies this
      ensures Valid()
      ensures match IndexOf(old(faculties.rows), id)
        case None => r == None && State() == old(State())
        case Some(i) => (r == Some(old(faculties.rows)[i])
          && State() == old(State()).(faculties := RemoveAt(old(faculties), i)))
    {
      var found := IndexOf(faculties.rows, id);
      if found.None? {
        return None;
      }
      r := Some(faculties.rows[found.value]);
      RemoveKeepsUnique(faculties, found.value, FacultyEmpid);
      RemoveKeepsUnique(faculties, found.value, FacultyEmail);
      faculties := RemoveAt(faculties, found.value);
    }

    // ------------------------------------------------- Faculty-Course mappings

    method GetFacultyCourseMappings(skip: nat, limit: nat) returns (page: seq<FacultyCourseMapping>)
      ensures page == Page(facultyCourseMappings.rows, skip, limit)
    {
      page := Page(facultyCourseMappings.rows, skip, limit);
    }

    method CreateFacultyCourseMapping(m: FacultyCourseMappingCreate) returns (r: FacultyCourseMapping)
      requires Valid()
      modifies this
      ensures Valid()
      ensures var cols := FacultyCourseMappingCols(m.facultyId, m.courseId, m.courseType, m.year, m.semester,
                                                   m.academicYear, m.electiveType, true);
        r == Row(old(facultyCourseMappings.nextId), cols)
        && State() == old(State()).(facultyCourseMappings := Insert(old(facultyCourseMappings), cols))
    {
      var cols := FacultyCourseMappingCols(m.facultyId, m.courseId, m.courseType, m.year, m.semester,
                                           m.academicYear, m.electiveType, true);
      r := Row(facultyCourseMappings.nextId, cols);
      facultyCourseMappings := Insert(facultyCourseMappings, cols);
    }

    // ---------------------------------------------- Bloom's and difficulty levels, units

    method GetBloomsLevels(skip: nat, limit: nat) returns (page: seq<BloomsLevel>)
      ensures page == Page(bloomsLevels.rows, skip, limit)
    {
      page := Page(bloomsLevels.rows, skip, limit);
    }

    method CreateBloomsLevel(p: BloomsLevelCreate) returns (r: Result<BloomsLevel, StoreError>)
      requires Valid()
      modifies this
      ensures Valid()
      ensures var cols := BloomsLevelCols(p.name, true);
        if KeyUsed(old(bloomsLevels.rows), BloomsLevelName, p.name, old(bloomsLevels.nextId))
        then r == Err(IntegrityError("blooms_levels.name")) && State() == old(State())
        else (r == Ok(Row(old(bloomsLevels.nextId), cols))
          && State() == old(State()).(bloomsLevels := Insert(old(bloomsLevels), cols)))
    {
      var cols := BloomsLevelCols(p.name, true);
      if KeyUsed(bloomsLevels.rows, BloomsLevelName, cols.name, bloomsLevels.nextId) {
        return Err(IntegrityError("blooms_levels.name"));
      }
      InsertKeepsUnique(bloomsLevels, BloomsLevelName, cols);
      r := Ok(Row(bloomsLevels.nextId, cols));
      bloomsLevels := Insert(bloomsLevels, cols);
    }

    method GetDifficultyLevels(skip: nat, limit: nat) returns (page: seq<DifficultyLevel>)
      ensures page == Page(difficultyLevels.rows, skip, limit)
    {
      page := Page(difficultyLevels.rows, skip, limit);
    }

    method CreateDifficultyLevel(p: DifficultyLevelCreate) returns (r: Result<DifficultyLevel, StoreError>)
      requires Valid()
      modifies this
      ensures Valid()
      ensures var cols := DifficultyLevelCols(p.name, true);
        if KeyUsed(old(difficultyLevels.rows), DifficultyLevelName, p.name, old(difficultyLevels.nextId))
        then r == Err(IntegrityError("difficulty_levels.name")) && State() == old(State())
        else (r == Ok(Row(old(difficultyLevels.nextId), cols))
          && State() == old(State()).(difficultyLevels := Insert(old(difficultyLevels), cols)))
    {
      var cols := DifficultyLevelCols(p.name, true);
      if KeyUsed(difficultyLevels.rows, DifficultyLevelName, cols.name, difficultyLevels.nextId) {
        return Err(IntegrityError("difficulty_levels.name"));
      }
      InsertKeepsUnique(difficultyLevels, DifficultyLevelName, cols);
      r := Ok(Row(difficultyLevels.nextId, cols));
      difficultyLevels := Insert(difficultyLevels, cols);
    }

    method GetUnits(skip: nat, limit: nat) returns (page: seq<Unit>)
      ensures page == Page(units.rows, skip, limit)
    {
      page := Page(units.rows, skip, limit);
    }

    method CreateUnit(p: UnitCreate) returns (r: Result<Unit, StoreError>)
      requires Valid()
      modifies this
      ensures Valid()
      ensures var cols := UnitCols(p.name, true);
        if KeyUsed(old(units.rows), UnitName, p.name, old(units.nextId))
        then r == Err(IntegrityError("units.name")) && State() == old(State())
        else (r == Ok(Row(old(units.nextId), cols))
          && State() == old(State()).(units := Insert(old(units), cols)))
    {
      var cols := UnitCols(p.name, true);
      if KeyUsed(units.rows, UnitName, cols.name, units.nextId) {
        return Err(IntegrityError("units.name"));
      }
      InsertKeepsUnique(units, UnitName, cols);
      r := Ok(Row(units.nextId, cols));
      units := Insert(units, cols);
    }

    // --------------------------------------------------------- Course outcomes

    method GetCourseOutcomes(courseId: int) returns (r: seq<CourseOutcome>)
      ensures r == OutcomesOfCourse(courseOutcomes.rows, courseId)
    {
      r := OutcomesOfCourse(courseOutcomes.rows, courseId);
    }

    method CreateCourseOutcome(p: CourseOutcomeCreate) returns (r: CourseOutcome)
      requires Valid()
      modifies this
      ensures Valid()
      ensures var cols := CourseOutcomeCols(p.courseId, p.outcomeText, true);
        r == Row(old(courseOutcomes.nextId), cols)
        && State() == old(State()).(courseOutcomes := Insert(old(courseOutcomes), cols))
    {
      var cols := CourseOutcomeCols(p.courseId, p.outcomeText, true);
      r := Row(courseOutcomes.nextId, cols);
      courseOutcomes := Insert(courseOutcomes, cols);
    }

    // --------------------------------------------------------------- Questions

    /** `get_questions`: the questions of one course, then one page of them. */
    method GetQuestions(courseId: int, skip: nat, limit: nat) returns (page: seq<Question>)
      ensures page == Page(QuestionsOfCourse(questions.rows, courseId), skip, limit)
    {
      page := Page(QuestionsOfCourse(questions.rows, courseId), skip, limit);
    }

    method CreateQuestion(p: QuestionCreate) returns (r: Question)
      requires Valid()
      modifies this
      ensures Valid()
      ensures var cols := QuestionCols(p.courseId, p.coId, p.bloomsLevelId, p.difficultyLevelId, p.unitId,
                                       p.questionText, p.image, p.marks, true);
        r == Row(old(questions.nextId), cols)
        && State() == old(State()).(questions := Insert(old(questions), cols))
    {
      var cols := QuestionCols(p.courseId, p.coId, p.bloomsLevelId, p.difficultyLevelId, p.unitId,
                               p.questionText, p.image, p.marks, true);
      r := Row(questions.nextId, cols);
      questions := Insert(questions, cols);
    }

    // ---------------------------------------------------------- Generated QPs

    method GetGeneratedQps(skip: nat, limit: nat) returns (page: seq<GeneratedQp>)
      ensures page == Page(generatedQps.rows, skip, limit)
    {
      page := Page(generatedQps.rows, skip, limit);
    }

    /** `create_generated_qp`, with the clock's reading passed in as `now`. */
    method CreateGeneratedQp(p: GeneratedQpCreate, now: string) returns (r: GeneratedQp)
      requires Valid()
      modifies this
      ensures Valid()
      ensures var cols := GeneratedQpCols(p.programId, p.courseId, p.assessmentType, p.dateOfExam, p.regulationId,
                                          p.year, p.semester, p.academicYear, p.questions,
                                          StampCreatedAt(p.createdAt, now));
        r == Row(old(generatedQps.nextId), cols)
        && State() == old(State()).(generatedQps := Insert(old(generatedQps), cols))
    {
      var createdAt := StampCreatedAt(p.createdAt, now);
      var cols := GeneratedQpCols(p.programId, p.courseId, p.assessmentType, p.dateOfExam, p.regulationId,
                                  p.year, p.semester, p.academicYear, p.questions, createdAt);
      r := Row(generatedQps.nextId, cols);
      generatedQps := Insert(generatedQps, cols);
    }
  }
}
