/**
 * The stored record shapes, one column record per table, and the
 * constraints the schema declares on them: primary keys, `unique=True`
 * columns, and nullability (a `nullable=True` column is an `Option`, every
 * `nullable=False` column is always present). The `status` flag is a column
 * of every table except `generated_qps`; the schema leaves it nullable, but
 * no query function ever writes NULL to it, so it is a plain `bool`.
 */
module Models {
  import opened Wrappers
  import opened Tables
  import opened Schemas

  datatype ProgramCols = ProgramCols(name: string, status: bool)

  /** A branch has no program column: its program lives in the mapping table only. */
  datatype BranchCols = BranchCols(name: string, code: string, status: bool)

  datatype RegulationCols = RegulationCols(name: string, status: bool)

  /** Neither `branchId` nor the pair (programId, branchId) is unique. */
  datatype ProgramBranchMappingCols = ProgramBranchMappingCols(programId: int, branchId: int, status: bool)

  datatype CourseCols = CourseCols(
    name: string, code: string, branchId: int, regulationId: int, year: string,
    semester: string, courseType: string, electiveType: string, credits: Float, status: bool)

  datatype BranchCourseMappingCols = BranchCourseMappingCols(
    branchId: int, courseId: int, programBranchMappingId: int, regulationId: int, status: bool)

  /** `branchId` is the only nullable foreign key of the schema. */
  datatype FacultyCols = FacultyCols(
    userType: string, branchId: Option<int>, honorific: string, name: string, empid: string,
    phone: string, email: string, passwordHash: string, status: bool)

  datatype FacultyCourseMappingCols = FacultyCourseMappingCols(
    facultyId: int, courseId: int, courseType: string, year: string, semester: string,
    academicYear: string, electiveType: string, status: bool)

  datatype BloomsLevelCols = BloomsLevelCols(name: string, status: bool)

  datatype DifficultyLevelCols = DifficultyLevelCols(name: string, status: bool)

  datatype UnitCols = UnitCols(name: string, status: bool)

  datatype CourseOutcomeCols = CourseOutcomeCols(courseId: int, outcomeText: string, status: bool)

  /** `image` is the only nullable column besides `status` that is not a foreign key. */
  datatype QuestionCols = QuestionCols(
    courseId: int, coId: int, bloomsLevelId: int, difficultyLevelId: int, unitId: int,
    questionText: string, image: Option<string>, marks: Float, status: bool)

  /** A generated question paper; this table has no `status` column. */
  datatype GeneratedQpCols = GeneratedQpCols(
    programId: int, courseId: int, assessmentType: string, dateOfExam: string, regulationId: int,
    year: string, semester: string, academicYear: string, questions: string, createdAt: string)

  type Program = Row<ProgramCols>
  type Branch = Row<BranchCols>
  type Regulation = Row<RegulationCols>
  type ProgramBranchMapping = Row<ProgramBranchMappingCols>
  type Course = Row<CourseCols>
  type BranchCourseMapping = Row<BranchCourseMappingCols>
  type Faculty = Row<FacultyCols>
  type FacultyCourseMapping = Row<FacultyCourseMappingCols>
  type BloomsLevel = Row<BloomsLevelCols>
  type DifficultyLevel = Row<DifficultyLevelCols>
  type Unit = Row<UnitCols>
  type CourseOutcome = Row<CourseOutcomeCols>
  type Question = Row<QuestionCols>
  type GeneratedQp = Row<GeneratedQpCols>

  // The unique columns.
  function ProgramName(c: ProgramCols): string { c.name }
  function BranchCode(c: BranchCols): string { c.code }
  function RegulationName(c: RegulationCols): string { c.name }
  function CourseCode(c: CourseCols): string { c.code }
  function FacultyEmpid(c: FacultyCols): string { c.empid }
  function FacultyEmail(c: FacultyCols): string { c.email }
  function BloomsLevelName(c: BloomsLevelCols): string { c.name }
  function DifficultyLevelName(c: DifficultyLevelCols): string { c.name }
  function UnitName(c: UnitCols): string { c.name }

  /** The whole database: one table per model class. */
  datatype Db = Db(
    programs: Table<ProgramCols>,
    branches: Table<BranchCols>,
    regulations: Table<RegulationCols>,
    programBranchMappings: Table<ProgramBranchMappingCols>,
    courses: Table<CourseCols>,
    branchCourseMappings: Table<BranchCourseMappingCols>,
    faculties: Table<FacultyCols>,
    facultyCourseMappings: Table<FacultyCourseMappingCols>,
    bloomsLevels: Table<BloomsLevelCols>,
    difficultyLevels: Table<DifficultyLevelCols>,
    units: Table<UnitCols>,
    courseOutcomes: Table<CourseOutcomeCols>,
    questions: Table<QuestionCols>,
    generatedQps: Table<GeneratedQpCols>)

  /** Every primary key is fresh and distinct within its table. */
  predicate KeysValid(db: Db)
  {
    && WellFormed(db.programs)
    && WellFormed(db.branches)
    && WellFormed(db.regulations)
    && WellFormed(db.programBranchMappings)
    && WellFormed(db.courses)
    && WellFormed(db.branchCourseMappings)
    && WellFormed(db.faculties)
    && WellFormed(db.facultyCourseMappings)
    && WellFormed(db.bloomsLevels)
    && WellFormed(db.difficultyLevels)
    && WellFormed(db.units)
    && WellFormed(db.courseOutcomes)
    && WellFormed(db.questions)
    && WellFormed(db.generatedQps)
  }

  /** Every `unique=True` column holds distinct values. */
  predicate UniqueColumns(db: Db)
  {
    && Unique(db.programs.rows, ProgramName)
    && Unique(db.branches.rows, BranchCode)
    && Unique(db.regulations.rows, RegulationName)
    && Unique(db.courses.rows, CourseCode)
    && Unique(db.faculties.rows, FacultyEmpid)
    && Unique(db.faculties.rows, FacultyEmail)
    && Unique(db.bloomsLevels.rows, BloomsLevelName)
    && Unique(db.difficultyLevels.rows, DifficultyLevelName)
    && Unique(db.units.rows, UnitName)
  }

  /** The store invariant. */
  predicate DbValid(db: Db)
  {
    KeysValid(db) && UniqueColumns(db)
  }

  /** A freshly created database. */
  function EmptyDb(): (db: Db)
    ensures DbValid(db)
    ensures db.programs.rows == [] && db.branches.rows == [] && db.programBranchMappings.rows == []
  {
    Db(EmptyTable(), EmptyTable(), EmptyTable(), EmptyTable(), EmptyTable(), EmptyTable(), EmptyTable(),
       EmptyTable(), EmptyTable(), EmptyTable(), EmptyTable(), EmptyTable(), EmptyTable(), EmptyTable())
  }

  /**
   * The schema puts no constraint on mapping rows beyond their primary key:
   * a row naming any program and any branch, including a branch that already
   * has mappings, may be added to a valid database.
   */
  lemma MappingRowsUnconstrained(db: Db, cols: ProgramBranchMappingCols)
    requires DbValid(db)
    ensures DbValid(db.(programBranchMappings := Insert(db.programBranchMappings, cols)))
  {
  }
}
