/**
 * Request payloads: the fields a caller supplies to each create or update
 * operation. Ids and `status` are never part of a payload.
 */
module Schemas {
  import opened Wrappers

  /** Floating-point columns (credits, marks) are carried as a `real` on which no arithmetic is done. */
  type Float = real

  datatype ProgramCreate = ProgramCreate(name: string)

  /** Partial update of a Program: only a supplied field is written. */
  datatype ProgramUpdate = ProgramUpdate(name: Option<string>)

  /** The branch fields plus the program the branch belongs to. */
  datatype BranchCreate = BranchCreate(name: string, code: string, programId: int)

  datatype RegulationCreate = RegulationCreate(name: string)

  datatype ProgramBranchMappingCreate = ProgramBranchMappingCreate(programId: int, branchId: int)

  datatype CourseCreate = CourseCreate(
    name: string, code: string, branchId: int, regulationId: int, year: string,
    semester: string, courseType: string, electiveType: string, credits: Float)

  datatype BranchCourseMappingCreate = BranchCourseMappingCreate(
    branchId: int, courseId: int, programBranchMappingId: int, regulationId: int)

  datatype FacultyCreate = FacultyCreate(
    userType: string, branchId: Option<int>, honorific: string, name: string, empid: string,
    phone: string, email: string, passwordHash: string)

  datatype FacultyCourseMappingCreate = FacultyCourseMappingCreate(
    facultyId: int, courseId: int, courseType: string, year: string, semester: string,
    academicYear: string, electiveType: string)

  datatype BloomsLevelCreate = BloomsLevelCreate(name: string)

  datatype DifficultyLevelCreate = DifficultyLevelCreate(name: string)

  datatype UnitCreate = UnitCreate(name: string)

  datatype CourseOutcomeCreate = CourseOutcomeCreate(courseId: int, outcomeText: string)

  datatype QuestionCreate = QuestionCreate(
    courseId: int, coId: int, bloomsLevelId: int, difficultyLevelId: int, unitId: int,
    questionText: string, image: Option<string>, marks: Float)

  /** `createdAt` may be omitted (`None`) or empty; the store then stamps the current time. */
  datatype GeneratedQpCreate = GeneratedQpCreate(
    programId: int, courseId: int, assessmentType: string, dateOfExam: string, regulationId: int,
    year: string, semester: string, academicYear: string, questions: string,
    createdAt: Option<string>)
}
