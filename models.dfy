/** The records of `internal/models`. A `time.Time` is an instant counted in whole
    seconds; 0 is Go's zero time, the value a field keeps when a query did not select it. */
module Models {

  type Time = int

  const ZeroTime: Time := 0

  datatype Teacher = Teacher(id: int, name: string, email: string, password: string, isActive: bool)

  datatype Student = Student(id: int, name: string, code: string, password: string, classNumber: int)

  datatype Assignment = Assignment(id: int, title: string, description: string, teacherId: int, createdAt: Time)

  /** A homework (a row of student_assignments) as the teacher side reads it, joined with its student. */
  datatype HomeworkTeacher = HomeworkTeacher(
    id: int, assignmentId: int, name: string, code: string, classNumber: int,
    title: string, description: string, assignedAt: Time, deadline: Time, status: string)

  /** A homework as the student side reads it, joined with the teacher of its assignment. */
  datatype HomeworkStudent = HomeworkStudent(
    id: int, assignmentId: int, name: string,
    title: string, description: string, assignedAt: Time, deadline: Time, status: string)

  datatype Submission = Submission(
    id: int, assignmentId: int, studentId: int, text: string, submittedAt: Time, graded: bool)

  datatype Grade = Grade(id: int, studentId: int, submissionId: int, grade: int, feedback: string)

  const NoTeacher := Teacher(0, "", "", "", false)
  const NoStudent := Student(0, "", "", "", 0)
  const NoAssignment := Assignment(0, "", "", 0, ZeroTime)
  const NoHomeworkTeacher := HomeworkTeacher(0, 0, "", "", 0, "", "", ZeroTime, ZeroTime, "")
  const NoHomeworkStudent := HomeworkStudent(0, 0, "", "", "", ZeroTime, ZeroTime, "")
  const NoSubmission := Submission(0, 0, 0, "", ZeroTime, false)
  const NoGrade := Grade(0, 0, 0, 0, "")

  /** The three values the status column of student_assignments takes: not solved, solved, graded. */
  const StatusUnsolved: string := "не решено"
  const StatusSolved: string := "решено"
  const StatusGraded: string := "оценено"

  predicate IsStatus(s: string) {
    s == StatusUnsolved || s == StatusSolved || s == StatusGraded
  }
}
