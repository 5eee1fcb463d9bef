/** The service interfaces the handlers call (`Authorization`, `TeacherInterface`,
    `StudentInterface`, `FileSaver`), given as functions, and the log of the calls a handler
    made, in order, with their arguments. */
module Api {
  import opened Wrappers
  import opened Models
  import opened Gin
  import Saver

  datatype Authorization = Authorization(
    createTeacher: Teacher -> Result<string>,
    createStudent: (int, string, int) -> Result<Student>,
    getTeacherByEmail: string -> Result<Teacher>,
    sendConfirmationEmail: (string, string) -> Outcome,
    sendResetEmail: (string, string) -> Outcome,
    confirmEmail: string -> Result<int>,
    generateResetToken: int -> Result<string>,
    generateTeacherToken: (string, string) -> Result<string>,
    generateStudentToken: (string, string) -> Result<string>,
    parseToken: string -> Result<(int, int)>,
    parseResetToken: string -> Result<int>,
    activateUser: int -> Outcome,
    updateStudentPassword: (int, string, string) -> Outcome,
    updateTeacherPassword: (int, string) -> Outcome)

  /** A homework as GetHomework returns it: the homework, its submission and grade (zero
      values when there are none), the assignment's files and the submission's files. */
  datatype HomeworkDetails<H> = HomeworkDetails(
    homework: H, submission: Submission, grade: Grade, hwFiles: seq<string>, subFiles: seq<string>)

  datatype Teachers = Teachers(
    createAssignment: (string, string, int) -> Result<int>,
    saveFile: (int, string) -> Outcome,
    attachStudent: (int, string) -> Result<Student>,
    attachAssignment: (int, int, int, Time, string, string) -> Result<int>,
    gradeHomework: (int, int, string) -> Result<int>,
    getAssignments: int -> Result<seq<Assignment>>,
    getAssignment: (int, int) -> Result<(Assignment, seq<string>)>,
    getStudents: int -> Result<seq<Student>>,
    getStudent: int -> Result<Student>,
    getAllHomeworks: int -> Result<seq<HomeworkTeacher>>,
    getAllHomeworksByStudentId: (int, int) -> Result<seq<HomeworkTeacher>>,
    getHomework: int -> Result<HomeworkDetails<HomeworkTeacher>>,
    updateAssignment: (int, string, string) -> Outcome,
    updateHomework: (int, string, string, Time) -> Result<bool>,
    deleteAssignment: int -> Result<bool>,
    deleteFiles: int -> Outcome,
    deleteStudent: (int, int) -> Outcome,
    deleteHomework: int -> Result<bool>)

  datatype Students = Students(
    attachHomework: (int, int, string) -> Result<int>,
    saveFile: (int, string) -> Outcome,
    getAllHomeworks: (int, int) -> Result<seq<HomeworkStudent>>,
    getHomework: int -> Result<HomeworkDetails<HomeworkStudent>>,
    getTeachers: int -> Result<seq<Teacher>>,
    updateHomework: (int, string) -> Result<bool>,
    deleteFiles: int -> Outcome,
    deleteHomework: int -> Result<bool>)

  /** The handler's view of its environment: the services, the file saver (which reads the
      clock), os.ReadFile followed by base64 encoding, the email-format check of the
      validator, and time.Parse with the layout "2006-01-02T15:04". */
  datatype Services = Services(
    auth: Authorization,
    teachers: Teachers,
    students: Students,
    saveUpload: (Saver.Upload, string) -> Result<string>,
    readFile: string -> Result<string>,
    isEmail: string -> bool,
    parseDeadline: string -> Result<Time>)

  datatype Call =
    | CreateTeacher(teacher: Teacher)
    | CreateStudent(teacherId: int, name: string, classNumber: int)
    | GetTeacherByEmail(email: string)
    | SendConfirmationEmail(email: string, token: string)
    | SendResetEmail(email: string, token: string)
    | ConfirmEmail(token: string)
    | GenerateResetToken(id: int)
    | GenerateTeacherToken(email: string, password: string)
    | GenerateStudentToken(login: string, password: string)
    | ParseToken(token: string)
    | ParseResetToken(token: string)
    | ActivateUser(id: int)
    | UpdateStudentPassword(id: int, oldPassword: string, newPassword: string)
    | UpdateTeacherPassword(id: int, newPassword: string)
    | CreateAssignment(title: string, description: string, teacherId: int)
    | SaveAssignmentFile(assignmentId: int, path: string)
    | AttachStudent(teacherId: int, codeWord: string)
    | AttachAssignment(assignmentId: int, studentId: int, teacherId: int, deadline: Time, title: string, description: string)
    | GradeHomework(homeworkId: int, grade: int, feedback: string)
    | GetAssignments(teacherId: int)
    | GetAssignment(assignmentId: int, teacherId: int)
    | GetStudents(teacherId: int)
    | GetStudent(studentId: int)
    | GetAllTeacherHomeworks(teacherId: int)
    | GetAllHomeworksByStudentId(studentId: int, teacherId: int)
    | GetTeacherHomework(homeworkId: int)
    | UpdateAssignment(assignmentId: int, title: string, description: string)
    | UpdateTeacherHomework(homeworkId: int, title: string, description: string, deadline: Time)
    | DeleteAssignment(assignmentId: int)
    | DeleteAssignmentFiles(assignmentId: int)
    | DeleteStudent(teacherId: int, studentId: int)
    | DeleteTeacherHomework(homeworkId: int)
    | AttachHomework(assignmentId: int, studentId: int, text: string)
    | SaveSubmissionFile(submissionId: int, path: string)
    | GetAllStudentHomeworks(studentId: int, teacherId: int)
    | GetStudentHomework(submissionId: int)
    | GetTeachers(studentId: int)
    | UpdateStudentHomework(submissionId: int, text: string)
    | DeleteSubmissionFiles(submissionId: int)
    | DeleteStudentHomework(submissionId: int)
    | SaveUpload(filename: string, uploadDir: string)
    | ReadFile(path: string)

  /** What a handler leaves behind: the response context and the calls it made. */
  datatype Reply = Reply(ctx: Ctx, calls: seq<Call>)

  /** A handler that stopped at an error of its own, before calling anything. */
  function Refuse(code: int, message: string): (r: Reply)
    requires code != 0
    ensures r.calls == [] && Status(r.ctx) == code && r.ctx.bodies == [ErrorBody(message)] && r.ctx.aborted
  {
    Reply(ErrorResponse(Start, code, message), [])
  }

  /** A handler that answered 200 with one body. */
  function Answer(calls: seq<Call>, body: Json): (r: Reply)
    ensures r.calls == calls && Status(r.ctx) == 200 && r.ctx.bodies == [body] && !r.ctx.aborted
  {
    Reply(JSON(Start, 200, body), calls)
  }

  /** A handler that stopped at a service error after the given calls. */
  function Failed(calls: seq<Call>, code: int, message: string): (r: Reply)
    requires code != 0
    ensures r.calls == calls && Status(r.ctx) == code && r.ctx.bodies == [ErrorBody(message)] && r.ctx.aborted
  {
    Reply(ErrorResponse(Start, code, message), calls)
  }
}
