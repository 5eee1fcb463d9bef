/** The list mappers of the handlers: each allocates a slice of response records and fills it
    index by index, copying only the fields the response shows. */
module Response {
  import opened Models
  import opened Gin

  datatype StudentView = StudentView(id: int, name: string, code: string, classNumber: int)
  datatype AssignmentView = AssignmentView(id: int, title: string, description: string, createdAt: Time)
  datatype HomeworkTeacherView = HomeworkTeacherView(
    id: int, name: string, code: string, classNumber: int,
    title: string, description: string, deadline: Time, status: string)
  datatype HomeworkStudentView = HomeworkStudentView(
    id: int, name: string, title: string, description: string, deadline: Time, status: string)
  datatype TeacherView = TeacherView(id: int, name: string)

  // The record each mapper writes at one index.

  function StudentOf(s: Student): StudentView {
    StudentView(s.id, s.name, s.code, s.classNumber)
  }

  function AssignmentOf(a: Assignment): AssignmentView {
    AssignmentView(a.id, a.title, a.description, a.createdAt)
  }

  function HomeworkTeacherOf(h: HomeworkTeacher): HomeworkTeacherView {
    HomeworkTeacherView(h.id, h.name, h.code, h.classNumber, h.title, h.description, h.deadline, h.status)
  }

  function HomeworkStudentOf(h: HomeworkStudent): HomeworkStudentView {
    HomeworkStudentView(h.id, h.name, h.title, h.description, h.deadline, h.status)
  }

  function TeacherOf(t: Teacher): TeacherView {
    TeacherView(t.id, t.name)
  }

  // The lists the mappers build.

  function StudentViews(s: seq<Student>): seq<StudentView> {
    seq(|s|, i requires 0 <= i < |s| => StudentOf(s[i]))
  }

  function AssignmentViews(s: seq<Assignment>): seq<AssignmentView> {
    seq(|s|, i requires 0 <= i < |s| => AssignmentOf(s[i]))
  }

  function HomeworkTeacherViews(s: seq<HomeworkTeacher>): seq<HomeworkTeacherView> {
    seq(|s|, i requires 0 <= i < |s| => HomeworkTeacherOf(s[i]))
  }

  function HomeworkStudentViews(s: seq<HomeworkStudent>): seq<HomeworkStudentView> {
    seq(|s|, i requires 0 <= i < |s| => HomeworkStudentOf(s[i]))
  }

  function TeacherViews(s: seq<Teacher>): seq<TeacherView> {
    seq(|s|, i requires 0 <= i < |s| => TeacherOf(s[i]))
  }

  /** newStudentsResponse. */
  method NewStudentsResponse(students: seq<Student>) returns (views: seq<StudentView>)
    ensures |views| == |students|
    ensures forall i | 0 <= i < |students| ::
      views[i] == StudentView(students[i].id, students[i].name, students[i].code, students[i].classNumber)
    ensures views == StudentViews(students)
  {
    var a := new StudentView[|students|](_ => StudentView(0, "", "", 0));
    for i := 0 to |students|
      invariant forall k | 0 <= k < i :: a[k] == StudentOf(students[k])
    {
      a[i] := StudentOf(students[i]);
    }
    views := a[..];
  }

  /** newAssignmentsResponse. */
  method NewAssignmentsResponse(assignments: seq<Assignment>) returns (views: seq<AssignmentView>)
    ensures |views| == |assignments|
    ensures forall i | 0 <= i < |assignments| ::
      views[i] == AssignmentView(assignments[i].id, assignments[i].title, assignments[i].description, assignments[i].createdAt)
    ensures views == AssignmentViews(assignments)
  {
    var a := new AssignmentView[|assignments|](_ => AssignmentView(0, "", "", ZeroTime));
    for i := 0 to |assignments|
      invariant forall k | 0 <= k < i :: a[k] == AssignmentOf(assignments[k])
    {
      a[i] := AssignmentOf(assignments[i]);
    }
    views := a[..];
  }

  /** newHomeworksTeacherResponse: eight fields; the assignment id and the time of assigning
      are dropped. */
  method NewHomeworksTeacherResponse(homeworks: seq<HomeworkTeacher>) returns (views: seq<HomeworkTeacherView>)
    ensures |views| == |homeworks|
    ensures forall i | 0 <= i < |homeworks| ::
      var h := homeworks[i];
      views[i] == HomeworkTeacherView(h.id, h.name, h.code, h.classNumber, h.title, h.description, h.deadline, h.status)
    ensures views == HomeworkTeacherViews(homeworks)
  {
    var a := new HomeworkTeacherView[|homeworks|](_ => HomeworkTeacherView(0, "", "", 0, "", "", ZeroTime, ""));
    for i := 0 to |homeworks|
      invariant forall k | 0 <= k < i :: a[k] == HomeworkTeacherOf(homeworks[k])
    {
      a[i] := HomeworkTeacherOf(homeworks[i]);
    }
    views := a[..];
  }

  /** newHomeworksStudentResponse. */
  method NewHomeworksStudentResponse(homeworks: seq<HomeworkStudent>) returns (views: seq<HomeworkStudentView>)
    ensures |views| == |homeworks|
    ensures forall i | 0 <= i < |homeworks| ::
      var h := homeworks[i];
      views[i] == HomeworkStudentView(h.id, h.name, h.title, h.description, h.deadline, h.status)
    ensures views == HomeworkStudentViews(homeworks)
  {
    var a := new HomeworkStudentView[|homeworks|](_ => HomeworkStudentView(0, "", "", "", ZeroTime, ""));
    for i := 0 to |homeworks|
      invariant forall k | 0 <= k < i :: a[k] == HomeworkStudentOf(homeworks[k])
    {
      a[i] := HomeworkStudentOf(homeworks[i]);
    }
    views := a[..];
  }

  /** newTeachersStudentResponse: only the id and the name of each teacher. */
  method NewTeachersStudentResponse(teachers: seq<Teacher>) returns (views: seq<TeacherView>)
    ensures |views| == |teachers|
    ensures forall i | 0 <= i < |teachers| :: views[i] == TeacherView(teachers[i].id, teachers[i].name)
    ensures views == TeacherViews(teachers)
  {
    var a := new TeacherView[|teachers|](_ => TeacherView(0, ""));
    for i := 0 to |teachers|
      invariant forall k | 0 <= k < i :: a[k] == TeacherOf(teachers[k])
    {
      a[i] := TeacherOf(teachers[i]);
    }
    views := a[..];
  }

  /** Passwords and emails never reach a response: two lists that differ only in them map to
      the same records. */
  lemma SecretsNotShown(a: Student, b: Student, t: Teacher, u: Teacher)
    requires a.(password := b.password) == b
    requires t.(password := u.password, email := u.email, isActive := u.isActive) == u
    ensures StudentOf(a) == StudentOf(b) && TeacherOf(t) == TeacherOf(u)
  {
  }

  // The records as JSON, under their json tags.

  function StudentJson(v: StudentView): Json {
    JObject(map["id" := JInt(v.id), "name" := JStr(v.name), "code_word" := JStr(v.code), "class_number" := JInt(v.classNumber)])
  }

  function AssignmentJson(v: AssignmentView): Json {
    JObject(map["id" := JInt(v.id), "title" := JStr(v.title), "description" := JStr(v.description), "created_at" := JTime(v.createdAt)])
  }

  function HomeworkTeacherJson(v: HomeworkTeacherView): Json {
    JObject(map["id" := JInt(v.id), "name" := JStr(v.name), "code" := JStr(v.code), "class_number" := JInt(v.classNumber),
                "title" := JStr(v.title), "description" := JStr(v.description), "deadline" := JTime(v.deadline),
                "status" := JStr(v.status)])
  }

  function HomeworkStudentJson(v: HomeworkStudentView): Json {
    JObject(map["id" := JInt(v.id), "name" := JStr(v.name), "title" := JStr(v.title), "description" := JStr(v.description),
                "deadline" := JTime(v.deadline), "status" := JStr(v.status)])
  }

  function TeacherJson(v: TeacherView): Json {
    JObject(map["id" := JInt(v.id), "name" := JStr(v.name)])
  }

  function StudentsJson(vs: seq<StudentView>): (j: Json)
    ensures j.JList? && |j.items| == |vs|
  {
    JList(seq(|vs|, i requires 0 <= i < |vs| => StudentJson(vs[i])))
  }

  function AssignmentsJson(vs: seq<AssignmentView>): (j: Json)
    ensures j.JList? && |j.items| == |vs|
  {
    JList(seq(|vs|, i requires 0 <= i < |vs| => AssignmentJson(vs[i])))
  }

  function HomeworksTeacherJson(vs: seq<HomeworkTeacherView>): (j: Json)
    ensures j.JList? && |j.items| == |vs|
  {
    JList(seq(|vs|, i requires 0 <= i < |vs| => HomeworkTeacherJson(vs[i])))
  }

  function HomeworksStudentJson(vs: seq<HomeworkStudentView>): (j: Json)
    ensures j.JList? && |j.items| == |vs|
  {
    JList(seq(|vs|, i requires 0 <= i < |vs| => HomeworkStudentJson(vs[i])))
  }

  function TeachersJson(vs: seq<TeacherView>): (j: Json)
    ensures j.JList? && |j.items| == |vs|
  {
    JList(seq(|vs|, i requires 0 <= i < |vs| => TeacherJson(vs[i])))
  }
}
