/** The handlers of the /teacher group. `teacherId` is c.GetInt("user_id"), the id the
    identity gate put into the context; `param` is the :id path parameter, `query` the ?id
    query parameter; a multipart form is the parts it holds or the error MultipartForm gives. */
module TeacherHandlers {
  import opened Wrappers
  import opened Models
  import opened Gin
  import opened Text
  import Saver
  import Api
  import Uploads
  import Response

  const ErrId: string := "incorrect id value"
  const ErrNoCondition: string := "no assignment condition"
  const ErrInvalidData: string := "invalid input data"
  const ErrAction: string := "invalid action"

  const AssignmentsDir: string := "uploads/assignments/"

  /** The bodies of c.Bind and c.BindJSON (None when the JSON does not parse). */
  datatype ActionInput = ActionInput(action: string, codeWord: string, name: string, classNumber: int)
  datatype HomeworkInput = HomeworkInput(assignmentId: int, studentId: int, title: string, description: string, deadline: string)
  datatype HomeworkUpdate = HomeworkUpdate(title: string, description: string, deadline: string)
  datatype GradeInput = GradeInput(grade: int, feedback: string)

  function IdBody(id: int): Json {
    JObject(map["id" := JInt(id)])
  }

  function StudentBody(s: Student): Json {
    JObject(map["name" := JStr(s.name), "code_word" := JStr(s.code), "class_number" := JInt(s.classNumber)])
  }

  /** The save loop of createAssignment (every part) and updateAssignment (empty parts skipped). */
  function AssignmentLoop(svc: Api.Services, id: int, skipEmpty: bool): Uploads.Loop {
    Uploads.Loop(svc.saveUpload, svc.teachers.saveFile, Uploads.OfAssignment, id, AssignmentsDir, skipEmpty)
  }

  // ---------------------------------------------------------------------------
  // Assignments

  /** createAssignment. After a failed CreateAssignment the handler writes the 500 and goes on:
      it reads the form, saves the parts under assignment id 0 (the value Go returns with the
      error) and writes a second body; the client still sees the 500. */
  method CreateAssignment(svc: Api.Services, teacherId: int, title: string, description: string,
                          form: Result<seq<Saver.Upload>>) returns (r: Api.Reply)
    ensures title == "" ==> r == Api.Refuse(400, ErrNoCondition)
    ensures title != "" ==>
      var created := svc.teachers.createAssignment(title, description, teacherId);
      && |r.calls| >= 1 && r.calls[0] == Api.CreateAssignment(title, description, teacherId)
      && (created.Err? ==> Status(r.ctx) == 500 && |r.ctx.bodies| == 2 && r.ctx.bodies[0] == ErrorBody(created.error))
      && (form.Ok? && (form.value != [] || description != "") ==>
            r.calls[1..] == Uploads.SaveAll(AssignmentLoop(svc, created.ValueOr(0), false), form.value).calls)
    ensures Status(r.ctx) == 200 <==>
      && title != "" && svc.teachers.createAssignment(title, description, teacherId).Ok?
      && form.Ok? && (form.value != [] || description != "")
      && Uploads.SaveAll(AssignmentLoop(svc, svc.teachers.createAssignment(title, description, teacherId).value, false), form.value).outcome.Pass?
    ensures Status(r.ctx) == 200 ==>
      r.ctx.bodies == [IdBody(svc.teachers.createAssignment(title, description, teacherId).value)]
    ensures title != "" && form.Ok? && form.value == [] && description == "" ==>
      r.calls == [Api.CreateAssignment(title, description, teacherId)] && |r.ctx.bodies| >= 1 &&
      r.ctx.bodies[|r.ctx.bodies| - 1] == ErrorBody(ErrNoCondition)
  {
    if |title| == 0 {
      return Api.Refuse(400, ErrNoCondition);
    }
    var calls := [Api.CreateAssignment(title, description, teacherId)];
    var created := svc.teachers.createAssignment(title, description, teacherId);
    var ctx := Start;
    if created.Err? {
      ctx := ErrorResponse(ctx, 500, created.error);
    }
    var assignmentId := created.ValueOr(0);
    if form.Err? {
      return Api.Reply(ErrorResponse(ctx, 400, form.error), calls);
    }
    var files := form.value;
    if |files| == 0 && |description| == 0 {
      return Api.Reply(ErrorResponse(ctx, 400, ErrNoCondition), calls);
    }
    var saveCalls, saved := Uploads.SaveUploads(AssignmentLoop(svc, assignmentId, false), files);
    calls := calls + saveCalls;
    if saved.Fail? {
      return Api.Reply(ErrorResponse(ctx, 500, saved.error), calls);
    }
    return Api.Reply(JSON(ctx, 200, IdBody(assignmentId)), calls);
  }

  /** getAssignments. */
  method GetAssignments(svc: Api.Services, teacherId: int) returns (r: Api.Reply)
    ensures r.calls == [Api.GetAssignments(teacherId)]
    ensures svc.teachers.getAssignments(teacherId).Err? ==>
      r == Api.Failed(r.calls, 500, svc.teachers.getAssignments(teacherId).error)
    ensures svc.teachers.getAssignments(teacherId).Ok? ==>
      r == Api.Answer(r.calls, Response.AssignmentsJson(Response.AssignmentViews(svc.teachers.getAssignments(teacherId).value)))
  {
    var calls := [Api.GetAssignments(teacherId)];
    var found := svc.teachers.getAssignments(teacherId);
    if found.Err? {
      return Api.Failed(calls, 500, found.error);
    }
    var views := Response.NewAssignmentsResponse(found.value);
    return Api.Answer(calls, Response.AssignmentsJson(views));
  }

  function AssignmentBody(a: Assignment, files: seq<Json>): Json {
    JObject(map["title" := JStr(a.title), "description" := JStr(a.description), "created_at" := JTime(a.createdAt),
                "files" := JList(files)])
  }

  /** getAssignment: the assignment with its files read back, each under its shown name. */
  method GetAssignment(svc: Api.Services, teacherId: int, param: string) returns (r: Api.Reply)
    ensures !Atoi(param).1 ==> r == Api.Refuse(400, ErrId)
    ensures Atoi(param).1 ==>
      var found := svc.teachers.getAssignment(Atoi(param).0, teacherId);
      && |r.calls| >= 1 && r.calls[0] == Api.GetAssignment(Atoi(param).0, teacherId)
      && (found.Err? ==> r == Api.Failed(r.calls, 500, found.error) && |r.calls| == 1)
      && (found.Ok? ==>
            var paths := found.value.1;
            var k := Uploads.FirstUnreadable(svc.readFile, paths);
            && r.calls[1..] == Uploads.ReadCalls(paths[..if k < |paths| then k + 1 else k])
            && (k < |paths| ==> r == Api.Failed(r.calls, 500, svc.readFile(paths[k]).error))
            && (k == |paths| ==>
                  r == Api.Answer(r.calls, AssignmentBody(found.value.0, Uploads.Entries(svc.readFile, paths)))))
  {
    var parsed := Atoi(param);
    if !parsed.1 {
      return Api.Refuse(400, ErrId);
    }
    var calls := [Api.GetAssignment(parsed.0, teacherId)];
    var found := svc.teachers.getAssignment(parsed.0, teacherId);
    if found.Err? {
      return Api.Failed(calls, 500, found.error);
    }
    var readCalls, data := Uploads.ReadFiles(svc.readFile, found.value.1);
    calls := calls + readCalls;
    if data.Err? {
      return Api.Failed(calls, 500, data.error);
    }
    return Api.Answer(calls, AssignmentBody(found.value.0, data.value));
  }

  /** updateAssignment. The old files go only when the form carries at least one part, even if
      every part turns out empty; empty parts are skipped; then title and description are
      updated. */
  method UpdateAssignment(svc: Api.Services, param: string, title: string, description: string,
                          form: Result<seq<Saver.Upload>>) returns (r: Api.Reply)
    ensures !Atoi(param).1 ==> r == Api.Refuse(400, ErrId)
    ensures Atoi(param).1 && form.Err? ==> r == Api.Refuse(400, form.error)
    ensures Api.DeleteAssignmentFiles(Atoi(param).0) in r.calls <==> Atoi(param).1 && form.Ok? && form.value != []
    ensures Status(r.ctx) == 200 <==>
      var id := Atoi(param).0;
      && Atoi(param).1 && form.Ok?
      && (form.value != [] ==> svc.teachers.deleteFiles(id).Pass?)
      && Uploads.SaveAll(AssignmentLoop(svc, id, true), form.value).outcome.Pass?
      && svc.teachers.updateAssignment(id, title, description).Pass?
    ensures Status(r.ctx) == 200 ==>
      var id := Atoi(param).0;
      && r.ctx.bodies == [IdBody(id)]
      && r.calls == (if form.value != [] then [Api.DeleteAssignmentFiles(id)] else [])
                    + Uploads.SaveAll(AssignmentLoop(svc, id, true), form.value).calls
                    + [Api.UpdateAssignment(id, title, description)]
  {
    var parsed := Atoi(param);
    if !parsed.1 {
      return Api.Refuse(400, ErrId);
    }
    var id := parsed.0;
    if form.Err? {
      return Api.Refuse(400, form.error);
    }
    var files := form.value;
    var calls := [];
    if |files| > 0 {
      calls := [Api.DeleteAssignmentFiles(id)];
      var deleted := svc.teachers.deleteFiles(id);
      if deleted.Fail? {
        return Api.Failed(calls, 500, deleted.error);
      }
    }
    var saveCalls, saved := Uploads.SaveUploads(AssignmentLoop(svc, id, true), files);
    Uploads.SaveAllRowsOfOwner(AssignmentLoop(svc, id, true), files);
    assert Api.DeleteAssignmentFiles(id) !in saveCalls;
    calls := calls + saveCalls;
    if saved.Fail? {
      return Api.Failed(calls, 500, saved.error);
    }
    calls := calls + [Api.UpdateAssignment(id, title, description)];
    var updated := svc.teachers.updateAssignment(id, title, description);
    if updated.Fail? {
      return Api.Failed(calls, 500, updated.error);
    }
    return Api.Answer(calls, IdBody(id));
  }

  /** c.Bind into inputHomework: assignment_id, student_id and title are required, so none may
      be zero or empty. */
  predicate HomeworkBinds(body: Option<HomeworkInput>) {
    body.Some? && body.value.assignmentId != 0 && body.value.studentId != 0 && body.value.title != ""
  }

  /** attachAssignment: the deadline must parse before the service is asked. */
  function AttachAssignment(svc: Api.Services, teacherId: int, body: Option<HomeworkInput>): (r: Api.Reply)
    ensures !HomeworkBinds(body) ==> r == Api.Refuse(400, ErrInvalidData)
    ensures HomeworkBinds(body) && svc.parseDeadline(body.value.deadline).Err? ==>
      r == Api.Refuse(400, svc.parseDeadline(body.value.deadline).error)
    ensures r.calls != [] <==> HomeworkBinds(body) && svc.parseDeadline(body.value.deadline).Ok?
    ensures r.calls != [] ==>
      var h := body.value;
      r.calls == [Api.AttachAssignment(h.assignmentId, h.studentId, teacherId, svc.parseDeadline(h.deadline).value, h.title, h.description)]
    ensures Status(r.ctx) == 200 ==>
      var h := body.value;
      var attached := svc.teachers.attachAssignment(h.assignmentId, h.studentId, teacherId, svc.parseDeadline(h.deadline).value, h.title, h.description);
      r.calls != [] && attached.Ok? && r.ctx.bodies == [IdBody(attached.value)]
    ensures r.calls != [] ==>
      var h := body.value;
      var attached := svc.teachers.attachAssignment(h.assignmentId, h.studentId, teacherId, svc.parseDeadline(h.deadline).value, h.title, h.description);
      && (attached.Err? ==> r == Api.Failed(r.calls, 500, attached.error))
      && (attached.Ok? ==> r == Api.Answer(r.calls, IdBody(attached.value)))
  {
    if !HomeworkBinds(body) then Api.Refuse(400, ErrInvalidData)
    else
      var h := body.value;
      var deadline := svc.parseDeadline(h.deadline);
      if deadline.Err? then Api.Refuse(400, deadline.error)
      else
        var calls := [Api.AttachAssignment(h.assignmentId, h.studentId, teacherId, deadline.value, h.title, h.description)];
        var attached := svc.teachers.attachAssignment(h.assignmentId, h.studentId, teacherId, deadline.value, h.title, h.description);
        if attached.Err? then Api.Failed(calls, 500, attached.error)
        else Api.Answer(calls, IdBody(attached.value))
  }

  /** deleteAssignment: answers whether the assignment went. */
  function DeleteAssignment(svc: Api.Services, param: string): (r: Api.Reply)
    ensures !Atoi(param).1 ==> r == Api.Refuse(400, ErrId)
    ensures Atoi(param).1 ==> r.calls == [Api.DeleteAssignment(Atoi(param).0)]
    ensures Atoi(param).1 && svc.teachers.deleteAssignment(Atoi(param).0).Ok? ==>
      r.ctx.bodies == [JObject(map["deleted" := JBool(svc.teachers.deleteAssignment(Atoi(param).0).value)])] && Status(r.ctx) == 200
    ensures Atoi(param).1 && svc.teachers.deleteAssignment(Atoi(param).0).Err? ==>
      r == Api.Failed(r.calls, 500, svc.teachers.deleteAssignment(Atoi(param).0).error)
  {
    var parsed := Atoi(param);
    if !parsed.1 then Api.Refuse(400, ErrId)
    else
      var calls := [Api.DeleteAssignment(parsed.0)];
      var deleted := svc.teachers.deleteAssignment(parsed.0);
      if deleted.Err? then Api.Failed(calls, 500, deleted.error)
      else Api.Answer(calls, JObject(map["deleted" := JBool(deleted.value)]))
  }

  // ---------------------------------------------------------------------------
  // Students

  /** attachStudent: "create" makes a new student (the answer carries the login and the
      plaintext password), "attach" links an existing one by code word (404 when that fails),
      any other action is refused. `action` is required; `bindError` is the binder's text. */
  function AttachStudent(svc: Api.Services, teacherId: int, body: Option<ActionInput>, bindError: string): (r: Api.Reply)
    ensures body.None? || body.value.action == "" ==> r == Api.Refuse(400, bindError)
    ensures body.Some? && body.value.action != "" && body.value.action != "create" && body.value.action != "attach" ==>
      r == Api.Refuse(400, ErrAction)
    ensures body.Some? && body.value.action == "create" ==>
      var made := svc.auth.createStudent(teacherId, body.value.name, body.value.classNumber);
      && r.calls == [Api.CreateStudent(teacherId, body.value.name, body.value.classNumber)]
      && (made.Err? ==> r == Api.Failed(r.calls, 500, made.error))
      && (made.Ok? ==> r == Api.Answer(r.calls, JObject(map["login" := JStr(made.value.code), "password" := JStr(made.value.password)])))
    ensures body.Some? && body.value.action == "attach" ==>
      var linked := svc.teachers.attachStudent(teacherId, body.value.codeWord);
      && r.calls == [Api.AttachStudent(teacherId, body.value.codeWord)]
      && (linked.Err? ==> r == Api.Failed(r.calls, 404, linked.error))
      && (linked.Ok? ==> r == Api.Answer(r.calls, StudentBody(linked.value)))
  {
    if body.None? || body.value.action == "" then Api.Refuse(400, bindError)
    else
      var input := body.value;
      if input.action == "create" then
        var calls := [Api.CreateStudent(teacherId, input.name, input.classNumber)];
        var made := svc.auth.createStudent(teacherId, input.name, input.classNumber);
        if made.Err? then Api.Failed(calls, 500, made.error)
        else Api.Answer(calls, JObject(map["login" := JStr(made.value.code), "password" := JStr(made.value.password)]))
      else if input.action == "attach" then
        var calls := [Api.AttachStudent(teacherId, input.codeWord)];
        var linked := svc.teachers.attachStudent(teacherId, input.codeWord);
        if linked.Err? then Api.Failed(calls, 404, linked.error)
        else Api.Answer(calls, StudentBody(linked.value))
      else Api.Refuse(400, ErrAction)
  }

  /** getStudents. */
  method GetStudents(svc: Api.Services, teacherId: int) returns (r: Api.Reply)
    ensures r.calls == [Api.GetStudents(teacherId)]
    ensures svc.teachers.getStudents(teacherId).Err? ==>
      r == Api.Failed(r.calls, 500, svc.teachers.getStudents(teacherId).error)
    ensures svc.teachers.getStudents(teacherId).Ok? ==>
      r == Api.Answer(r.calls, Response.StudentsJson(Response.StudentViews(svc.teachers.getStudents(teacherId).value)))
  {
    var calls := [Api.GetStudents(teacherId)];
    var found := svc.teachers.getStudents(teacherId);
    if found.Err? {
      return Api.Failed(calls, 500, found.error);
    }
    var views := Response.NewStudentsResponse(found.value);
    return Api.Answer(calls, Response.StudentsJson(views));
  }

  /** getStudent: a single student, without the password. */
  function GetStudent(svc: Api.Services, param: string): (r: Api.Reply)
    ensures !Atoi(param).1 ==> r == Api.Refuse(400, ErrId)
    ensures Atoi(param).1 ==> r.calls == [Api.GetStudent(Atoi(param).0)]
    ensures Atoi(param).1 && svc.teachers.getStudent(Atoi(param).0).Err? ==>
      r == Api.Failed(r.calls, 500, svc.teachers.getStudent(Atoi(param).0).error)
    ensures Atoi(param).1 && svc.teachers.getStudent(Atoi(param).0).Ok? ==>
      r == Api.Answer(r.calls, StudentBody(svc.teachers.getStudent(Atoi(param).0).value))
  {
    var parsed := Atoi(param);
    if !parsed.1 then Api.Refuse(400, ErrId)
    else
      var calls := [Api.GetStudent(parsed.0)];
      var found := svc.teachers.getStudent(parsed.0);
      if found.Err? then Api.Failed(calls, 500, found.error)
      else Api.Answer(calls, StudentBody(found.value))
  }

  /** deleteStudent: a failure to unlink is the client's fault (400). */
  function DeleteStudent(svc: Api.Services, teacherId: int, param: string): (r: Api.Reply)
    ensures !Atoi(param).1 ==> r == Api.Refuse(400, ErrId)
    ensures Atoi(param).1 ==> r.calls == [Api.DeleteStudent(teacherId, Atoi(param).0)]
    ensures Atoi(param).1 && svc.teachers.deleteStudent(teacherId, Atoi(param).0).Fail? ==>
      r == Api.Failed(r.calls, 400, svc.teachers.deleteStudent(teacherId, Atoi(param).0).error)
    ensures Status(r.ctx) == 200 <==> Atoi(param).1 && svc.teachers.deleteStudent(teacherId, Atoi(param).0).Pass?
  {
    var parsed := Atoi(param);
    if !parsed.1 then Api.Refuse(400, ErrId)
    else
      var calls := [Api.DeleteStudent(teacherId, parsed.0)];
      var removed := svc.teachers.deleteStudent(teacherId, parsed.0);
      if removed.Fail? then Api.Failed(calls, 400, removed.error)
      else Api.Answer(calls, JObject(map["deleted" := JBool(true)]))
  }

  // ---------------------------------------------------------------------------
  // Homeworks

  /** The listing getAllTeacherHomework asks for. The test `err == nil || studentId != 0` sends
      an overflowing id (which Atoi clamps and reports as an error) to the per-student listing
      as well. */
  function HomeworkListing(teacherId: int, query: string): (c: Api.Call)
    ensures c.GetAllHomeworksByStudentId? || c == Api.GetAllTeacherHomeworks(teacherId)
    ensures query == "" ==> c == Api.GetAllTeacherHomeworks(teacherId)
    ensures c.GetAllHomeworksByStudentId? ==> c.teacherId == teacherId && c.studentId == Atoi(query).0
    ensures Atoi(query).1 ==> c.GetAllHomeworksByStudentId?
  {
    var parsed := Atoi(query);
    if parsed.1 || parsed.0 != 0 then Api.GetAllHomeworksByStudentId(parsed.0, teacherId)
    else Api.GetAllTeacherHomeworks(teacherId)
  }

  /** Any printed int64, "0" included, selects that student. */
  lemma NumberQuerySelectsStudent(teacherId: int, studentId: int)
    requires MinInt64 <= studentId <= MaxInt64
    ensures HomeworkListing(teacherId, IntToString(studentId)) == Api.GetAllHomeworksByStudentId(studentId, teacherId)
  {
    AtoiIntToString(studentId);
  }

  /** Text that is not a number lists everything. */
  lemma TextQueryListsAll(teacherId: int, query: string)
    requires query != "" && !IsDigit(query[0]) && query[0] != '+' && query[0] != '-'
    ensures HomeworkListing(teacherId, query) == Api.GetAllTeacherHomeworks(teacherId)
  {
    AtoiAccepts(query);
  }

  /** A number past int64 is clamped to the largest int64 and still selects a student by it. */
  lemma OverflowQuerySelectsClamped(teacherId: int, n: nat)
    requires n > MaxInt64
    ensures HomeworkListing(teacherId, NatToString(n)) == Api.GetAllHomeworksByStudentId(MaxInt64, teacherId)
  {
    var s := NatToString(n);
    NatToStringValue(n);
    assert IsDigit(s[0]);
    ScanUintDigits(s, 0);
  }

  /** getAllTeacherHomework. */
  method GetAllTeacherHomework(svc: Api.Services, teacherId: int, query: string) returns (r: Api.Reply)
    ensures r.calls == [HomeworkListing(teacherId, query)]
    ensures
      var listed := if r.calls[0].GetAllHomeworksByStudentId? then svc.teachers.getAllHomeworksByStudentId(Atoi(query).0, teacherId)
                    else svc.teachers.getAllHomeworks(teacherId);
      && (listed.Err? ==> r == Api.Failed(r.calls, 500, listed.error))
      && (listed.Ok? ==> r == Api.Answer(r.calls, Response.HomeworksTeacherJson(Response.HomeworkTeacherViews(listed.value))))
  {
    var parsed := Atoi(query);
    if parsed.1 || parsed.0 != 0 {
      var calls := [Api.GetAllHomeworksByStudentId(parsed.0, teacherId)];
      var listed := svc.teachers.getAllHomeworksByStudentId(parsed.0, teacherId);
      if listed.Err? {
        return Api.Failed(calls, 500, listed.error);
      }
      var views := Response.NewHomeworksTeacherResponse(listed.value);
      return Api.Answer(calls, Response.HomeworksTeacherJson(views));
    }
    var calls := [Api.GetAllTeacherHomeworks(teacherId)];
    var listed := svc.teachers.getAllHomeworks(teacherId);
    if listed.Err? {
      return Api.Failed(calls, 500, listed.error);
    }
    var views := Response.NewHomeworksTeacherResponse(listed.value);
    return Api.Answer(calls, Response.HomeworksTeacherJson(views));
  }

  function HomeworkBody(d: Api.HomeworkDetails<HomeworkTeacher>, hwFiles: seq<Json>, subFiles: seq<Json>): Json {
    var h := d.homework;
    JObject(map[
      "name" := JStr(h.name), "code" := JStr(h.code), "class_number" := JInt(h.classNumber),
      "title" := JStr(h.title), "description" := JStr(h.description), "deadline" := JTime(h.deadline),
      "status" := JStr(h.status), "hw_files" := JList(hwFiles),
      "text" := JStr(d.submission.text), "submited_at" := JTime(d.submission.submittedAt),
      "graded" := JBool(d.submission.graded), "grade" := JInt(d.grade.grade), "feedback" := JStr(d.grade.feedback),
      "sub_files" := JList(subFiles)])
  }

  /** getTeacherHomework: the homework, the assignment's files, then the submission's files. */
  method GetTeacherHomework(svc: Api.Services, param: string) returns (r: Api.Reply)
    ensures !Atoi(param).1 ==> r == Api.Refuse(400, ErrId)
    ensures Atoi(param).1 ==> |r.calls| >= 1 && r.calls[0] == Api.GetTeacherHomework(Atoi(param).0)
    ensures Atoi(param).1 && svc.teachers.getHomework(Atoi(param).0).Err? ==>
      r == Api.Failed(r.calls, 500, svc.teachers.getHomework(Atoi(param).0).error)
    ensures Status(r.ctx) == 200 <==>
      && Atoi(param).1 && svc.teachers.getHomework(Atoi(param).0).Ok?
      && Uploads.FirstUnreadable(svc.readFile, svc.teachers.getHomework(Atoi(param).0).value.hwFiles)
           == |svc.teachers.getHomework(Atoi(param).0).value.hwFiles|
      && Uploads.FirstUnreadable(svc.readFile, svc.teachers.getHomework(Atoi(param).0).value.subFiles)
           == |svc.teachers.getHomework(Atoi(param).0).value.subFiles|
    ensures Status(r.ctx) == 200 ==>
      var d := svc.teachers.getHomework(Atoi(param).0).value;
      && r.calls == [Api.GetTeacherHomework(Atoi(param).0)] + Uploads.ReadCalls(d.hwFiles) + Uploads.ReadCalls(d.subFiles)
      && r.ctx.bodies == [HomeworkBody(d, Uploads.Entries(svc.readFile, d.hwFiles), Uploads.Entries(svc.readFile, d.subFiles))]
  {
    var parsed := Atoi(param);
    if !parsed.1 {
      return Api.Refuse(400, ErrId);
    }
    var calls := [Api.GetTeacherHomework(parsed.0)];
    var found := svc.teachers.getHomework(parsed.0);
    if found.Err? {
      return Api.Failed(calls, 500, found.error);
    }
    var d := found.value;
    var hwCalls, hwData := Uploads.ReadFiles(svc.readFile, d.hwFiles);
    calls := calls + hwCalls;
    if hwData.Err? {
      return Api.Failed(calls, 500, hwData.error);
    }
    var subCalls, subData := Uploads.ReadFiles(svc.readFile, d.subFiles);
    calls := calls + subCalls;
    if subData.Err? {
      return Api.Failed(calls, 500, subData.error);
    }
    assert d.hwFiles[..|d.hwFiles|] == d.hwFiles && d.subFiles[..|d.subFiles|] == d.subFiles;
    return Api.Answer(calls, HomeworkBody(d, hwData.value, subData.value));
  }

  /** gradeHomework: the grade is required, so a zero grade is refused by the binder. */
  function GradeHomework(svc: Api.Services, param: string, body: Option<GradeInput>, bindError: string): (r: Api.Reply)
    ensures !Atoi(param).1 ==> r == Api.Refuse(400, ErrId)
    ensures Atoi(param).1 && (body.None? || body.value.grade == 0) ==> r == Api.Refuse(400, bindError)
    ensures r.calls != [] <==> Atoi(param).1 && body.Some? && body.value.grade != 0
    ensures r.calls != [] ==>
      var graded := svc.teachers.gradeHomework(Atoi(param).0, body.value.grade, body.value.feedback);
      && r.calls == [Api.GradeHomework(Atoi(param).0, body.value.grade, body.value.feedback)]
      && (graded.Err? ==> r == Api.Failed(r.calls, 500, graded.error))
      && (graded.Ok? ==> r == Api.Answer(r.calls, IdBody(graded.value)))
  {
    var parsed := Atoi(param);
    if !parsed.1 then Api.Refuse(400, ErrId)
    else if body.None? || body.value.grade == 0 then Api.Refuse(400, bindError)
    else
      var calls := [Api.GradeHomework(parsed.0, body.value.grade, body.value.feedback)];
      var graded := svc.teachers.gradeHomework(parsed.0, body.value.grade, body.value.feedback);
      if graded.Err? then Api.Failed(calls, 500, graded.error)
      else Api.Answer(calls, IdBody(graded.value))
  }

  /** updateTeacherHomework: the deadline must parse before the service is asked; the answer
      says whether the homework was still open to change. */
  function UpdateTeacherHomework(svc: Api.Services, param: string, body: Option<HomeworkUpdate>, bindError: string): (r: Api.Reply)
    ensures !Atoi(param).1 ==> r == Api.Refuse(400, ErrId)
    ensures Atoi(param).1 && body.None? ==> r == Api.Refuse(400, bindError)
    ensures Atoi(param).1 && body.Some? && svc.parseDeadline(body.value.deadline).Err? ==>
      r == Api.Refuse(400, svc.parseDeadline(body.value.deadline).error)
    ensures r.calls != [] <==> Atoi(param).1 && body.Some? && svc.parseDeadline(body.value.deadline).Ok?
    ensures r.calls != [] ==>
      var u := body.value;
      var id := Atoi(param).0;
      var updated := svc.teachers.updateHomework(id, u.title, u.description, svc.parseDeadline(u.deadline).value);
      && r.calls == [Api.UpdateTeacherHomework(id, u.title, u.description, svc.parseDeadline(u.deadline).value)]
      && (updated.Err? ==> r == Api.Failed(r.calls, 500, updated.error))
      && (updated.Ok? ==> r == Api.Answer(r.calls, JObject(map["id" := JInt(id), "updated" := JBool(updated.value)])))
  {
    var parsed := Atoi(param);
    if !parsed.1 then Api.Refuse(400, ErrId)
    else if body.None? then Api.Refuse(400, bindError)
    else
      var u := body.value;
      var deadline := svc.parseDeadline(u.deadline);
      if deadline.Err? then Api.Refuse(400, deadline.error)
      else
        var calls := [Api.UpdateTeacherHomework(parsed.0, u.title, u.description, deadline.value)];
        var updated := svc.teachers.updateHomework(parsed.0, u.title, u.description, deadline.value);
        if updated.Err? then Api.Failed(calls, 500, updated.error)
        else Api.Answer(calls, JObject(map["id" := JInt(parsed.0), "updated" := JBool(updated.value)]))
  }

  /** deleteTeacherHomework: answers whether the homework went. */
  function DeleteTeacherHomework(svc: Api.Services, param: string): (r: Api.Reply)
    ensures !Atoi(param).1 ==> r == Api.Refuse(400, ErrId)
    ensures Atoi(param).1 ==> r.calls == [Api.DeleteTeacherHomework(Atoi(param).0)]
    ensures Atoi(param).1 && svc.teachers.deleteHomework(Atoi(param).0).Err? ==>
      r == Api.Failed(r.calls, 500, svc.teachers.deleteHomework(Atoi(param).0).error)
    ensures Atoi(param).1 && svc.teachers.deleteHomework(Atoi(param).0).Ok? ==>
      r == Api.Answer(r.calls, JObject(map["deleted" := JBool(svc.teachers.deleteHomework(Atoi(param).0).value)]))
  {
    var parsed := Atoi(param);
    if !parsed.1 then Api.Refuse(400, ErrId)
    else
      var calls := [Api.DeleteTeacherHomework(parsed.0)];
      var deleted := svc.teachers.deleteHomework(parsed.0);
      if deleted.Err? then Api.Failed(calls, 500, deleted.error)
      else Api.Answer(calls, JObject(map["deleted" := JBool(deleted.value)]))
  }
}
