/** The handlers of the /student group. `studentId` is c.GetInt("user_id"); `param` is the :id
    path parameter; a multipart form is the parts it holds or the error MultipartForm gives. */
module StudentHandlers {
  import opened Wrappers
  import opened Models
  import opened Gin
  import opened Text
  import opened Validate
  import Saver
  import Api
  import Uploads
  import Response
  import AuthPostgres

  const ErrId: string := "incorrect id value"
  const ErrNoSubmission: string := "no submission condition"
  const ErrTeacherId: string := "invalid teacher id"
  const ErrRequest: string := "invalid request"
  const ErrValidation: string := "validation failed"

  const SubmissionsDir: string := "uploads/submissions/"

  /** The save loop of both submission handlers: empty parts are skipped. */
  function SubmissionLoop(svc: Api.Services, id: int): Uploads.Loop {
    Uploads.Loop(svc.saveUpload, svc.students.saveFile, Uploads.OfSubmission, id, SubmissionsDir, true)
  }

  /** attachHomework. After a failed AttachHomework the handler writes the 500 and goes on with
      submission id 0 (the value Go returns with the error); a form without files is refused
      only after the submission was made. */
  method AttachHomework(svc: Api.Services, studentId: int, param: string, text: string,
                        form: Result<seq<Saver.Upload>>) returns (r: Api.Reply)
    ensures !Atoi(param).1 ==> r == Api.Refuse(400, ErrId)
    ensures Atoi(param).1 ==>
      var attached := svc.students.attachHomework(Atoi(param).0, studentId, text);
      && |r.calls| >= 1 && r.calls[0] == Api.AttachHomework(Atoi(param).0, studentId, text)
      && (attached.Err? ==> Status(r.ctx) == 500 && |r.ctx.bodies| == 2 && r.ctx.bodies[0] == ErrorBody(attached.error))
      && (form.Ok? && form.value == [] ==>
            r.calls == [Api.AttachHomework(Atoi(param).0, studentId, text)] && Status(r.ctx) != 200 &&
            |r.ctx.bodies| >= 1 && r.ctx.bodies[|r.ctx.bodies| - 1] == ErrorBody(ErrNoSubmission))
      && (form.Ok? && form.value != [] ==>
            r.calls[1..] == Uploads.SaveAll(SubmissionLoop(svc, attached.ValueOr(0)), form.value).calls)
    ensures Status(r.ctx) == 200 <==>
      && Atoi(param).1 && svc.students.attachHomework(Atoi(param).0, studentId, text).Ok?
      && form.Ok? && form.value != []
      && Uploads.SaveAll(SubmissionLoop(svc, svc.students.attachHomework(Atoi(param).0, studentId, text).value), form.value).outcome.Pass?
    ensures Status(r.ctx) == 200 ==>
      r.ctx.bodies == [JObject(map["id" := JInt(svc.students.attachHomework(Atoi(param).0, studentId, text).value)])]
  {
    var parsed := Atoi(param);
    if !parsed.1 {
      return Api.Refuse(400, ErrId);
    }
    var calls := [Api.AttachHomework(parsed.0, studentId, text)];
    var attached := svc.students.attachHomework(parsed.0, studentId, text);
    var ctx := Start;
    if attached.Err? {
      ctx := ErrorResponse(ctx, 500, attached.error);
    }
    var submissionId := attached.ValueOr(0);
    if form.Err? {
      return Api.Reply(ErrorResponse(ctx, 400, form.error), calls);
    }
    var files := form.value;
    if |files| == 0 {
      return Api.Reply(ErrorResponse(ctx, 400, ErrNoSubmission), calls);
    }
    var saveCalls, saved := Uploads.SaveUploads(SubmissionLoop(svc, submissionId), files);
    calls := calls + saveCalls;
    if saved.Fail? {
      return Api.Reply(ErrorResponse(ctx, 500, saved.error), calls);
    }
    return Api.Reply(JSON(ctx, 200, JObject(map["id" := JInt(submissionId)])), calls);
  }

  /** updateStudentHomework: the text is updated first; then the form must carry files, the old
      ones are removed and the new non-empty ones saved. The answer says whether the text
      changed (it does not once the submission is graded). */
  method UpdateStudentHomework(svc: Api.Services, param: string, text: string,
                               form: Result<seq<Saver.Upload>>) returns (r: Api.Reply)
    ensures !Atoi(param).1 ==> r == Api.Refuse(400, ErrId)
    ensures Atoi(param).1 ==> |r.calls| >= 1 && r.calls[0] == Api.UpdateStudentHomework(Atoi(param).0, text)
    ensures Atoi(param).1 && svc.students.updateHomework(Atoi(param).0, text).Err? ==>
      r == Api.Failed([Api.UpdateStudentHomework(Atoi(param).0, text)], 500, svc.students.updateHomework(Atoi(param).0, text).error)
    ensures Atoi(param).1 && svc.students.updateHomework(Atoi(param).0, text).Ok? && form.Ok? && form.value == [] ==>
      r == Api.Failed([Api.UpdateStudentHomework(Atoi(param).0, text)], 400, ErrNoSubmission)
    ensures Api.DeleteSubmissionFiles(Atoi(param).0) in r.calls <==>
      Atoi(param).1 && svc.students.updateHomework(Atoi(param).0, text).Ok? && form.Ok? && form.value != []
    ensures Status(r.ctx) == 200 <==>
      var id := Atoi(param).0;
      && Atoi(param).1 && svc.students.updateHomework(id, text).Ok? && form.Ok? && form.value != []
      && svc.students.deleteFiles(id).Pass?
      && Uploads.SaveAll(SubmissionLoop(svc, id), form.value).outcome.Pass?
    ensures Status(r.ctx) == 200 ==>
      var id := Atoi(param).0;
      && r.calls == [Api.UpdateStudentHomework(id, text), Api.DeleteSubmissionFiles(id)]
                    + Uploads.SaveAll(SubmissionLoop(svc, id), form.value).calls
      && r.ctx.bodies == [JObject(map["updated" := JBool(svc.students.updateHomework(id, text).value)])]
  {
    var parsed := Atoi(param);
    if !parsed.1 {
      return Api.Refuse(400, ErrId);
    }
    var id := parsed.0;
    var calls := [Api.UpdateStudentHomework(id, text)];
    var updated := svc.students.updateHomework(id, text);
    if updated.Err? {
      return Api.Failed(calls, 500, updated.error);
    }
    if form.Err? {
      return Api.Failed(calls, 400, form.error);
    }
    var files := form.value;
    if |files| > 0 {
      calls := calls + [Api.DeleteSubmissionFiles(id)];
      var deleted := svc.students.deleteFiles(id);
      if deleted.Fail? {
        return Api.Failed(calls, 500, deleted.error);
      }
    } else {
      return Api.Failed(calls, 400, ErrNoSubmission);
    }
    var saveCalls, saved := Uploads.SaveUploads(SubmissionLoop(svc, id), files);
    calls := calls + saveCalls;
    if saved.Fail? {
      return Api.Failed(calls, 500, saved.error);
    }
    return Api.Answer(calls, JObject(map["updated" := JBool(updated.value)]));
  }

  /** deleteStudentHomework: a refusal from the service is reported as the client's fault. */
  function DeleteStudentHomework(svc: Api.Services, param: string): (r: Api.Reply)
    ensures !Atoi(param).1 ==> r == Api.Refuse(400, ErrId)
    ensures Atoi(param).1 ==> r.calls == [Api.DeleteStudentHomework(Atoi(param).0)]
    ensures Atoi(param).1 && svc.students.deleteHomework(Atoi(param).0).Err? ==>
      r == Api.Failed(r.calls, 400, svc.students.deleteHomework(Atoi(param).0).error)
    ensures Atoi(param).1 && svc.students.deleteHomework(Atoi(param).0).Ok? ==>
      r == Api.Answer(r.calls, JObject(map["deleted" := JBool(svc.students.deleteHomework(Atoi(param).0).value)]))
  {
    var parsed := Atoi(param);
    if !parsed.1 then Api.Refuse(400, ErrId)
    else
      var calls := [Api.DeleteStudentHomework(parsed.0)];
      var deleted := svc.students.deleteHomework(parsed.0);
      if deleted.Err? then Api.Failed(calls, 400, deleted.error)
      else Api.Answer(calls, JObject(map["deleted" := JBool(deleted.value)]))
  }

  /** The teacher filter of getAllStudentHomework: no ?id means 0 (every teacher); otherwise it
      must be an int64. */
  function TeacherFilter(query: string): (r: Result<int>)
    ensures query == "" ==> r == Ok(0)
    ensures query != "" ==> (r.Ok? <==> Atoi(query).1)
    ensures r.Ok? && query != "" ==> r.value == Atoi(query).0
  {
    if |query| == 0 then Ok(0)
    else
      var parsed := Atoi(query);
      if !parsed.1 then Err(ErrTeacherId) else Ok(parsed.0)
  }

  /** A printed teacher id is read back as that id. */
  lemma TeacherFilterReadsId(teacherId: int)
    requires MinInt64 <= teacherId <= MaxInt64
    ensures TeacherFilter(IntToString(teacherId)) == Ok(teacherId)
  {
    AtoiIntToString(teacherId);
  }

  /** Text that is not a number is refused. */
  lemma TeacherFilterRefusesText(query: string)
    requires query != "" && !IsDigit(query[0]) && query[0] != '+' && query[0] != '-'
    ensures TeacherFilter(query) == Err(ErrTeacherId)
  {
    AtoiAccepts(query);
  }

  /** getAllStudentHomework. */
  method GetAllStudentHomework(svc: Api.Services, studentId: int, query: string) returns (r: Api.Reply)
    ensures TeacherFilter(query).Err? ==> r == Api.Refuse(400, ErrTeacherId)
    ensures TeacherFilter(query).Ok? ==>
      var listed := svc.students.getAllHomeworks(studentId, TeacherFilter(query).value);
      && r.calls == [Api.GetAllStudentHomeworks(studentId, TeacherFilter(query).value)]
      && (listed.Err? ==> r == Api.Failed(r.calls, 500, listed.error))
      && (listed.Ok? ==> r == Api.Answer(r.calls, Response.HomeworksStudentJson(Response.HomeworkStudentViews(listed.value))))
  {
    var teacherId := TeacherFilter(query);
    if teacherId.Err? {
      return Api.Refuse(400, teacherId.error);
    }
    var calls := [Api.GetAllStudentHomeworks(studentId, teacherId.value)];
    var listed := svc.students.getAllHomeworks(studentId, teacherId.value);
    if listed.Err? {
      return Api.Failed(calls, 500, listed.error);
    }
    var views := Response.NewHomeworksStudentResponse(listed.value);
    return Api.Answer(calls, Response.HomeworksStudentJson(views));
  }

  function HomeworkBody(d: Api.HomeworkDetails<HomeworkStudent>, hwFiles: seq<Json>, subFiles: seq<Json>): Json {
    var h := d.homework;
    JObject(map[
      "name" := JStr(h.name), "title" := JStr(h.title), "description" := JStr(h.description),
      "deadline" := JTime(h.deadline), "status" := JStr(h.status), "hw_files" := JList(hwFiles),
      "sub_id" := JInt(d.submission.id), "text" := JStr(d.submission.text),
      "submited_at" := JTime(d.submission.submittedAt), "graded" := JBool(d.submission.graded),
      "grade" := JInt(d.grade.grade), "feedback" := JStr(d.grade.feedback), "sub_files" := JList(subFiles)])
  }

  /** getStudentHomework: the homework, the assignment's files, then the submission's files. */
  method GetStudentHomework(svc: Api.Services, param: string) returns (r: Api.Reply)
    ensures !Atoi(param).1 ==> r == Api.Refuse(400, ErrId)
    ensures Atoi(param).1 ==> |r.calls| >= 1 && r.calls[0] == Api.GetStudentHomework(Atoi(param).0)
    ensures Atoi(param).1 && svc.students.getHomework(Atoi(param).0).Err? ==>
      r == Api.Failed(r.calls, 500, svc.students.getHomework(Atoi(param).0).error)
    ensures Status(r.ctx) == 200 <==>
      && Atoi(param).1 && svc.students.getHomework(Atoi(param).0).Ok?
      && Uploads.FirstUnreadable(svc.readFile, svc.students.getHomework(Atoi(param).0).value.hwFiles)
           == |svc.students.getHomework(Atoi(param).0).value.hwFiles|
      && Uploads.FirstUnreadable(svc.readFile, svc.students.getHomework(Atoi(param).0).value.subFiles)
           == |svc.students.getHomework(Atoi(param).0).value.subFiles|
    ensures Status(r.ctx) == 200 ==>
      var d := svc.students.getHomework(Atoi(param).0).value;
      && r.calls == [Api.GetStudentHomework(Atoi(param).0)] + Uploads.ReadCalls(d.hwFiles) + Uploads.ReadCalls(d.subFiles)
      && r.ctx.bodies == [HomeworkBody(d, Uploads.Entries(svc.readFile, d.hwFiles), Uploads.Entries(svc.readFile, d.subFiles))]
  {
    var parsed := Atoi(param);
    if !parsed.1 {
      return Api.Refuse(400, ErrId);
    }
    var calls := [Api.GetStudentHomework(parsed.0)];
    var found := svc.students.getHomework(parsed.0);
    if found.Err? {
      return Api.Failed(calls, 500, found.error);
    }
    var d := found.value;
    var hwCalls, hwData := Uploads.ReadFiles(svc.readFile, d.hwFiles);
    calls := calls + hwCalls;
    if hwData.Err? {
      return Api.Failed(calls, 500, hwData.error);
    }
    var subCalls, subData := Uploads.ReadFiles(svc.readFile, d.subFiles);
    calls := calls + subCalls;
    if subData.Err? {
      return Api.Failed(calls, 500, subData.error);
    }
    assert d.hwFiles[..|d.hwFiles|] == d.hwFiles && d.subFiles[..|d.subFiles|] == d.subFiles;
    return Api.Answer(calls, HomeworkBody(d, hwData.value, subData.value));
  }

  /** getStudentTeachers: each teacher's id and name only. */
  method GetStudentTeachers(svc: Api.Services, studentId: int) returns (r: Api.Reply)
    ensures r.calls == [Api.GetTeachers(studentId)]
    ensures svc.students.getTeachers(studentId).Err? ==>
      r == Api.Failed(r.calls, 500, svc.students.getTeachers(studentId).error)
    ensures svc.students.getTeachers(studentId).Ok? ==>
      r == Api.Answer(r.calls, Response.TeachersJson(Response.TeacherViews(svc.students.getTeachers(studentId).value)))
  {
    var calls := [Api.GetTeachers(studentId)];
    var found := svc.students.getTeachers(studentId);
    if found.Err? {
      return Api.Failed(calls, 500, found.error);
    }
    var views := Response.NewTeachersStudentResponse(found.value);
    return Api.Answer(calls, Response.TeachersJson(views));
  }

  /** The body of updatePassword (None when it does not parse). */
  datatype PasswordInput = PasswordInput(oldPassword: string, newPassword: string)

  /** updatePassword: both fields required (400 "invalid request"), the new one must be strong
      (400 "validation failed"); a wrong old password is the client's fault, anything else the
      server's. */
  function UpdatePassword(svc: Api.Services, studentId: int, body: Option<PasswordInput>): (r: Api.Reply)
    ensures body.None? || body.value.oldPassword == "" || body.value.newPassword == "" ==> r == Api.Refuse(400, ErrRequest)
    ensures body.Some? && body.value.oldPassword != "" && body.value.newPassword != "" && !StrongPassword(body.value.newPassword) ==>
      r == Api.Refuse(400, ErrValidation)
    ensures r.calls != [] <==>
      body.Some? && body.value.oldPassword != "" && StrongPassword(body.value.newPassword)
    ensures r.calls != [] ==>
      var changed := svc.auth.updateStudentPassword(studentId, body.value.oldPassword, body.value.newPassword);
      && r.calls == [Api.UpdateStudentPassword(studentId, body.value.oldPassword, body.value.newPassword)]
      && (changed.Fail? ==> r.ctx.aborted && r.ctx.bodies == [ErrorBody(changed.error)])
      && (changed.Fail? ==> (Status(r.ctx) == 400 <==> changed.error == AuthPostgres.ErrPasswordsMismatch))
      && (changed.Fail? ==> (Status(r.ctx) == 500 <==> changed.error != AuthPostgres.ErrPasswordsMismatch))
      && (changed.Pass? ==> r == Api.Answer(r.calls, JObject(map["updated" := JBool(true)])))
  {
    if body.None? || body.value.oldPassword == "" || body.value.newPassword == "" then Api.Refuse(400, ErrRequest)
    else
      var input := body.value;
      if !StrongPassword(input.newPassword) then Api.Refuse(400, ErrValidation)
      else
        var calls := [Api.UpdateStudentPassword(studentId, input.oldPassword, input.newPassword)];
        var changed := svc.auth.updateStudentPassword(studentId, input.oldPassword, input.newPassword);
        if changed.Fail? then
          if changed.error == AuthPostgres.ErrPasswordsMismatch then Api.Failed(calls, 400, changed.error)
          else Api.Failed(calls, 500, changed.error)
        else Api.Answer(calls, JObject(map["updated" := JBool(true)]))
  }

  /** The weak new password of the handler tests never reaches the service. */
  lemma WeakNewPasswordRefused(svc: Api.Services, studentId: int, oldPassword: string)
    requires oldPassword != ""
    ensures UpdatePassword(svc, studentId, Some(PasswordInput(oldPassword, "123"))) == Api.Refuse(400, ErrValidation)
  {
    StrongPasswordExamples();
  }
}
