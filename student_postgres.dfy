/** The student's repository (`StudentPostgres`): submissions and their files, the student's
    homework listings and teachers, with the graded guard of the homework lifecycle. */
module StudentPostgres {
  import opened Wrappers
  import opened Models
  import opened Tables

  /** Insert the submission (ungraded, submitted at `now`) and mark the homework solved, in one
      transaction. */
  method AttachHomework(db: Db, homeworkId: int, studentId: int, text: string, now: Time) returns (r: Result<int>)
    requires db.Valid()
    modifies db`submissions, db`submissionSeq, db`homeworks
    ensures db.Valid()
    ensures r.Ok? && r.value == old(db.submissionSeq) && r.value !in old(db.submissions)
    ensures db.submissionSeq == old(db.submissionSeq) + 1
    ensures db.submissions == old(db.submissions)[r.value := SubmissionRow(homeworkId, studentId, text, now, false)]
    ensures db.homeworks == if homeworkId in old(db.homeworks)
      then old(db.homeworks)[homeworkId := old(db.homeworks)[homeworkId].(status := StatusSolved)]
      else old(db.homeworks)
    ensures old(db.Lifecycle()) ==> db.Lifecycle()
  {
    ghost var lifecycle := db.Lifecycle();
    var id := InsertSubmission(db, SubmissionRow(homeworkId, studentId, text, now, false));
    SetStatus(db, homeworkId, StatusSolved);
    r := Ok(id);
    if lifecycle {
      SubmitKeepsLifecycle(old(db.homeworks), old(db.submissions), db.grades, homeworkId, id,
                           SubmissionRow(homeworkId, studentId, text, now, false));
    }
  }

  method InsertSubmission(db: Db, row: SubmissionRow) returns (id: int)
    requires db.Valid()
    modifies db`submissions, db`submissionSeq
    ensures db.Valid()
    ensures id == old(db.submissionSeq) && id !in old(db.submissions)
    ensures db.submissionSeq == old(db.submissionSeq) + 1
    ensures db.submissions == old(db.submissions)[id := row]
  {
    id := db.submissionSeq;
    db.submissions := db.submissions[id := row];
    db.submissionSeq := db.submissionSeq + 1;
  }

  /** Submitting keeps the lifecycle: the homework becomes solved and has the new, ungraded
      submission. A graded homework submitted again goes back to solved. */
  lemma SubmitKeepsLifecycle(homeworks: map<int, HomeworkRow>, submissions: map<int, SubmissionRow>,
                             grades: map<int, GradeRow>, homeworkId: int, id: int, row: SubmissionRow)
    requires LifecycleOf(homeworks, submissions, grades)
    requires id !in submissions && row.homeworkId == homeworkId && !row.graded
    ensures LifecycleOf(
      if homeworkId in homeworks then homeworks[homeworkId := homeworks[homeworkId].(status := StatusSolved)] else homeworks,
      submissions[id := row], grades)
  {
    var homeworks' := if homeworkId in homeworks then homeworks[homeworkId := homeworks[homeworkId].(status := StatusSolved)] else homeworks;
    var submissions' := submissions[id := row];
    forall h | h in homeworks' && homeworks'[h].status == StatusSolved ensures Submitted(submissions', h) {
      if h == homeworkId {
        assert submissions'[id].homeworkId == h;
      } else {
        var s :| s in submissions && submissions[s].homeworkId == h;
        assert submissions'[s].homeworkId == h;
      }
    }
    forall h | h in homeworks' && homeworks'[h].status == StatusGraded ensures GradedSubmitted(submissions', h) {
      var s :| s in submissions && submissions[s].homeworkId == h && submissions[s].graded;
      assert submissions'[s].homeworkId == h && submissions'[s].graded;
    }
  }

  /** Replace the text (and the submission time) of a submission not graded yet. */
  method UpdateHomework(db: Db, submissionId: int, text: string, now: Time) returns (r: Result<bool>)
    requires db.Valid()
    modifies db`submissions
    ensures db.Valid()
    ensures r.Err? <==> submissionId !in old(db.submissions)
    ensures r.Err? ==> r.error == ErrNoRows
    ensures r.Ok? ==> (r.value <==> !old(db.submissions)[submissionId].graded)
    ensures db.submissions == if r == Ok(true)
      then old(db.submissions)[submissionId := old(db.submissions)[submissionId].(text := text, submittedAt := now)]
      else old(db.submissions)
    ensures old(db.Lifecycle()) ==> db.Lifecycle()
  {
    if submissionId !in db.submissions {
      return Err(ErrNoRows);
    }
    if db.submissions[submissionId].graded {
      return Ok(false);
    }
    ghost var lifecycle := db.Lifecycle();
    db.submissions := db.submissions[submissionId := db.submissions[submissionId].(text := text, submittedAt := now)];
    r := Ok(true);
    if lifecycle {
      RewriteKeepsLifecycle(db.homeworks, old(db.submissions), db.grades, submissionId, text, now);
    }
  }

  lemma RewriteKeepsLifecycle(homeworks: map<int, HomeworkRow>, submissions: map<int, SubmissionRow>,
                              grades: map<int, GradeRow>, s: int, text: string, now: Time)
    requires LifecycleOf(homeworks, submissions, grades) && s in submissions
    ensures LifecycleOf(homeworks, submissions[s := submissions[s].(text := text, submittedAt := now)], grades)
  {
    var submissions' := submissions[s := submissions[s].(text := text, submittedAt := now)];
    forall h | h in homeworks && homeworks[h].status == StatusSolved ensures Submitted(submissions', h) {
      var t :| t in submissions && submissions[t].homeworkId == h;
      assert submissions'[t].homeworkId == h;
    }
    forall h | h in homeworks && homeworks[h].status == StatusGraded ensures GradedSubmitted(submissions', h) {
      var t :| t in submissions && submissions[t].homeworkId == h && submissions[t].graded;
      assert submissions'[t].homeworkId == h && submissions'[t].graded;
    }
  }

  /** SELECT url FROM submission_files WHERE submission_id = $1. */
  function GetFiles(db: Db, submissionId: int): (r: seq<string>)
    reads db
    ensures forall u :: u in r <==> FileRow(submissionId, u) in db.submissionFiles
  {
    UrlsOf(db.submissionFiles, submissionId)
  }

  /** DELETE FROM submission_files WHERE submission_id = $1. */
  method DeleteFiles(db: Db, submissionId: int) returns (r: Outcome)
    modifies db`submissionFiles
    ensures r == Pass
    ensures GetFiles(db, submissionId) == []
    ensures forall other | other != submissionId :: GetFiles(db, other) == old(GetFiles(db, other))
    ensures db.submissionFiles == WithoutOwner(old(db.submissionFiles), submissionId)
  {
    db.submissionFiles := WithoutOwner(db.submissionFiles, submissionId);
    forall other ensures UrlsOf(db.submissionFiles, other) == if other == submissionId then [] else old(UrlsOf(db.submissionFiles, other)) {
      UrlsOfWithoutOwner(old(db.submissionFiles), submissionId, other);
    }
    r := Pass;
  }

  /** INSERT INTO submission_files (submission_id, url). */
  method SaveFile(db: Db, submissionId: int, path: string) returns (r: Outcome)
    modifies db`submissionFiles
    ensures r == Pass
    ensures db.submissionFiles == old(db.submissionFiles) + [FileRow(submissionId, path)]
    ensures GetFiles(db, submissionId) == old(GetFiles(db, submissionId)) + [path]
    ensures forall other | other != submissionId :: GetFiles(db, other) == old(GetFiles(db, other))
  {
    db.submissionFiles := db.submissionFiles + [FileRow(submissionId, path)];
    forall other ensures UrlsOf(db.submissionFiles, other) ==
      old(UrlsOf(db.submissionFiles, other)) + (if other == submissionId then [path] else []) {
      UrlsOfAppend(old(db.submissionFiles), FileRow(submissionId, path), other);
    }
    r := Pass;
  }

  /** A homework row joined with the teacher of its assignment, as the student side lists it. */
  function StudentView(id: int, h: HomeworkRow, teacher: Teacher): HomeworkStudent {
    HomeworkStudent(id, h.assignmentId, teacher.name, h.title, h.description, h.assignedAt, h.deadline, h.status)
  }

  /** The homework joins with its assignment and with that assignment's teacher. */
  predicate Joined(db: Db, h: int)
    reads db
  {
    && h in db.homeworks
    && db.homeworks[h].assignmentId in db.assignments
    && db.assignments[db.homeworks[h].assignmentId].teacherId in db.teachers
  }

  function TeacherOf(db: Db, h: int): Teacher
    reads db
    requires Joined(db, h)
  {
    db.teachers[db.assignments[db.homeworks[h].assignmentId].teacherId]
  }

  /** Every homework of the student, with the name of its assignment's teacher. */
  function GetAllHomeworks(db: Db, studentId: int): (r: set<HomeworkStudent>)
    reads db
    ensures forall h | Joined(db, h) && db.homeworks[h].studentId == studentId ::
      StudentView(h, db.homeworks[h], TeacherOf(db, h)) in r
    ensures forall x | x in r ::
      && Joined(db, x.id) && db.homeworks[x.id].studentId == studentId
      && x == StudentView(x.id, db.homeworks[x.id], TeacherOf(db, x.id))
  {
    set h | h in db.homeworks && Joined(db, h) && db.homeworks[h].studentId == studentId ::
      StudentView(h, db.homeworks[h], TeacherOf(db, h))
  }

  /** The same listing restricted to the homeworks the given teacher handed out. */
  function GetAllHomeworksByTeacherId(db: Db, studentId: int, teacherId: int): (r: set<HomeworkStudent>)
    reads db
    ensures forall x | x in r :: x.id in db.homeworks && db.homeworks[x.id].teacherId == teacherId
  {
    set h | h in db.homeworks && Joined(db, h) && db.homeworks[h].studentId == studentId && db.homeworks[h].teacherId == teacherId ::
      StudentView(h, db.homeworks[h], TeacherOf(db, h))
  }

  /** Listing by teacher is the student's listing filtered to that teacher's homeworks. */
  lemma ByTeacherIsFilter(db: Db, studentId: int, teacherId: int)
    ensures GetAllHomeworksByTeacherId(db, studentId, teacherId) ==
      set x | x in GetAllHomeworks(db, studentId) && db.homeworks[x.id].teacherId == teacherId
  {
    var all := GetAllHomeworks(db, studentId);
    var byTeacher := GetAllHomeworksByTeacherId(db, studentId, teacherId);
    forall x | x in all && db.homeworks[x.id].teacherId == teacherId ensures x in byTeacher {
      assert Joined(db, x.id);
    }
  }

  /** A homework (its own id is not selected) with its assignment's files and, depending on its
      status, its submission and grade. */
  method GetHomework(db: Db, id: int) returns (r: Result<(HomeworkStudent, seq<string>, Work)>)
    requires db.Valid()
    ensures r.Err? ==> r.error == ErrNoRows
    ensures !Joined(db, id) ==> r.Err?
    ensures r.Ok? ==>
      && Joined(db, id)
      && r.value.0 == StudentView(0, db.homeworks[id], TeacherOf(db, id))
      && r.value.1 == UrlsOf(db.assignmentFiles, db.homeworks[id].assignmentId)
    ensures r.Ok? && r.value.0.status != StatusSolved && r.value.0.status != StatusGraded ==>
      r.value.2 == Work(NoSubmission, NoGrade, [])
    ensures r.Ok? && r.value.0.status == StatusSolved ==> r.value.2.submission != NoSubmission && r.value.2.grade == NoGrade
    ensures r.Ok? && r.value.0.status == StatusGraded ==> r.value.2.submission != NoSubmission
    ensures r.Ok? && r.value.2.submission != NoSubmission ==>
      var s := r.value.2.submission.id;
      s in db.submissions && db.submissions[s].homeworkId == id && r.value.2.files == UrlsOf(db.submissionFiles, s)
    ensures (db.Lifecycle() && Joined(db, id) && db.homeworks[id].status == StatusSolved) ==> r.Ok?
  {
    if !Joined(db, id) {
      return Err(ErrNoRows);
    }
    var h := db.homeworks[id];
    var view := StudentView(0, h, TeacherOf(db, id));
    var files := UrlsOf(db.assignmentFiles, h.assignmentId);
    var work := LoadWork(db, id);
    if work.Err? {
      return Err(work.error);
    }
    r := Ok((view, files, work.value));
  }

  /** The student's teachers, id and name only. */
  function GetTeachers(db: Db, studentId: int): (r: set<Teacher>)
    reads db
    ensures forall l | l in db.teacherStudents && l.studentId == studentId && l.teacherId in db.teachers ::
      Teacher(l.teacherId, db.teachers[l.teacherId].name, "", "", false) in r
    ensures forall t | t in r ::
      && t.email == "" && t.password == "" && !t.isActive
      && Link(t.id, studentId) in db.teacherStudents && t.id in db.teachers && t.name == db.teachers[t.id].name
  {
    set l | l in db.teacherStudents && l.studentId == studentId && l.teacherId in db.teachers ::
      Teacher(l.teacherId, db.teachers[l.teacherId].name, "", "", false)
  }

  /** Withdraw a submission not graded yet: its homework goes back to unsolved and the
      submission row is deleted. */
  method DeleteHomework(db: Db, submissionId: int) returns (r: Result<bool>)
    requires db.Valid()
    modifies db`submissions, db`homeworks
    ensures db.Valid()
    ensures r.Err? <==> submissionId !in old(db.submissions)
    ensures r.Err? ==> r.error == ErrNoRows
    ensures r.Ok? ==> (r.value <==> !old(db.submissions)[submissionId].graded)
    ensures r != Ok(true) ==> db.submissions == old(db.submissions) && db.homeworks == old(db.homeworks)
    ensures r == Ok(true) ==>
      var h := old(db.submissions)[submissionId].homeworkId;
      && db.submissions == old(db.submissions) - {submissionId}
      && db.homeworks == if h in old(db.homeworks) then old(db.homeworks)[h := old(db.homeworks)[h].(status := StatusUnsolved)]
                         else old(db.homeworks)
    ensures old(db.Lifecycle()) ==> db.Lifecycle()
  {
    if submissionId !in db.submissions {
      return Err(ErrNoRows);
    }
    if db.submissions[submissionId].graded {
      return Ok(false);
    }
    ghost var lifecycle := db.Lifecycle();
    var h := db.submissions[submissionId].homeworkId;
    SetStatus(db, h, StatusUnsolved);
    RemoveSubmission(db, submissionId);
    r := Ok(true);
    if lifecycle {
      WithdrawKeepsLifecycle(old(db.homeworks), old(db.submissions), db.grades, submissionId);
    }
  }

  method RemoveSubmission(db: Db, s: int)
    requires db.Valid()
    modifies db`submissions
    ensures db.Valid()
    ensures db.submissions == old(db.submissions) - {s}
  {
    db.submissions := db.submissions - {s};
  }

  /** Withdrawing an ungraded submission keeps the lifecycle, because its homework is reset. */
  lemma WithdrawKeepsLifecycle(homeworks: map<int, HomeworkRow>, submissions: map<int, SubmissionRow>,
                               grades: map<int, GradeRow>, s: int)
    requires LifecycleOf(homeworks, submissions, grades)
    requires s in submissions && !submissions[s].graded
    ensures var h := submissions[s].homeworkId;
      LifecycleOf(
        if h in homeworks then homeworks[h := homeworks[h].(status := StatusUnsolved)] else homeworks,
        submissions - {s}, grades)
  {
    var h0 := submissions[s].homeworkId;
    var homeworks' := if h0 in homeworks then homeworks[h0 := homeworks[h0].(status := StatusUnsolved)] else homeworks;
    var submissions' := submissions - {s};
    forall h | h in homeworks' && homeworks'[h].status == StatusSolved ensures Submitted(submissions', h) {
      var t :| t in submissions && submissions[t].homeworkId == h;
      assert t != s;
      assert submissions'[t].homeworkId == h;
    }
    forall h | h in homeworks' && homeworks'[h].status == StatusGraded ensures GradedSubmitted(submissions', h) {
      var t :| t in submissions && submissions[t].homeworkId == h && submissions[t].graded;
      assert submissions'[t].homeworkId == h && submissions'[t].graded;
    }
  }
}
