/** The teacher's repository (`TeacherPostgres`): assignments and their files, the teacher's
    students, and the homeworks handed out, with the status guards of the homework lifecycle. */
module TeacherPostgres {
  import opened Wrappers
  import opened Text
  import opened Models
  import opened Tables

  const ErrAlreadyAssigned: string := "the student is already assigned"

  /** INSERT INTO assignments (title, description, teacher_id); created_at defaults to `now`. */
  method CreateAssignment(db: Db, title: string, description: string, teacherId: int, now: Time)
    returns (r: Result<int>)
    requires db.Valid()
    modifies db`assignments, db`assignmentSeq
    ensures db.Valid()
    ensures r.Ok? && r.value == old(db.assignmentSeq) && r.value !in old(db.assignments)
    ensures db.assignmentSeq == old(db.assignmentSeq) + 1
    ensures db.assignments == old(db.assignments)[r.value := Assignment(r.value, title, description, teacherId, now)]
  {
    var id := db.assignmentSeq;
    db.assignments := db.assignments[id := Assignment(id, title, description, teacherId, now)];
    db.assignmentSeq := db.assignmentSeq + 1;
    r := Ok(id);
  }

  /** SELECT assignment_id, title, description, created_at ... WHERE teacher_id = $1: the teacher
      column is not selected, so it reads as zero. */
  function GetAssignments(db: Db, teacherId: int): (r: set<Assignment>)
    reads db
    ensures forall k | k in db.assignments && db.assignments[k].teacherId == teacherId ::
      db.assignments[k].(teacherId := 0) in r
    ensures forall a | a in r ::
      && a.teacherId == 0
      && exists k | k in db.assignments :: db.assignments[k].teacherId == teacherId && a == db.assignments[k].(teacherId := 0)
  {
    set k | k in db.assignments && db.assignments[k].teacherId == teacherId :: db.assignments[k].(teacherId := 0)
  }

  /** One of the teacher's assignments (title, description and creation time only) with its
      files; another teacher's assignment reads as missing. */
  function GetAssignment(db: Db, assignmentId: int, teacherId: int): (r: Result<(Assignment, seq<string>)>)
    reads db
    ensures r.Ok? <==> assignmentId in db.assignments && db.assignments[assignmentId].teacherId == teacherId
    ensures r.Err? ==> r.error == ErrNoRows
    ensures r.Ok? ==>
      var a := db.assignments[assignmentId];
      r.value == (Assignment(0, a.title, a.description, 0, a.createdAt), UrlsOf(db.assignmentFiles, assignmentId))
  {
    if assignmentId in db.assignments && db.assignments[assignmentId].teacherId == teacherId then
      var a := db.assignments[assignmentId];
      Ok((Assignment(0, a.title, a.description, 0, a.createdAt), UrlsOf(db.assignmentFiles, assignmentId)))
    else Err(ErrNoRows)
  }

  // ---------------------------------------------------------------------------------------
  // The SET clause of UpdateAssignment. The service builds the clause text and its argument
  // list; the statement is `UPDATE assignments SET <clause> WHERE assignment_id = <id>`.
  // Below is what the database does with such a clause: comma-separated items `column=$n`,
  // each column at most once, the parameters numbered from 1 and as many arguments as the
  // highest number.
  // ---------------------------------------------------------------------------------------

  const ErrSyntax: string := "pq: syntax error"
  const ErrDuplicateColumn: string := "pq: multiple assignments to same column"
  const ErrUnknownColumn: string := "pq: column of relation \"assignments\" does not exist"

  function ParamCountError(given: nat, required: nat): string {
    "pq: got " + NatToString(given) + " parameters but the statement requires " + NatToString(required)
  }

  datatype Setting = Setting(column: string, param: nat)

  function TrimLeft(s: string): (t: string)
    ensures |t| <= |s|
    ensures t == [] || t[0] != ' '
    decreases |s|
  {
    if s != [] && s[0] == ' ' then TrimLeft(s[1..]) else s
  }

  function TrimRight(s: string): (t: string)
    ensures |t| <= |s|
    ensures t == [] || t[|t| - 1] != ' '
    decreases |s|
  {
    if s != [] && s[|s| - 1] == ' ' then TrimRight(s[..|s| - 1]) else s
  }

  /** The text with the blanks around it removed. */
  function Trim(s: string): (t: string) {
    TrimRight(TrimLeft(s))
  }

  /** One item `column = $n` of the clause, blanks allowed around each token. */
  function ParseSetting(item: string): (r: Option<Setting>)
    ensures r.Some? ==> r.value.param >= 1
  {
    var sides := Split(Trim(item), '=');
    if |sides| != 2 then None
    else
      var column := Trim(sides[0]);
      var value := Trim(sides[1]);
      if |column| == 0 || |value| < 2 || value[0] != '$' || !AllDigits(value[1..]) then None
      else
        var n := DigitsValue(value[1..]);
        if n == 0 then None else Some(Setting(column, n))
  }

  function ParseSettings(items: seq<string>): (r: Option<seq<Setting>>)
    ensures r.Some? ==> |r.value| == |items| && forall i | 0 <= i < |r.value| :: r.value[i].param >= 1
    decreases |items|
  {
    if items == [] then Some([])
    else match (ParseSetting(items[0]), ParseSettings(items[1..]))
      case (Some(s), Some(rest)) => Some([s] + rest)
      case _ => None
  }

  function MaxParam(ss: seq<Setting>): (m: nat)
    ensures forall i | 0 <= i < |ss| :: ss[i].param <= m
    ensures ss == [] ==> m == 0
    decreases |ss|
  {
    if ss == [] then 0
    else var rest := MaxParam(ss[1..]); if ss[0].param > rest then ss[0].param else rest
  }

  predicate DistinctColumns(ss: seq<Setting>) {
    forall i, j | 0 <= i < j < |ss| :: ss[i].column != ss[j].column
  }

  /** Assign each item's argument to its column, in order; only the title and the description
      may be set through this statement. */
  function Assign(a: Assignment, ss: seq<Setting>, args: seq<string>): (r: Option<Assignment>)
    requires forall i | 0 <= i < |ss| :: 1 <= ss[i].param <= |args|
    ensures r.Some? ==> r.value == a.(title := r.value.title, description := r.value.description)
    decreases |ss|
  {
    if ss == [] then Some(a)
    else
      var v := args[ss[0].param - 1];
      if ss[0].column == "title" then Assign(a.(title := v), ss[1..], args)
      else if ss[0].column == "description" then Assign(a.(description := v), ss[1..], args)
      else None
  }

  /** The effect of `SET <clause>` with `args` on one assignment row. */
  function ApplySet(a: Assignment, clause: string, args: seq<string>): (r: Result<Assignment>)
    ensures r.Ok? ==> r.value == a.(title := r.value.title, description := r.value.description)
  {
    match ParseSettings(Split(clause, ','))
    case None => Err(ErrSyntax)
    case Some(ss) =>
      if !DistinctColumns(ss) then Err(ErrDuplicateColumn)
      else if MaxParam(ss) != |args| then Err(ParamCountError(|args|, MaxParam(ss)))
      else match Assign(a, ss, args)
        case None => Err(ErrUnknownColumn)
        case Some(b) => Ok(b)
  }

  /** The row an UPDATE ... WHERE assignment_id = <id> touches; the empty row when there is none. */
  function RowOf(assignments: map<int, Assignment>, id: int): Assignment {
    if id in assignments then assignments[id] else NoAssignment
  }

  /** UPDATE assignments SET <clause> WHERE assignment_id = <id>. A clause the database refuses
      is an error whether or not the row exists; a missing row is not an error. */
  method UpdateAssignment(db: Db, assignmentId: int, clause: string, args: seq<string>) returns (r: Outcome)
    requires db.Valid()
    modifies db`assignments
    ensures db.Valid()
    ensures var applied := ApplySet(RowOf(old(db.assignments), assignmentId), clause, args);
      && (r.Fail? <==> applied.Err?)
      && (r.Fail? ==> r.error == applied.error && db.assignments == old(db.assignments))
      && (r.Pass? ==> db.assignments == if assignmentId in old(db.assignments)
                                        then old(db.assignments)[assignmentId := applied.value]
                                        else old(db.assignments))
  {
    var applied := ApplySet(RowOf(db.assignments, assignmentId), clause, args);
    if applied.Err? {
      return Fail(applied.error);
    }
    if assignmentId in db.assignments {
      StoreAssignment(db, applied.value);
    }
    r := Pass;
  }

  /** Write back a changed assignment row under its own id. */
  method StoreAssignment(db: Db, row: Assignment)
    requires db.Valid() && row.id in db.assignments
    modifies db`assignments
    ensures db.Valid()
    ensures db.assignments == old(db.assignments)[row.id := row]
  {
    db.assignments := db.assignments[row.id := row];
  }

  /** SELECT url FROM assignment_files WHERE assignment_id = $1. */
  function GetFiles(db: Db, assignmentId: int): (r: seq<string>)
    reads db
    ensures forall u :: u in r <==> FileRow(assignmentId, u) in db.assignmentFiles
  {
    UrlsOf(db.assignmentFiles, assignmentId)
  }

  predicate Attached(homeworks: map<int, HomeworkRow>, assignmentId: int) {
    exists h | h in homeworks :: homeworks[h].assignmentId == assignmentId
  }

  /** Refused (false) while any homework was made from the assignment; otherwise the row is
      deleted, and true is reported whether or not it existed. */
  method DeleteAssignment(db: Db, assignmentId: int) returns (r: Result<bool>)
    requires db.Valid()
    modifies db`assignments
    ensures db.Valid()
    ensures r.Ok?
    ensures r.value <==> !Attached(db.homeworks, assignmentId)
    ensures db.assignments == if r.value then old(db.assignments) - {assignmentId} else old(db.assignments)
  {
    if Attached(db.homeworks, assignmentId) {
      return Ok(false);
    }
    db.assignments := db.assignments - {assignmentId};
    r := Ok(true);
  }

  /** DELETE FROM assignment_files WHERE assignment_id = $1. */
  method DeleteFiles(db: Db, assignmentId: int) returns (r: Outcome)
    modifies db`assignmentFiles
    ensures r == Pass
    ensures GetFiles(db, assignmentId) == []
    ensures forall other | other != assignmentId :: GetFiles(db, other) == old(GetFiles(db, other))
    ensures db.assignmentFiles == WithoutOwner(old(db.assignmentFiles), assignmentId)
  {
    db.assignmentFiles := WithoutOwner(db.assignmentFiles, assignmentId);
    forall other ensures UrlsOf(db.assignmentFiles, other) == if other == assignmentId then [] else old(UrlsOf(db.assignmentFiles, other)) {
      UrlsOfWithoutOwner(old(db.assignmentFiles), assignmentId, other);
    }
    r := Pass;
  }

  /** INSERT INTO assignment_files (assignment_id, url). */
  method SaveFile(db: Db, assignmentId: int, path: string) returns (r: Outcome)
    modifies db`assignmentFiles
    ensures r == Pass
    ensures db.assignmentFiles == old(db.assignmentFiles) + [FileRow(assignmentId, path)]
    ensures GetFiles(db, assignmentId) == old(GetFiles(db, assignmentId)) + [path]
    ensures forall other | other != assignmentId :: GetFiles(db, other) == old(GetFiles(db, other))
  {
    db.assignmentFiles := db.assignmentFiles + [FileRow(assignmentId, path)];
    forall other ensures UrlsOf(db.assignmentFiles, other) ==
      old(UrlsOf(db.assignmentFiles, other)) + (if other == assignmentId then [path] else []) {
      UrlsOfAppend(old(db.assignmentFiles), FileRow(assignmentId, path), other);
    }
    r := Pass;
  }

  /** Link the student holding `codeWord` to the teacher, unless that link already exists. */
  method AttachStudent(db: Db, teacherId: int, codeWord: string) returns (r: Result<Student>)
    requires db.Valid()
    modifies db`teacherStudents
    ensures db.Valid()
    ensures r.Err? && r.error == ErrNoRows <==> !exists k | k in db.students :: db.students[k].code == codeWord
    ensures r.Err? ==> db.teacherStudents == old(db.teacherStudents)
    ensures r.Err? && r.error != ErrNoRows ==> r.error == ErrAlreadyAssigned
    ensures r.Ok? ==>
      && r.value in db.students.Values && r.value.code == codeWord
      && Link(teacherId, r.value.id) !in old(db.teacherStudents)
      && db.teacherStudents == old(db.teacherStudents) + [Link(teacherId, r.value.id)]
    ensures r.Err? && r.error == ErrAlreadyAssigned ==>
      exists k | k in db.students :: db.students[k].code == codeWord && Link(teacherId, k) in db.teacherStudents
    ensures old(db.LinksUnique()) ==> db.LinksUnique()
  {
    if k :| k in db.students && db.students[k].code == codeWord {
      var student := db.students[k];
      if Link(teacherId, student.id) in db.teacherStudents {
        return Err(ErrAlreadyAssigned);
      }
      db.teacherStudents := db.teacherStudents + [Link(teacherId, student.id)];
      r := Ok(student);
    } else {
      r := Err(ErrNoRows);
    }
  }

  /** INSERT INTO student_assignment: the homework starts unsolved and is assigned at `now`. */
  method AttachAssignment(db: Db, assignmentId: int, studentId: int, teacherId: int,
                          title: string, description: string, deadline: Time, now: Time)
    returns (r: Result<int>)
    requires db.Valid()
    modifies db`homeworks, db`homeworkSeq
    ensures db.Valid()
    ensures r.Ok? && r.value == old(db.homeworkSeq) && r.value !in old(db.homeworks)
    ensures db.homeworkSeq == old(db.homeworkSeq) + 1
    ensures db.homeworks == old(db.homeworks)[r.value :=
      HomeworkRow(assignmentId, studentId, teacherId, title, description, now, deadline, StatusUnsolved)]
    ensures old(db.Lifecycle()) ==> db.Lifecycle()
  {
    var id := db.homeworkSeq;
    db.homeworks := db.homeworks[id := HomeworkRow(assignmentId, studentId, teacherId, title, description, now, deadline, StatusUnsolved)];
    db.homeworkSeq := db.homeworkSeq + 1;
    r := Ok(id);
  }

  /** The teacher's students as listed: id, name, code and class; the password is not selected. */
  function GetStudents(db: Db, teacherId: int): (r: set<Student>)
    reads db
    ensures forall l | l in db.teacherStudents && l.teacherId == teacherId && l.studentId in db.students ::
      db.students[l.studentId].(password := "") in r
    ensures forall s | s in r ::
      && s.password == ""
      && exists l | l in db.teacherStudents :: l.teacherId == teacherId && l.studentId in db.students &&
           s == db.students[l.studentId].(password := "")
  {
    set l | l in db.teacherStudents && l.teacherId == teacherId && l.studentId in db.students ::
      db.students[l.studentId].(password := "")
  }

  /** SELECT name, code, class_number FROM students WHERE student_id = $1; no ownership check. */
  function GetStudent(db: Db, studentId: int): (r: Result<Student>)
    reads db
    ensures r.Ok? <==> studentId in db.students
    ensures r.Err? ==> r.error == ErrNoRows
    ensures r.Ok? ==> r.value == db.students[studentId].(id := 0, password := "")
  {
    if studentId in db.students then Ok(db.students[studentId].(id := 0, password := ""))
    else Err(ErrNoRows)
  }

  /** Remove the teacher–student link; the student's record stays. */
  method DeleteStudent(db: Db, teacherId: int, studentId: int) returns (r: Outcome)
    requires db.Valid()
    modifies db`teacherStudents
    ensures db.Valid()
    ensures r == Pass
    ensures db.teacherStudents == WithoutLink(old(db.teacherStudents), Link(teacherId, studentId))
    ensures Link(teacherId, studentId) !in db.teacherStudents
    ensures forall l | l != Link(teacherId, studentId) :: l in db.teacherStudents <==> l in old(db.teacherStudents)
    ensures old(db.LinksUnique()) ==> db.LinksUnique()
  {
    if db.LinksUnique() {
      WithoutLinkNoDuplicates(db.teacherStudents, Link(teacherId, studentId));
    }
    db.teacherStudents := WithoutLink(db.teacherStudents, Link(teacherId, studentId));
    r := Pass;
  }

  /** A homework row joined with its student, as the teacher side lists it. */
  function TeacherView(id: int, h: HomeworkRow, s: Student): HomeworkTeacher {
    HomeworkTeacher(id, h.assignmentId, s.name, s.code, s.classNumber, h.title, h.description, h.assignedAt, h.deadline, h.status)
  }

  predicate ListedFor(db: Db, h: int, teacherId: int)
    reads db
  {
    h in db.homeworks && db.homeworks[h].teacherId == teacherId && db.homeworks[h].studentId in db.students
  }

  /** Every homework the teacher handed out, joined with its student. */
  function GetAllHomeworks(db: Db, teacherId: int): (r: set<HomeworkTeacher>)
    reads db
    ensures forall h | ListedFor(db, h, teacherId) :: TeacherView(h, db.homeworks[h], db.students[db.homeworks[h].studentId]) in r
    ensures forall x | x in r ::
      && ListedFor(db, x.id, teacherId)
      && x == TeacherView(x.id, db.homeworks[x.id], db.students[db.homeworks[x.id].studentId])
  {
    set h | h in db.homeworks && ListedFor(db, h, teacherId) ::
      TeacherView(h, db.homeworks[h], db.students[db.homeworks[h].studentId])
  }

  /** The same listing restricted to one student. */
  function GetAllHomeworksByStudentId(db: Db, studentId: int, teacherId: int): (r: set<HomeworkTeacher>)
    reads db
    ensures forall x | x in r :: x.id in db.homeworks && db.homeworks[x.id].studentId == studentId
  {
    set h | h in db.homeworks && ListedFor(db, h, teacherId) && db.homeworks[h].studentId == studentId ::
      TeacherView(h, db.homeworks[h], db.students[db.homeworks[h].studentId])
  }

  /** Listing by student is the teacher's listing filtered to that student's homeworks. */
  lemma ByStudentIsFilter(db: Db, studentId: int, teacherId: int)
    ensures GetAllHomeworksByStudentId(db, studentId, teacherId) ==
      set x | x in GetAllHomeworks(db, teacherId) && db.homeworks[x.id].studentId == studentId
  {
    var all := GetAllHomeworks(db, teacherId);
    var byStudent := GetAllHomeworksByStudentId(db, studentId, teacherId);
    forall x | x in all && db.homeworks[x.id].studentId == studentId ensures x in byStudent {
      assert ListedFor(db, x.id, teacherId);
    }
  }

  /** A homework with its assignment's files and, depending on its status, its submission and grade. */
  method GetHomework(db: Db, id: int) returns (r: Result<(HomeworkTeacher, seq<string>, Work)>)
    requires db.Valid()
    ensures r.Err? ==> r.error == ErrNoRows
    ensures !(id in db.homeworks && db.homeworks[id].studentId in db.students) ==> r.Err?
    ensures r.Ok? ==>
      && id in db.homeworks && db.homeworks[id].studentId in db.students
      && var h := db.homeworks[id];
      && r.value.0 == TeacherView(id, h, db.students[h.studentId])
      && r.value.1 == UrlsOf(db.assignmentFiles, h.assignmentId)
    ensures r.Ok? && r.value.0.status != StatusSolved && r.value.0.status != StatusGraded ==>
      r.value.2 == Work(NoSubmission, NoGrade, [])
    ensures r.Ok? && r.value.0.status == StatusSolved ==> r.value.2.submission != NoSubmission && r.value.2.grade == NoGrade
    ensures r.Ok? && r.value.0.status == StatusGraded ==> r.value.2.submission != NoSubmission
    ensures r.Ok? && r.value.2.submission != NoSubmission ==>
      var s := r.value.2.submission.id;
      s in db.submissions && db.submissions[s].homeworkId == id && r.value.2.files == UrlsOf(db.submissionFiles, s)
    ensures (db.Lifecycle() && id in db.homeworks && db.homeworks[id].studentId in db.students &&
             db.homeworks[id].status == StatusSolved) ==> r.Ok?
  {
    if !(id in db.homeworks && db.homeworks[id].studentId in db.students) {
      return Err(ErrNoRows);
    }
    var h := db.homeworks[id];
    var view := TeacherView(id, h, db.students[h.studentId]);
    var files := UrlsOf(db.assignmentFiles, h.assignmentId);
    var work := LoadWork(db, id);
    if work.Err? {
      return Err(work.error);
    }
    r := Ok((view, files, work.value));
  }

  /** SELECT submission_id, student_id, graded FROM submissions WHERE assignment_id = $1. */
  method CheckSubmission(db: Db, homeworkId: int) returns (r: Result<(int, int, bool)>)
    ensures r.Ok? <==> db.HasSubmission(homeworkId)
    ensures r.Err? ==> r.error == ErrNoRows
    ensures r.Ok? ==>
      var (s, student, graded) := r.value;
      && s in db.submissions && db.submissions[s].homeworkId == homeworkId
      && student == db.submissions[s].studentId && graded == db.submissions[s].graded
  {
    if s :| s in db.submissions && db.submissions[s].homeworkId == homeworkId {
      r := Ok((s, db.submissions[s].studentId, db.submissions[s].graded));
    } else {
      r := Err(ErrNoRows);
    }
  }

  /** Insert the grade, mark the submission graded and the homework graded, in one transaction. */
  method GradeHomework(db: Db, homeworkId: int, submissionId: int, studentId: int, grade: int, feedback: string)
    returns (r: Result<int>)
    requires db.Valid()
    modifies db`grades, db`gradeSeq, db`submissions, db`homeworks
    ensures db.Valid()
    ensures r.Ok? && r.value == old(db.gradeSeq) && r.value !in old(db.grades)
    ensures db.gradeSeq == old(db.gradeSeq) + 1
    ensures db.grades == old(db.grades)[r.value := GradeRow(studentId, submissionId, grade, feedback)]
    ensures db.submissions == if submissionId in old(db.submissions)
      then old(db.submissions)[submissionId := old(db.submissions)[submissionId].(graded := true)]
      else old(db.submissions)
    ensures db.homeworks == if homeworkId in old(db.homeworks)
      then old(db.homeworks)[homeworkId := old(db.homeworks)[homeworkId].(status := StatusGraded)]
      else old(db.homeworks)
    ensures (old(db.Lifecycle()) && submissionId in old(db.submissions) &&
             old(db.submissions)[submissionId].homeworkId == homeworkId) ==> db.Lifecycle()
  {
    ghost var lifecycle := db.Lifecycle();
    var id := InsertGrade(db, GradeRow(studentId, submissionId, grade, feedback));
    MarkGraded(db, submissionId);
    SetStatus(db, homeworkId, StatusGraded);
    r := Ok(id);
    if lifecycle && submissionId in old(db.submissions) && old(db.submissions)[submissionId].homeworkId == homeworkId {
      GradeKeepsLifecycle(old(db.homeworks), old(db.submissions), old(db.grades), homeworkId, submissionId, id,
                          GradeRow(studentId, submissionId, grade, feedback));
    }
  }

  /** Grading a homework through one of its own submissions keeps the lifecycle: the homework
      becomes graded with a graded submission, and that submission gets its grade. */
  lemma GradeKeepsLifecycle(homeworks: map<int, HomeworkRow>, submissions: map<int, SubmissionRow>,
                            grades: map<int, GradeRow>, homeworkId: int, submissionId: int,
                            gradeId: int, row: GradeRow)
    requires LifecycleOf(homeworks, submissions, grades)
    requires submissionId in submissions && submissions[submissionId].homeworkId == homeworkId
    requires gradeId !in grades && row.submissionId == submissionId
    ensures LifecycleOf(
      if homeworkId in homeworks then homeworks[homeworkId := homeworks[homeworkId].(status := StatusGraded)] else homeworks,
      submissions[submissionId := submissions[submissionId].(graded := true)],
      grades[gradeId := row])
  {
    var homeworks' := if homeworkId in homeworks then homeworks[homeworkId := homeworks[homeworkId].(status := StatusGraded)] else homeworks;
    var submissions' := submissions[submissionId := submissions[submissionId].(graded := true)];
    var grades' := grades[gradeId := row];
    forall h | h in homeworks' && homeworks'[h].status == StatusSolved ensures Submitted(submissions', h) {
      var s :| s in submissions && submissions[s].homeworkId == h;
      assert submissions'[s].homeworkId == h;
    }
    forall h | h in homeworks' && homeworks'[h].status == StatusGraded ensures GradedSubmitted(submissions', h) {
      if h == homeworkId {
        assert submissions'[submissionId].homeworkId == h && submissions'[submissionId].graded;
      } else {
        var s :| s in submissions && submissions[s].homeworkId == h && submissions[s].graded;
        assert submissions'[s].homeworkId == h && submissions'[s].graded;
      }
    }
    forall s | s in submissions' && submissions'[s].graded ensures GradeFor(grades', s) {
      if s == submissionId {
        assert grades'[gradeId].submissionId == s;
      } else {
        var g :| g in grades && grades[g].submissionId == s;
        assert grades'[g].submissionId == s;
      }
    }
  }

  predicate Locked(status: string) {
    status == StatusGraded || status == StatusSolved
  }

  /** Change title, description and deadline of a homework nobody has solved yet. */
  method UpdateHomework(db: Db, homeworkId: int, title: string, description: string, deadline: Time)
    returns (r: Result<bool>)
    requires db.Valid()
    modifies db`homeworks
    ensures db.Valid()
    ensures r.Err? <==> homeworkId !in old(db.homeworks)
    ensures r.Err? ==> r.error == ErrNoRows
    ensures r.Ok? ==> (r.value <==> !Locked(old(db.homeworks)[homeworkId].status))
    ensures db.homeworks == if r == Ok(true)
      then old(db.homeworks)[homeworkId := old(db.homeworks)[homeworkId].(title := title, description := description, deadline := deadline)]
      else old(db.homeworks)
    ensures old(db.Lifecycle()) ==> db.Lifecycle()
  {
    if homeworkId !in db.homeworks {
      return Err(ErrNoRows);
    }
    if Locked(db.homeworks[homeworkId].status) {
      return Ok(false);
    }
    db.homeworks := db.homeworks[homeworkId := db.homeworks[homeworkId].(title := title, description := description, deadline := deadline)];
    r := Ok(true);
  }

  /** Delete a homework nobody has solved yet. */
  method DeleteHomework(db: Db, homeworkId: int) returns (r: Result<bool>)
    requires db.Valid()
    modifies db`homeworks
    ensures db.Valid()
    ensures r.Err? <==> homeworkId !in old(db.homeworks)
    ensures r.Err? ==> r.error == ErrNoRows
    ensures r.Ok? ==> (r.value <==> !Locked(old(db.homeworks)[homeworkId].status))
    ensures db.homeworks == if r == Ok(true) then old(db.homeworks) - {homeworkId} else old(db.homeworks)
    ensures old(db.Lifecycle()) ==> db.Lifecycle()
  {
    if homeworkId !in db.homeworks {
      return Err(ErrNoRows);
    }
    if Locked(db.homeworks[homeworkId].status) {
      return Ok(false);
    }
    db.homeworks := db.homeworks - {homeworkId};
    r := Ok(true);
  }
}
