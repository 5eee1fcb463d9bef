/** The Postgres tables behind the repositories, and the upload directory on disk.
    Tables whose rows the code looks up by a serial key are maps from that key; the two
    file tables and the teacher–student link table, which are only filtered, are row
    sequences in insertion order. Each serial column has its own counter. */
module Tables {
  import opened Wrappers
  import opened Models

  /** The text of database/sql's ErrNoRows, the error of a single-row query that matched nothing. */
  const ErrNoRows: string := "sql: no rows in result set"

  /** A row of student_assignments (a "homework"): one assignment handed to one student. */
  datatype HomeworkRow = HomeworkRow(
    assignmentId: int, studentId: int, teacherId: int, title: string, description: string,
    assignedAt: Time, deadline: Time, status: string)

  /** A row of submissions; its column assignment_id holds the id of the homework it answers. */
  datatype SubmissionRow = SubmissionRow(
    homeworkId: int, studentId: int, text: string, submittedAt: Time, graded: bool)

  datatype GradeRow = GradeRow(studentId: int, submissionId: int, grade: int, feedback: string)

  /** A row of the code-word pool: the word is the key, the password is stored encrypted. */
  datatype CodeWord = CodeWord(password: string, isUsed: bool)

  datatype Link = Link(teacherId: int, studentId: int)

  /** A row of assignment_files or submission_files: the owning row's id and the stored path. */
  datatype FileRow = FileRow(ownerId: int, url: string)

  /** `SELECT url FROM files WHERE owner = $1`, in row order. */
  function UrlsOf(rows: seq<FileRow>, owner: int): (urls: seq<string>)
    ensures |urls| <= |rows|
    ensures forall u :: u in urls <==> FileRow(owner, u) in rows
    decreases |rows|
  {
    if rows == [] then []
    else if rows[0].ownerId == owner then [rows[0].url] + UrlsOf(rows[1..], owner)
    else UrlsOf(rows[1..], owner)
  }

  /** `DELETE FROM files WHERE owner = $1`. */
  function WithoutOwner(rows: seq<FileRow>, owner: int): (kept: seq<FileRow>)
    ensures forall r :: r in kept <==> r in rows && r.ownerId != owner
    decreases |rows|
  {
    if rows == [] then []
    else if rows[0].ownerId == owner then WithoutOwner(rows[1..], owner)
    else [rows[0]] + WithoutOwner(rows[1..], owner)
  }

  /** Deleting an owner's rows leaves every other owner's paths as they were, in order. */
  lemma {:induction false} UrlsOfWithoutOwner(rows: seq<FileRow>, owner: int, other: int)
    ensures UrlsOf(WithoutOwner(rows, owner), other) == if other == owner then [] else UrlsOf(rows, other)
    decreases |rows|
  {
    if rows != [] {
      UrlsOfWithoutOwner(rows[1..], owner, other);
      if rows[0].ownerId != owner {
        assert ([rows[0]] + WithoutOwner(rows[1..], owner))[1..] == WithoutOwner(rows[1..], owner);
      }
    }
  }

  /** Appending a row adds its path at the end of its owner's list and nowhere else. */
  lemma {:induction false} UrlsOfAppend(rows: seq<FileRow>, row: FileRow, other: int)
    ensures UrlsOf(rows + [row], other) ==
            UrlsOf(rows, other) + (if row.ownerId == other then [row.url] else [])
    decreases |rows|
  {
    if rows == [] {
      assert ([] + [row])[1..] == [];
    } else {
      assert (rows + [row])[1..] == rows[1..] + [row];
      UrlsOfAppend(rows[1..], row, other);
    }
  }

  /** `DELETE FROM teacher_student WHERE teacher_id = $1 AND student_id = $2`. */
  function WithoutLink(links: seq<Link>, l: Link): (kept: seq<Link>)
    ensures forall x :: x in kept <==> x in links && x != l
    ensures |kept| <= |links|
    decreases |links|
  {
    if links == [] then []
    else if links[0] == l then WithoutLink(links[1..], l)
    else [links[0]] + WithoutLink(links[1..], l)
  }

  predicate NoDuplicates<T(==)>(s: seq<T>) {
    forall i, j | 0 <= i < j < |s| :: s[i] != s[j]
  }

  lemma {:induction false} WithoutLinkNoDuplicates(links: seq<Link>, l: Link)
    requires NoDuplicates(links)
    ensures NoDuplicates(WithoutLink(links, l))
    decreases |links|
  {
    if links != [] {
      WithoutLinkNoDuplicates(links[1..], l);
      var rest := WithoutLink(links[1..], l);
      if links[0] != l {
        assert links[0] !in links[1..] by {
          forall j | 0 <= j < |links[1..]| ensures links[1..][j] != links[0] {
            assert links[1..][j] == links[j + 1];
          }
        }
        var r := [links[0]] + rest;
        forall i, j | 0 <= i < j < |r| ensures r[i] != r[j] {
          assert r[j] == rest[j - 1];
          if i > 0 {
            assert r[i] == rest[i - 1];
          }
        }
      }
    }
  }

  class Db {
    var teachers: map<int, Teacher>
    var students: map<int, Student>
    var teacherStudents: seq<Link>
    var codeWords: map<string, CodeWord>
    var assignments: map<int, Assignment>
    var assignmentFiles: seq<FileRow>
    var homeworks: map<int, HomeworkRow>
    var submissions: map<int, SubmissionRow>
    var submissionFiles: seq<FileRow>
    var grades: map<int, GradeRow>

    var teacherSeq: int
    var studentSeq: int
    var assignmentSeq: int
    var homeworkSeq: int
    var submissionSeq: int
    var gradeSeq: int

    /** What the schema and the serial counters guarantee: serial keys are positive, below their
        counter, and equal to the id the row carries; teacher emails are unique; every
        status is one of the three; link rows carry a student id the student counter has
        issued. Foreign keys beyond that are not constrained. */
    ghost predicate Valid()
      reads this
    {
      SerialKeys() && UniqueEmails(teachers) && LinksIssued()
    }

    ghost predicate SerialKeys()
      reads this
    {
      && 1 <= teacherSeq && 1 <= studentSeq && 1 <= assignmentSeq
      && 1 <= homeworkSeq && 1 <= submissionSeq && 1 <= gradeSeq
      && (forall k | k in teachers :: 0 < k < teacherSeq && teachers[k].id == k)
      && (forall k | k in students :: 0 < k < studentSeq && students[k].id == k)
      && (forall k | k in assignments :: 0 < k < assignmentSeq && assignments[k].id == k)
      && (forall k | k in homeworks :: 0 < k < homeworkSeq && IsStatus(homeworks[k].status))
      && (forall k | k in submissions :: 0 < k < submissionSeq)
      && (forall k | k in grades :: 0 < k < gradeSeq)
    }

    ghost predicate LinksIssued()
      reads this
    {
      forall l | l in teacherStudents :: l.studentId < studentSeq
    }

    /** A teacher is never linked to the same student twice. */
    ghost predicate LinksUnique()
      reads this
    {
      NoDuplicates(teacherStudents)
    }

    predicate HasSubmission(h: int)
      reads this
    {
      Submitted(submissions, h)
    }

    predicate HasGradedSubmission(h: int)
      reads this
    {
      GradedSubmitted(submissions, h)
    }

    predicate HasGrade(s: int)
      reads this
    {
      GradeFor(grades, s)
    }

    /** The homework state machine (see LifecycleOf). */
    ghost predicate Lifecycle()
      reads this
    {
      LifecycleOf(homeworks, submissions, grades)
    }

    /** Every student's code word was taken from the pool (and is marked used there), and no
        two students share one. */
    ghost predicate CodesIssued()
      reads this
    {
      && (forall k | k in students :: students[k].code in codeWords && codeWords[students[k].code].isUsed)
      && (forall a, b | a in students && b in students && a != b :: students[a].code != students[b].code)
    }

    /** An empty database. */
    constructor ()
      ensures Valid() && LinksUnique() && Lifecycle() && CodesIssued()
      ensures teachers == map[] && students == map[] && teacherStudents == [] && codeWords == map[]
      ensures assignments == map[] && assignmentFiles == [] && homeworks == map[]
      ensures submissions == map[] && submissionFiles == [] && grades == map[]
    {
      teachers, students, teacherStudents, codeWords := map[], map[], [], map[];
      assignments, assignmentFiles, homeworks := map[], [], map[];
      submissions, submissionFiles, grades := map[], [], map[];
      teacherSeq, studentSeq, assignmentSeq := 1, 1, 1;
      homeworkSeq, submissionSeq, gradeSeq := 1, 1, 1;
    }
  }

  // Single-table writes shared by the repositories. Each keeps the schema invariant on its own,
  // so that the operations composed from them need not re-prove it.

  /** UPDATE student_assignment SET status = <status> WHERE student_assignment_id = <h>. */
  method SetStatus(db: Db, h: int, status: string)
    requires db.Valid() && IsStatus(status)
    modifies db`homeworks
    ensures db.Valid()
    ensures db.homeworks == if h in old(db.homeworks) then old(db.homeworks)[h := old(db.homeworks)[h].(status := status)]
                            else old(db.homeworks)
  {
    if h in db.homeworks {
      db.homeworks := db.homeworks[h := db.homeworks[h].(status := status)];
    }
  }

  /** UPDATE submissions SET graded = true WHERE submission_id = <s>. */
  method MarkGraded(db: Db, s: int)
    requires db.Valid()
    modifies db`submissions
    ensures db.Valid()
    ensures db.submissions == if s in old(db.submissions) then old(db.submissions)[s := old(db.submissions)[s].(graded := true)]
                              else old(db.submissions)
  {
    if s in db.submissions {
      db.submissions := db.submissions[s := db.submissions[s].(graded := true)];
    }
  }

  /** INSERT INTO grades ... RETURNING grade_id. */
  method InsertGrade(db: Db, row: GradeRow) returns (id: int)
    requires db.Valid()
    modifies db`grades, db`gradeSeq
    ensures db.Valid()
    ensures id == old(db.gradeSeq) && id !in old(db.grades)
    ensures db.gradeSeq == old(db.gradeSeq) + 1
    ensures db.grades == old(db.grades)[id := row]
  {
    id := db.gradeSeq;
    db.grades := db.grades[id := row];
    db.gradeSeq := db.gradeSeq + 1;
  }

  /** What GetHomework returns besides the homework itself: the submission (only its id, text,
      time and graded flag are selected), the grade (only its value and feedback), and the
      submission's files. */
  datatype Work = Work(submission: Submission, grade: Grade, files: seq<string>)

  /** The submission and grade part of GetHomework, shared by both repositories: the submission
      is loaded only for a solved or graded homework, the grade only for a graded one. A query
      that matches nothing ends the call with ErrNoRows. When several rows match, the database
      returns one of them. */
  method LoadWork(db: Db, homeworkId: int) returns (r: Result<Work>)
    requires db.Valid() && homeworkId in db.homeworks
    ensures var status := db.homeworks[homeworkId].status;
      status != StatusSolved && status != StatusGraded ==> r == Ok(Work(NoSubmission, NoGrade, []))
    ensures r.Err? ==> r.error == ErrNoRows
    ensures r.Ok? && r.value.submission != NoSubmission ==>
      var s := r.value.submission.id;
      && s in db.submissions && db.submissions[s].homeworkId == homeworkId
      && r.value.submission == Submission(s, 0, 0, db.submissions[s].text, db.submissions[s].submittedAt, db.submissions[s].graded)
      && r.value.files == UrlsOf(db.submissionFiles, s)
    ensures db.homeworks[homeworkId].status == StatusSolved ==> r.Ok? || !db.HasSubmission(homeworkId)
    ensures db.homeworks[homeworkId].status == StatusSolved && r.Ok? ==>
      r.value.submission != NoSubmission && r.value.grade == NoGrade
    ensures db.homeworks[homeworkId].status == StatusGraded && r.Ok? ==>
      && r.value.submission != NoSubmission
      && exists g | g in db.grades :: db.grades[g].submissionId == r.value.submission.id &&
           r.value.grade == Grade(0, 0, 0, db.grades[g].grade, db.grades[g].feedback)
  {
    var status := db.homeworks[homeworkId].status;
    if status != StatusSolved && status != StatusGraded {
      return Ok(Work(NoSubmission, NoGrade, []));
    }
    if !db.HasSubmission(homeworkId) {
      return Err(ErrNoRows);
    }
    var s :| s in db.submissions && db.submissions[s].homeworkId == homeworkId;
    var row := db.submissions[s];
    var submission := Submission(s, 0, 0, row.text, row.submittedAt, row.graded);
    var files := UrlsOf(db.submissionFiles, s);
    if status != StatusGraded {
      return Ok(Work(submission, NoGrade, files));
    }
    if !db.HasGrade(s) {
      return Err(ErrNoRows);
    }
    var g :| g in db.grades && db.grades[g].submissionId == s;
    r := Ok(Work(submission, Grade(0, 0, 0, db.grades[g].grade, db.grades[g].feedback), files));
  }

  predicate Submitted(submissions: map<int, SubmissionRow>, h: int) {
    exists s | s in submissions :: submissions[s].homeworkId == h
  }

  predicate GradedSubmitted(submissions: map<int, SubmissionRow>, h: int) {
    exists s | s in submissions :: submissions[s].homeworkId == h && submissions[s].graded
  }

  predicate GradeFor(grades: map<int, GradeRow>, s: int) {
    exists g | g in grades :: grades[g].submissionId == s
  }

  /** The homework state machine: a solved homework has a submission, a graded homework has
      a graded submission, and a graded submission has a grade. */
  ghost predicate LifecycleOf(homeworks: map<int, HomeworkRow>, submissions: map<int, SubmissionRow>, grades: map<int, GradeRow>) {
    && (forall h | h in homeworks && homeworks[h].status == StatusSolved :: Submitted(submissions, h))
    && (forall h | h in homeworks && homeworks[h].status == StatusGraded :: GradedSubmitted(submissions, h))
    && (forall s | s in submissions && submissions[s].graded :: GradeFor(grades, s))
  }

  ghost predicate UniqueEmails(teachers: map<int, Teacher>) {
    forall a, b | a in teachers && b in teachers && a != b :: teachers[a].email != teachers[b].email
  }

  /** The upload directory: the set of paths that currently hold a file. */
  class Disk {
    var files: set<string>

    constructor (present: set<string>)
      ensures files == present
    {
      files := present;
    }

    /** os.Remove: fails when no file is at the path. */
    method Remove(path: string) returns (err: Option<string>)
      modifies this
      ensures err.None? <==> path in old(files)
      ensures err.Some? ==> err.value == "remove " + path + ": no such file or directory"
      ensures files == old(files) - {path}
    {
      if path in files {
        files := files - {path};
        err := None;
      } else {
        err := Some("remove " + path + ": no such file or directory");
      }
    }
  }

  /** Removing the stored files one by one, in order, stopping at the first path that is not
      there: the files left and the error of the failed removal, if any. */
  function RemoveAll(files: set<string>, paths: seq<string>): (r: (set<string>, Option<string>))
    ensures r.0 <= files
    ensures r.1.None? ==> r.0 == files - (set p | p in paths)
    decreases |paths|
  {
    if paths == [] then (files, None)
    else if paths[0] !in files then (files, Some(paths[0]))
    else RemoveAll(files - {paths[0]}, paths[1..])
  }

  /** Distinct paths that are all present are all removed. */
  lemma {:induction false} RemoveAllPresent(files: set<string>, paths: seq<string>)
    requires NoDuplicates(paths)
    requires forall i | 0 <= i < |paths| :: paths[i] in files
    ensures RemoveAll(files, paths) == (files - (set p | p in paths), None)
    decreases |paths|
  {
    if paths != [] {
      var rest := paths[1..];
      assert paths[0] !in rest by {
        forall j | 0 <= j < |rest| ensures rest[j] != paths[0] {
          assert rest[j] == paths[j + 1];
        }
      }
      forall i, j | 0 <= i < j < |rest| ensures rest[i] != rest[j] {
        assert rest[i] == paths[i + 1] && rest[j] == paths[j + 1];
      }
      forall i | 0 <= i < |rest| ensures rest[i] in files - {paths[0]} {
        assert rest[i] == paths[i + 1];
      }
      RemoveAllPresent(files - {paths[0]}, rest);
    }
  }

  /** A path missing from the directory makes the removal stop with an error, at the latest there. */
  lemma {:induction false} RemoveAllMissing(files: set<string>, paths: seq<string>, i: nat)
    requires i < |paths| && paths[i] !in files
    ensures RemoveAll(files, paths).1.Some?
    decreases |paths|
  {
    if i > 0 && paths[0] in files {
      assert paths[1..][i - 1] == paths[i];
      RemoveAllMissing(files - {paths[0]}, paths[1..], i - 1);
    }
  }

  /** The service loop `for _, path := range paths { os.Remove(path) }` that returns at the first
      failure, wrapping its error with the path. */
  method RemoveFiles(disk: Disk, paths: seq<string>) returns (err: Option<string>)
    modifies disk
    ensures var (left, failed) := RemoveAll(old(disk.files), paths);
      && disk.files == left
      && (err.None? <==> failed.None?)
      && (err.Some? ==> err.value == "failed to delete file " + failed.value + ": remove " + failed.value + ": no such file or directory")
  {
    var i := 0;
    while i < |paths|
      invariant 0 <= i <= |paths|
      invariant RemoveAll(old(disk.files), paths) == RemoveAll(disk.files, paths[i..])
    {
      assert paths[i..][1..] == paths[i + 1..];
      var e := disk.Remove(paths[i]);
      if e.Some? {
        return Some("failed to delete file " + paths[i] + ": " + e.value);
      }
      i := i + 1;
    }
    err := None;
  }
}
