/** The student service (`StudentService`): rewriting and withdrawing a submission together with
    its stored files, and the choice between the two homework listings. The operations that only
    pass their arguments on to the repository are the repository's own members. */
module StudentService {
  import opened Wrappers
  import opened Models
  import opened Tables
  import StudentPostgres

  /** Remove the submission's stored files from disk, in row order, then its file rows. The
      first path that cannot be removed ends the call and the rows stay. */
  method DeleteFiles(db: Db, disk: Disk, submissionId: int) returns (r: Outcome)
    modifies db`submissionFiles, disk
    ensures var (left, failed) := RemoveAll(old(disk.files), UrlsOf(old(db.submissionFiles), submissionId));
      && disk.files == left
      && (r.Pass? <==> failed.None?)
      && (r.Fail? ==> r.error == "failed to delete file " + failed.value + ": remove " + failed.value + ": no such file or directory")
      && (r.Pass? ==> db.submissionFiles == WithoutOwner(old(db.submissionFiles), submissionId))
      && (r.Fail? ==> db.submissionFiles == old(db.submissionFiles))
  {
    var paths := StudentPostgres.GetFiles(db, submissionId);
    var err := RemoveFiles(disk, paths);
    if err.Some? {
      return Fail(err.value);
    }
    r := StudentPostgres.DeleteFiles(db, submissionId);
  }

  /** Replace the text of a submission. The stored files go first, whether or not the
      repository then accepts the new text: a graded submission keeps its text but loses its
      files. */
  method UpdateHomework(db: Db, disk: Disk, submissionId: int, text: string, now: Time) returns (r: Result<bool>)
    requires db.Valid()
    modifies db`submissions, db`submissionFiles, disk
    ensures db.Valid()
    ensures var (left, failed) := RemoveAll(old(disk.files), UrlsOf(old(db.submissionFiles), submissionId));
      && disk.files == left
      && (failed.Some? ==> r.Err? && db.submissions == old(db.submissions) && db.submissionFiles == old(db.submissionFiles))
      && (failed.None? ==>
          && db.submissionFiles == WithoutOwner(old(db.submissionFiles), submissionId)
          && (r.Err? <==> submissionId !in old(db.submissions))
          && (r.Err? ==> r.error == ErrNoRows)
          && (r.Ok? ==> (r.value <==> !old(db.submissions)[submissionId].graded))
          && db.submissions == if r == Ok(true)
             then old(db.submissions)[submissionId := old(db.submissions)[submissionId].(text := text, submittedAt := now)]
             else old(db.submissions))
    ensures old(db.Lifecycle()) ==> db.Lifecycle()
  {
    var files := DeleteFiles(db, disk, submissionId);
    if files.Fail? {
      return Err(files.error);
    }
    r := StudentPostgres.UpdateHomework(db, submissionId, text, now);
  }

  /** Teacher id 0 stands for "every teacher"; any other id filters the listing to that
      teacher's homeworks. */
  function GetAllHomeworks(db: Db, studentId: int, teacherId: int): (r: set<HomeworkStudent>)
    reads db
    ensures r == set x | x in StudentPostgres.GetAllHomeworks(db, studentId) &&
                         (teacherId == 0 || db.homeworks[x.id].teacherId == teacherId)
  {
    if teacherId == 0 then StudentPostgres.GetAllHomeworks(db, studentId)
    else
      StudentPostgres.ByTeacherIsFilter(db, studentId, teacherId);
      StudentPostgres.GetAllHomeworksByTeacherId(db, studentId, teacherId)
  }

  /** Withdraw a submission that is not graded yet, then remove its files. A refused or failed
      withdrawal leaves the files alone. */
  method DeleteHomework(db: Db, disk: Disk, submissionId: int) returns (r: Result<bool>)
    requires db.Valid()
    modifies db`submissions, db`homeworks, db`submissionFiles, disk
    ensures db.Valid()
    ensures submissionId !in old(db.submissions) ==> r == Err(ErrNoRows) && unchanged(db) && unchanged(disk)
    ensures submissionId in old(db.submissions) && old(db.submissions)[submissionId].graded ==>
      r == Ok(false) && unchanged(db) && unchanged(disk)
    ensures submissionId in old(db.submissions) && !old(db.submissions)[submissionId].graded ==>
      var h := old(db.submissions)[submissionId].homeworkId;
      var (left, failed) := RemoveAll(old(disk.files), UrlsOf(old(db.submissionFiles), submissionId));
      && db.submissions == old(db.submissions) - {submissionId}
      && db.homeworks == (if h in old(db.homeworks) then old(db.homeworks)[h := old(db.homeworks)[h].(status := StatusUnsolved)]
                          else old(db.homeworks))
      && disk.files == left
      && (r == Ok(true) <==> failed.None?)
      && (r != Ok(true) ==> r.Err? && db.submissionFiles == old(db.submissionFiles))
      && (r == Ok(true) ==> db.submissionFiles == WithoutOwner(old(db.submissionFiles), submissionId))
    ensures old(db.Lifecycle()) ==> db.Lifecycle()
  {
    var deleted := StudentPostgres.DeleteHomework(db, submissionId);
    if deleted.Err? {
      return Err(deleted.error);
    }
    if !deleted.value {
      return Ok(false);
    }
    var files := DeleteFiles(db, disk, submissionId);
    if files.Fail? {
      return Err(files.error);
    }
    r := Ok(true);
  }
}
