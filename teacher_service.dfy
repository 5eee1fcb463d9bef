/** The teacher service (`TeacherService`): the SET clause of an assignment update, the grading
    guard, and deletion of an assignment together with its stored files. The operations that only
    pass their arguments on to the repository are the repository's own members. */
module TeacherService {
  import opened Wrappers
  import opened Text
  import opened Models
  import opened Tables
  import TeacherPostgres

  const ErrNoFields: string := "no fields to update"
  const ErrAlreadyGraded: string := "homework already graded"

  /** Build the SET clause and its arguments from the non-empty fields, numbering the
      placeholders from $1 in order and joining the items with " ,". */
  method BuildSetClause(title: string, description: string) returns (parts: string, args: seq<string>)
    ensures args == (if title != "" then [title] else []) + (if description != "" then [description] else [])
    ensures title != "" && description != "" ==> parts == "title=$1 ,description=$2"
    ensures title != "" && description == "" ==> parts == "title=$1"
    ensures title == "" && description != "" ==> parts == "description=$1"
    ensures title == "" && description == "" ==> parts == ""
  {
    var setParts: seq<string> := [];
    args := [];
    var argId: nat := 1;
    if title != "" {
      setParts := setParts + ["title=$" + NatToString(argId)];
      args := args + [title];
      argId := argId + 1;
    }
    if description != "" {
      setParts := setParts + ["description=$" + NatToString(argId)];
      args := args + [description];
      argId := argId + 1;
    }
    parts := JoinWith(setParts, " ,");
  }

  /** strings.Join. */
  function JoinWith(items: seq<string>, sep: string): (s: string)
    ensures items == [] ==> s == ""
    ensures |items| == 1 ==> s == items[0]
    ensures |items| == 2 ==> s == items[0] + sep + items[1]
    decreases |items|
  {
    if items == [] then ""
    else if |items| == 1 then items[0]
    else items[0] + sep + JoinWith(items[1..], sep)
  }

  /** Text with no blank at either end is its own trim. */
  lemma TrimUnpadded(s: string)
    requires s != [] && s[0] != ' ' && s[|s| - 1] != ' '
    ensures TeacherPostgres.Trim(s) == s
  {
    assert TeacherPostgres.TrimLeft(s) == s;
  }

  /** The parameter `$c` is its own trim and reads as the digit c. */
  lemma TrimDigitParam(c: char)
    requires IsDigit(c)
    ensures TeacherPostgres.Trim(['$', c]) == ['$', c]
    ensures ['$', c][1..] == [c] && AllDigits([c]) && DigitsValue([c]) == DigitValue(c)
  {
    var v := ['$', c];
    assert |v| == 2 && v[0] == '$' && v[1] == c;
    assert TeacherPostgres.TrimLeft(v) == v;
    assert TeacherPostgres.TrimRight(v) == v;
    DigitValueOne(c);
    assert v[1..] == [c];
  }

  lemma DigitValueOne(c: char)
    requires IsDigit(c)
    ensures AllDigits([c]) && DigitsValue([c]) == DigitValue(c)
  {
    assert [c][1..] == [];
    assert DigitsValueFrom([c], 0) == DigitsValueFrom([], DigitValue(c));
  }

  /** One trailing blank is trimmed away. */
  lemma TrimPadded(s: string, pad: string)
    requires s != [] && s[0] != ' ' && s[|s| - 1] != ' '
    requires pad == "" || pad == " "
    ensures TeacherPostgres.Trim(s + pad) == s
  {
    var t := s + pad;
    assert t[0] == s[0];
    assert TeacherPostgres.TrimLeft(t) == t;
    if pad == " " {
      assert t[..|t| - 1] == s;
    }
    assert TeacherPostgres.TrimRight(s) == s;
  }

  /** `column=value` splits at its one '='. */
  lemma SplitsOnce(column: string, value: string)
    requires '=' !in column && '=' !in value
    ensures Split(column + ['='] + value, '=') == [column, value]
  {
    SplitAtSeparator(column, '=', value);
  }

  /** An item whose trimmed form is `column=$c` for a single non-zero digit c reads as column
      and c's value. */
  lemma ItemReads(item: string, column: string, c: char)
    requires '1' <= c <= '9'
    requires column != [] && column[0] != ' ' && column[|column| - 1] != ' ' && '=' !in column
    requires TeacherPostgres.Trim(item) == column + ['='] + ['$', c]
    ensures TeacherPostgres.ParseSetting(item) == Some(TeacherPostgres.Setting(column, DigitValue(c)))
  {
    var value := ['$', c];
    assert '=' !in value;
    SplitsOnce(column, value);
    TrimUnpadded(column);
    TrimDigitParam(c);
    var sides := Split(TeacherPostgres.Trim(item), '=');
    assert sides == [column, value];
    assert TeacherPostgres.Trim(sides[0]) == column && TeacherPostgres.Trim(sides[1]) == value;
    assert |value| == 2 && value[0] == '$';
  }

  /** An item `column=$d`, with at most one blank after it, is read back as column and d. */
  lemma ItemParses(column: string, d: nat, pad: string)
    requires column != [] && column[0] != ' ' && column[|column| - 1] != ' ' && '=' !in column
    requires 1 <= d < 10
    requires pad == "" || pad == " "
    ensures TeacherPostgres.ParseSetting(column + ['=', '$', DigitChar(d)] + pad) == Some(TeacherPostgres.Setting(column, d))
  {
    var c := DigitChar(d);
    var core := column + ['='] + ['$', c];
    assert column + ['=', '$', c] + pad == core + pad;
    assert core[|core| - 1] == c;
    TrimPadded(core, pad);
    ItemReads(core + pad, column, c);
  }

  // The clause lemmas take the column names as parameters rather than as literals, and each
  // step of the parse is its own lemma, so that the verifier never evaluates the parser on text.

  lemma ParsesOne(i1: string, s1: TeacherPostgres.Setting)
    requires TeacherPostgres.ParseSetting(i1) == Some(s1)
    ensures TeacherPostgres.ParseSettings([i1]) == Some([s1])
  {
    var items := [i1];
    assert items[0] == i1 && items[1..] == [];
    assert TeacherPostgres.ParseSettings(items[1..]) == Some([]);
    assert [s1] + [] == [s1];
  }

  lemma ParsesTwo(i1: string, i2: string, s1: TeacherPostgres.Setting, s2: TeacherPostgres.Setting)
    requires TeacherPostgres.ParseSetting(i1) == Some(s1) && TeacherPostgres.ParseSetting(i2) == Some(s2)
    ensures TeacherPostgres.ParseSettings([i1, i2]) == Some([s1, s2])
  {
    ParsesOne(i2, s2);
    var items := [i1, i2];
    assert items[0] == i1 && items[1..] == [i2];
    assert [s1] + [s2] == [s1, s2];
  }

  /** A clause whose items parse, name distinct columns, use exactly the arguments given and
      assign only known columns is applied as the assignment says. */
  lemma AppliesParsed(a: Assignment, clause: string, args: seq<string>, ss: seq<TeacherPostgres.Setting>, b: Assignment)
    requires TeacherPostgres.ParseSettings(Split(clause, ',')) == Some(ss)
    requires TeacherPostgres.DistinctColumns(ss) && TeacherPostgres.MaxParam(ss) == |args|
    requires forall i | 0 <= i < |ss| :: 1 <= ss[i].param <= |args|
    requires TeacherPostgres.Assign(a, ss, args) == Some(b)
    ensures TeacherPostgres.ApplySet(a, clause, args) == Ok(b)
  {
  }

  /** The clause `column=$1` reads as one setting of that column from $1. */
  lemma SingleItemParses(column: string)
    requires column == "title" || column == "description"
    ensures TeacherPostgres.ParseSettings(Split(column + "=$1", ',')) == Some([TeacherPostgres.Setting(column, 1)])
  {
    var parts := column + "=$1";
    assert ',' !in parts;
    assert Split(parts, ',') == [parts];
    NumberedItemParses(parts, column, 1);
    ParsesOne(parts, TeacherPostgres.Setting(column, 1));
  }

  /** A one-item clause `column=$1` with one argument sets that column. */
  lemma SingleItemClause(a: Assignment, column: string, v: string)
    requires column == "title" || column == "description"
    ensures TeacherPostgres.ApplySet(a, column + "=$1", [v]) ==
      Ok(if column == "title" then a.(title := v) else a.(description := v))
  {
    SingleItemParses(column);
    var ss := [TeacherPostgres.Setting(column, 1)];
    assert ss[1..] == [];
    var b := if column == "title" then a.(title := v) else a.(description := v);
    assert TeacherPostgres.Assign(a, ss, [v]) == Some(b);
    AppliesParsed(a, column + "=$1", [v], ss, b);
  }

  /** The clause `first=$1 ,second=$2` reads as two settings, of first from $1 and of second from $2. */
  lemma TwoItemParses(first: string, second: string)
    requires first == "title" && second == "description"
    ensures TeacherPostgres.ParseSettings(Split(first + "=$1 ," + second + "=$2", ',')) ==
      Some([TeacherPostgres.Setting(first, 1), TeacherPostgres.Setting(second, 2)])
  {
    var one, two := first + "=$1 ", second + "=$2";
    SplitsTwo(one, two);
    assert first + "=$1 ," + second + "=$2" == one + [','] + two;
    NumberedItemParses(one, first, 1);
    NumberedItemParses(two, second, 2);
    ParsesTwo(one, two, TeacherPostgres.Setting(first, 1), TeacherPostgres.Setting(second, 2));
  }

  /** The items the builder writes, `column=$1` with or without a trailing blank and
      `column=$2`, read back as column and number. */
  lemma NumberedItemParses(item: string, column: string, d: nat)
    requires column == "title" || column == "description"
    requires (d == 1 && (item == column + "=$1" || item == column + "=$1 ")) || (d == 2 && item == column + "=$2")
    ensures TeacherPostgres.ParseSetting(item) == Some(TeacherPostgres.Setting(column, d))
  {
    var pad := if item == column + "=$1 " then " " else "";
    assert DigitChar(d) == if d == 1 then '1' else '2';
    ItemParses(column, d, pad);
    assert item == column + ['=', '$', DigitChar(d)] + pad;
  }

  lemma SplitsTwo(one: string, two: string)
    requires ',' !in one && ',' !in two
    ensures Split(one + [','] + two, ',') == [one, two]
  {
    SplitAtSeparator(one, ',', two);
  }

  /** The two-item clause `first=$1 ,second=$2` sets the title from $1 and the description from $2. */
  lemma TwoItemClause(a: Assignment, first: string, second: string, title: string, description: string)
    requires first == "title" && second == "description"
    ensures TeacherPostgres.ApplySet(a, first + "=$1 ," + second + "=$2", [title, description]) ==
      Ok(a.(title := title, description := description))
  {
    TwoItemParses(first, second);
    var ss := [TeacherPostgres.Setting(first, 1), TeacherPostgres.Setting(second, 2)];
    assert ss[1..] == [ss[1]] && ss[1..][1..] == [];
    assert TeacherPostgres.MaxParam(ss[1..]) == 2;
    var args := [title, description];
    var b := a.(title := title);
    assert TeacherPostgres.Assign(b, ss[1..], args) == Some(b.(description := description));
    AppliesParsed(a, first + "=$1 ," + second + "=$2", args, ss, b.(description := description));
  }

  /** The clause the builder makes applies exactly the non-empty fields to the row. */
  lemma BuiltClauseApplies(a: Assignment, title: string, description: string, parts: string, args: seq<string>)
    requires args == (if title != "" then [title] else []) + (if description != "" then [description] else [])
    requires title != "" && description != "" ==> parts == "title=$1 ,description=$2"
    requires title != "" && description == "" ==> parts == "title=$1"
    requires title == "" && description != "" ==> parts == "description=$1"
    requires title != "" || description != ""
    ensures TeacherPostgres.ApplySet(a, parts, args) ==
      Ok(a.(title := if title != "" then title else a.title,
            description := if description != "" then description else a.description))
  {
    var first, second := "title", "description";
    if title != "" && description != "" {
      assert parts == first + "=$1 ," + second + "=$2" && args == [title, description];
      TwoItemClause(a, first, second, title, description);
    } else if title != "" {
      assert parts == first + "=$1" && args == [title];
      SingleItemClause(a, first, title);
    } else {
      assert parts == second + "=$1" && args == [description];
      SingleItemClause(a, second, description);
    }
  }

  /** Update the non-empty fields of an assignment; with neither field given, the repository
      is not called. */
  method UpdateAssignment(db: Db, assignmentId: int, title: string, description: string) returns (r: Outcome)
    requires db.Valid()
    modifies db`assignments
    ensures db.Valid()
    ensures title == "" && description == "" ==> r == Fail(ErrNoFields)
    ensures r.Fail? ==> db.assignments == old(db.assignments)
    ensures title != "" || description != "" ==>
      && r == Pass
      && db.assignments == if assignmentId in old(db.assignments)
         then old(db.assignments)[assignmentId := old(db.assignments)[assignmentId].(
                title := if title != "" then title else old(db.assignments)[assignmentId].title,
                description := if description != "" then description else old(db.assignments)[assignmentId].description)]
         else old(db.assignments)
  {
    var parts, args := BuildSetClause(title, description);
    if |parts| == 0 {
      return Fail(ErrNoFields);
    }
    BuiltClauseApplies(TeacherPostgres.RowOf(db.assignments, assignmentId), title, description, parts, args);
    r := TeacherPostgres.UpdateAssignment(db, assignmentId, parts, args);
  }

  /** The service takes the deadline before the title and description; the row gets each in its
      own column. */
  method AttachAssignment(db: Db, assignmentId: int, studentId: int, teacherId: int, deadline: Time,
                          title: string, description: string, now: Time) returns (r: Result<int>)
    requires db.Valid()
    modifies db`homeworks, db`homeworkSeq
    ensures db.Valid()
    ensures r.Ok? && r.value !in old(db.homeworks)
    ensures db.homeworks == old(db.homeworks)[r.value :=
      HomeworkRow(assignmentId, studentId, teacherId, title, description, now, deadline, StatusUnsolved)]
  {
    r := TeacherPostgres.AttachAssignment(db, assignmentId, studentId, teacherId, title, description, deadline, now);
  }

  /** Grade a homework through the submission the repository finds for it; a homework without
      a submission, or whose submission is already graded, is refused and nothing is written. */
  method GradeHomework(db: Db, homeworkId: int, grade: int, feedback: string) returns (r: Result<int>)
    requires db.Valid()
    modifies db`grades, db`gradeSeq, db`submissions, db`homeworks
    ensures db.Valid()
    ensures !old(db.HasSubmission(homeworkId)) ==> r == Err(ErrAlreadyGraded)
    ensures (old(db.HasSubmission(homeworkId)) &&
             forall s | s in old(db.submissions) && old(db.submissions)[s].homeworkId == homeworkId ::
               !old(db.submissions)[s].graded)
            ==> r.Ok?
    ensures (forall s | s in old(db.submissions) && old(db.submissions)[s].homeworkId == homeworkId ::
               old(db.submissions)[s].graded)
            ==> r == Err(ErrAlreadyGraded)
    ensures r.Err? ==> r.error == ErrAlreadyGraded && unchanged(db)
    ensures r.Ok? ==>
      && r.value !in old(db.grades) && r.value in db.grades
      && var g := db.grades[r.value];
      && g.grade == grade && g.feedback == feedback
      && g.submissionId in old(db.submissions) && !old(db.submissions)[g.submissionId].graded
      && old(db.submissions)[g.submissionId].homeworkId == homeworkId
      && g.studentId == old(db.submissions)[g.submissionId].studentId
      && db.submissions == old(db.submissions)[g.submissionId := old(db.submissions)[g.submissionId].(graded := true)]
      && (homeworkId in db.homeworks ==> db.homeworks[homeworkId].status == StatusGraded)
    ensures old(db.Lifecycle()) ==> db.Lifecycle()
  {
    var found := TeacherPostgres.CheckSubmission(db, homeworkId);
    if found.Err? || found.value.2 {
      return Err(ErrAlreadyGraded);
    }
    var (submissionId, studentId, _) := found.value;
    r := TeacherPostgres.GradeHomework(db, homeworkId, submissionId, studentId, grade, feedback);
  }

  /** Remove the assignment's stored files from disk, in row order, then its file rows. The
      first path that cannot be removed ends the call and the rows stay. */
  method DeleteFiles(db: Db, disk: Disk, assignmentId: int) returns (r: Outcome)
    modifies db`assignmentFiles, disk
    ensures var (left, failed) := RemoveAll(old(disk.files), UrlsOf(old(db.assignmentFiles), assignmentId));
      && disk.files == left
      && (r.Pass? <==> failed.None?)
      && (r.Fail? ==> r.error == "failed to delete file " + failed.value + ": remove " + failed.value + ": no such file or directory")
      && (r.Pass? ==> db.assignmentFiles == WithoutOwner(old(db.assignmentFiles), assignmentId))
      && (r.Fail? ==> db.assignmentFiles == old(db.assignmentFiles))
  {
    var paths := TeacherPostgres.GetFiles(db, assignmentId);
    var err := RemoveFiles(disk, paths);
    if err.Some? {
      return Fail(err.value);
    }
    r := TeacherPostgres.DeleteFiles(db, assignmentId);
  }

  /** Delete the assignment, and its files only when the repository reports it deleted. */
  method DeleteAssignment(db: Db, disk: Disk, assignmentId: int) returns (r: Result<bool>)
    requires db.Valid()
    modifies db`assignments, db`assignmentFiles, disk
    ensures db.Valid()
    ensures TeacherPostgres.Attached(old(db.homeworks), assignmentId) ==>
      r == Ok(false) && unchanged(db) && unchanged(disk)
    ensures !TeacherPostgres.Attached(old(db.homeworks), assignmentId) ==>
      var (left, failed) := RemoveAll(old(disk.files), UrlsOf(old(db.assignmentFiles), assignmentId));
      && db.assignments == old(db.assignments) - {assignmentId}
      && disk.files == left
      && (r == Ok(true) <==> failed.None?)
      && (r.Ok? ==> r.value && db.assignmentFiles == WithoutOwner(old(db.assignmentFiles), assignmentId))
      && (r.Err? ==> db.assignmentFiles == old(db.assignmentFiles))
  {
    var deleted := TeacherPostgres.DeleteAssignment(db, assignmentId);
    if !deleted.value {
      return deleted;
    }
    var files := DeleteFiles(db, disk, assignmentId);
    if files.Fail? {
      return Err(files.error);
    }
    r := Ok(true);
  }
}
