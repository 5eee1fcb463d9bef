/** The two loops the handlers share over files: saving the uploaded parts of a multipart form
    one by one (saver first, then the file row), and reading stored files back into the
    `{"filePath", "content"}` records of a response. */
module Uploads {
  import opened Wrappers
  import opened Gin
  import Saver
  import Api

  /** Whose file rows a save loop writes: an assignment's or a submission's. */
  datatype Owner = OfAssignment | OfSubmission

  function RowCall(owner: Owner, id: int, path: string): Api.Call {
    match owner
    case OfAssignment => Api.SaveAssignmentFile(id, path)
    case OfSubmission => Api.SaveSubmissionFile(id, path)
  }

  /** The calls a save loop made and whether it got to the end. */
  datatype Saving = Saving(calls: seq<Api.Call>, outcome: Outcome)

  /** The environment of a save loop: the saver, the row writer, whose rows, the owner's id,
      the upload directory, and whether zero-size parts are skipped. */
  datatype Loop = Loop(
    saveUpload: (Saver.Upload, string) -> Result<string>,
    saveRow: (int, string) -> Outcome,
    owner: Owner,
    id: int,
    dir: string,
    skipEmpty: bool)

  predicate Skipped(s: Loop, file: Saver.Upload) {
    s.skipEmpty && file.size == 0
  }

  /** One turn of the loop: store the part, then record its path under the owner. */
  function SaveOne(s: Loop, file: Saver.Upload): (r: Saving)
  {
    if Skipped(s, file) then Saving([], Pass)
    else
      var stored := s.saveUpload(file, s.dir);
      var upload := Api.SaveUpload(file.filename, s.dir);
      if stored.Err? then Saving([upload], Fail(stored.error))
      else Saving([upload, RowCall(s.owner, s.id, stored.value)], s.saveRow(s.id, stored.value))
  }

  /** The whole loop: turn by turn, stopping at the first error. */
  function SaveAll(s: Loop, files: seq<Saver.Upload>): (r: Saving)
    decreases |files|
  {
    if files == [] then Saving([], Pass)
    else
      var first := SaveOne(s, files[0]);
      if first.outcome.Fail? then first
      else
        var rest := SaveAll(s, files[1..]);
        Saving(first.calls + rest.calls, rest.outcome)
  }

  /** The loop as the handlers run it. */
  method SaveUploads(s: Loop, files: seq<Saver.Upload>) returns (calls: seq<Api.Call>, outcome: Outcome)
    ensures Saving(calls, outcome) == SaveAll(s, files)
  {
    calls := [];
    var i := 0;
    while i < |files|
      invariant 0 <= i <= |files|
      invariant SaveAll(s, files) == Saving(calls + SaveAll(s, files[i..]).calls, SaveAll(s, files[i..]).outcome)
    {
      var file := files[i];
      SaveAllFrom(s, files, i);
      ghost var rest := SaveAll(s, files[i + 1..]);
      if Skipped(s, file) {
        assert [] + rest.calls == rest.calls;
        i := i + 1;
        continue;
      }
      var stored := s.saveUpload(file, s.dir);
      ghost var before := calls;
      calls := calls + [Api.SaveUpload(file.filename, s.dir)];
      if stored.Err? {
        return calls, Fail(stored.error);
      }
      var row := RowCall(s.owner, s.id, stored.value);
      calls := calls + [row];
      var saved := s.saveRow(s.id, stored.value);
      if saved.Fail? {
        return calls, saved;
      }
      assert SaveOne(s, file) == Saving([Api.SaveUpload(file.filename, s.dir)] + [row], Pass);
      assert SaveAll(s, files[i..]) == Saving([Api.SaveUpload(file.filename, s.dir)] + [row] + rest.calls, rest.outcome);
      AppendThree(before, [Api.SaveUpload(file.filename, s.dir)], [row], rest.calls);
      i := i + 1;
    }
    assert files[i..] == [];
    outcome := Pass;
  }

  /** SaveAll from index i, one turn unfolded. */
  lemma SaveAllFrom(s: Loop, files: seq<Saver.Upload>, i: nat)
    requires i < |files|
    ensures var first, rest := SaveOne(s, files[i]), SaveAll(s, files[i + 1..]);
      SaveAll(s, files[i..]) == if first.outcome.Fail? then first else Saving(first.calls + rest.calls, rest.outcome)
  {
    assert files[i..][0] == files[i] && files[i..][1..] == files[i + 1..];
  }

  lemma AppendThree<T>(a: seq<T>, b: seq<T>, c: seq<T>, d: seq<T>)
    ensures a + b + c + d == a + (b + c + d)
  {
  }

  /** The names of the parts the loop is to store, in order. */
  function KeptNames(s: Loop, files: seq<Saver.Upload>): (names: seq<string>)
    ensures |names| <= |files|
    decreases |files|
  {
    if files == [] then []
    else if Skipped(s, files[0]) then KeptNames(s, files[1..])
    else [files[0].filename] + KeptNames(s, files[1..])
  }

  /** The names the loop handed to the saver, in order. */
  function UploadedNames(calls: seq<Api.Call>): seq<string>
  {
    if calls == [] then []
    else if calls[0].SaveUpload? then [calls[0].filename] + UploadedNames(calls[1..])
    else UploadedNames(calls[1..])
  }

  lemma {:induction false} UploadedNamesAppend(a: seq<Api.Call>, b: seq<Api.Call>)
    ensures UploadedNames(a + b) == UploadedNames(a) + UploadedNames(b)
    decreases |a|
  {
    if a == [] {
      assert a + b == b;
    } else {
      assert (a + b)[0] == a[0];
      assert (a + b)[1..] == a[1..] + b;
      UploadedNamesAppend(a[1..], b);
    }
  }

  /** Every kept part reaches the saver when the loop completes, in form order, and none that
      was skipped does; when it stops early, the parts it reached are the first kept ones. */
  lemma {:induction false} SaveAllUploadsKept(s: Loop, files: seq<Saver.Upload>)
    ensures SaveAll(s, files).outcome.Pass? ==> UploadedNames(SaveAll(s, files).calls) == KeptNames(s, files)
    ensures UploadedNames(SaveAll(s, files).calls) <= KeptNames(s, files)
    decreases |files|
  {
    if files != [] {
      var first := SaveOne(s, files[0]);
      SaveAllUploadsKept(s, files[1..]);
      if !Skipped(s, files[0]) {
        assert UploadedNames(first.calls) == [files[0].filename] by {
          var upload := Api.SaveUpload(files[0].filename, s.dir);
          if |first.calls| == 2 {
            var row := first.calls[1];
            assert !row.SaveUpload?;
            assert UploadedNames([row]) == [] by {
              assert [row][1..] == [];
            }
            assert first.calls == [upload, row] && [upload, row][1..] == [row];
          } else {
            assert first.calls == [upload] && [upload][1..] == [];
          }
        }
      }
      if first.outcome.Pass? {
        UploadedNamesAppend(first.calls, SaveAll(s, files[1..]).calls);
      }
    }
  }

  /** Every file row the loop writes belongs to its owner. */
  predicate RowsOf(owner: Owner, id: int, calls: seq<Api.Call>) {
    forall c | c in calls ::
      || c.SaveUpload?
      || (c.SaveAssignmentFile? && owner == OfAssignment && c.assignmentId == id)
      || (c.SaveSubmissionFile? && owner == OfSubmission && c.submissionId == id)
  }

  lemma {:induction false} SaveAllRowsOfOwner(s: Loop, files: seq<Saver.Upload>)
    ensures RowsOf(s.owner, s.id, SaveAll(s, files).calls)
    decreases |files|
  {
    if files != [] {
      SaveAllRowsOfOwner(s, files[1..]);
    }
  }

  /** Once the loop fails, the parts after the one that failed are never looked at. */
  lemma {:induction false} SaveAllStops(s: Loop, files: seq<Saver.Upload>, more: seq<Saver.Upload>)
    requires SaveAll(s, files).outcome.Fail?
    ensures SaveAll(s, files + more) == SaveAll(s, files)
    decreases |files|
  {
    assert (files + more)[0] == files[0];
    if SaveOne(s, files[0]).outcome.Pass? {
      assert (files + more)[1..] == files[1..] + more;
      SaveAllStops(s, files[1..], more);
    }
  }

  /** A form whose parts are all empty saves nothing when empty parts are skipped. */
  lemma {:induction false} EmptyPartsSaveNothing(s: Loop, files: seq<Saver.Upload>)
    requires s.skipEmpty && forall k | 0 <= k < |files| :: files[k].size == 0
    ensures SaveAll(s, files) == Saving([], Pass)
    decreases |files|
  {
    if files != [] {
      EmptyPartsSaveNothing(s, files[1..]);
    }
  }

  // ---------------------------------------------------------------------------
  // Reading files back

  /** One file of a response: the shown name and the base64 content. */
  function FileEntry(path: string, content: string): Json {
    JObject(map["filePath" := JStr(Saver.DisplayName(path)), "content" := JStr(content)])
  }

  /** The index of the first file that cannot be read, or |paths| when all can. */
  function FirstUnreadable(readFile: string -> Result<string>, paths: seq<string>): (k: nat)
    ensures k <= |paths|
    ensures forall j | 0 <= j < k :: readFile(paths[j]).Ok?
    ensures k < |paths| ==> readFile(paths[k]).Err?
  {
    FirstUnreadableFrom(readFile, paths, 0)
  }

  /** The index of the first file at or after from that cannot be read. */
  function FirstUnreadableFrom(readFile: string -> Result<string>, paths: seq<string>, from: nat): (k: nat)
    requires from <= |paths|
    ensures from <= k <= |paths|
    ensures forall j | from <= j < k :: readFile(paths[j]).Ok?
    ensures k < |paths| ==> readFile(paths[k]).Err?
    decreases |paths| - from
  {
    if from == |paths| then from
    else if readFile(paths[from]).Err? then from
    else FirstUnreadableFrom(readFile, paths, from + 1)
  }

  /** The records of files that could all be read. */
  function Entries(readFile: string -> Result<string>, paths: seq<string>): seq<Json>
    requires FirstUnreadable(readFile, paths) == |paths|
  {
    seq(|paths|, i requires 0 <= i < |paths| => FileEntry(paths[i], readFile(paths[i]).value))
  }

  /** ReadFile calls, one per path, in order. */
  function ReadCalls(paths: seq<string>): (calls: seq<Api.Call>)
    ensures |calls| == |paths| && forall i | 0 <= i < |paths| :: calls[i] == Api.ReadFile(paths[i])
  {
    seq(|paths|, i requires 0 <= i < |paths| => Api.ReadFile(paths[i]))
  }

  /** The loop of getAssignment, getTeacherHomework and getStudentHomework: read every file in
      order into a slice of records, giving up at the first file that cannot be read. The
      calls made are one ReadFile per path up to and including the one that failed. */
  method ReadFiles(readFile: string -> Result<string>, paths: seq<string>)
    returns (calls: seq<Api.Call>, data: Result<seq<Json>>)
    ensures var k := FirstUnreadable(readFile, paths);
      calls == ReadCalls(paths[..if k < |paths| then k + 1 else k])
    ensures data.Ok? <==> FirstUnreadable(readFile, paths) == |paths|
    ensures data.Err? ==> data.error == readFile(paths[FirstUnreadable(readFile, paths)]).error
    ensures data.Ok? ==> |data.value| == |paths|
    ensures data.Ok? ==> forall i | 0 <= i < |paths| :: data.value[i] == FileEntry(paths[i], readFile(paths[i]).value)
    ensures data.Ok? ==> data.value == Entries(readFile, paths)
  {
    var read;
    read, data := ReadEntries(readFile, paths, FileEntry);
    if data.Ok? {
      EntriesFromRecords(readFile, paths, data.value);
    }
    calls := ReadCalls(paths[..read]);
  }

  /** The loop itself, with the record built from each path and its content left as a
      parameter: it stops one past the first unreadable file and otherwise yields one record
      per path, in order. */
  method ReadEntries(readFile: string -> Result<string>, paths: seq<string>, entry: (string, string) -> Json)
    returns (read: nat, data: Result<seq<Json>>)
    ensures var k := FirstUnreadable(readFile, paths);
      read == if k < |paths| then k + 1 else k
    ensures data.Ok? <==> FirstUnreadable(readFile, paths) == |paths|
    ensures data.Err? ==> data.error == readFile(paths[FirstUnreadable(readFile, paths)]).error
    ensures data.Ok? ==> |data.value| == |paths|
    ensures data.Ok? ==> forall j | 0 <= j < |paths| :: data.value[j] == entry(paths[j], readFile(paths[j]).value)
  {
    ghost var k := FirstUnreadable(readFile, paths);
    var a := new Json[|paths|](_ => JInt(0));
    var i := 0;
    while i < |paths|
      invariant 0 <= i <= k
      invariant forall j | 0 <= j < i :: a[j] == entry(paths[j], readFile(paths[j]).value)
    {
      var content := readFile(paths[i]);
      if content.Err? {
        FirstErrorIsFirstUnreadable(readFile, paths, i);
        return i + 1, Err(content.error);
      }
      a[i] := entry(paths[i], content.value);
      i := i + 1;
    }
    read := i;
    data := Ok(a[..]);
  }

  /** A file that fails to read, with every earlier one readable, is the first unreadable one. */
  lemma FirstErrorIsFirstUnreadable(readFile: string -> Result<string>, paths: seq<string>, i: nat)
    requires i <= FirstUnreadable(readFile, paths) && i < |paths|
    requires readFile(paths[i]).Err?
    ensures FirstUnreadable(readFile, paths) == i
  {
  }

  /** Records built one per readable path are the entries of those paths. */
  lemma EntriesFromRecords(readFile: string -> Result<string>, paths: seq<string>, s: seq<Json>)
    requires FirstUnreadable(readFile, paths) == |paths| == |s|
    requires forall j | 0 <= j < |s| :: s[j] == FileEntry(paths[j], readFile(paths[j]).value)
    ensures s == Entries(readFile, paths)
  {
  }

  /** A file stored by the saver is shown under its original name when that has no
      underscore. */
  lemma StoredFileShownByName(dir: string, nanos: int, filename: string, content: string)
    requires '_' !in filename
    ensures FileEntry(Saver.JoinPath(dir, Saver.StoredName(nanos, filename)), content).fields["filePath"] == JStr(filename)
  {
    Saver.DisplayNamePlain(dir, nanos, filename);
  }
}
