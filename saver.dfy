/** The file saver (`FileSaverStruct.SaveFile`): an upload is sniffed, refused unless its
    content type is on the allow-list, and stored in the upload directory under
    "<nanoseconds>_<original name>". The handlers later show a stored file under the piece of
    its path after the last underscore. */
module Saver {
  import opened Wrappers
  import opened Text

  /** The content types an upload may have, as http.DetectContentType names them. */
  const AllowedTypes: set<string> := {
    "application/octet-stream",
    "application/pdf",
    "image/jpeg",
    "image/png",
    "application/vnd.openxmlformats-officedocument.spreadsheetml.sheet",
    "application/vnd.ms-excel",
    "application/zip"
  }

  /** One part of a multipart form. `head` is what opening it and reading its first 512 bytes
      gives: the error of either step, or the content type sniffed from those bytes. */
  datatype Upload = Upload(filename: string, size: int, head: Result<string>)

  /** The stored file name: the Unix time in nanoseconds, an underscore, the original name. */
  function StoredName(nanos: int, filename: string): string
  {
    IntToString(nanos) + ['_'] + filename
  }

  /** What filepath.Join puts before a plain file name: nothing for an empty directory,
      otherwise the directory with a single trailing slash (for directories that are clean
      apart from that slash). */
  function DirPrefix(dir: string): (p: string)
    ensures dir == [] <==> p == []
    ensures p != [] ==> p[|p| - 1] == '/'
  {
    if dir == [] then []
    else if dir[|dir| - 1] == '/' then dir
    else dir + "/"
  }

  function JoinPath(dir: string, name: string): string
  {
    DirPrefix(dir) + name
  }

  /** Save one upload: the path it is stored under, or why it was refused. The clock reading
      and the outcome of writing the file (c.SaveUploadedFile) are given. */
  function SaveFile(file: Upload, uploadDir: string, nanos: int, writeError: Option<string>): (r: Result<string>)
    ensures r.Ok? <==> file.head.Ok? && file.head.value in AllowedTypes && writeError.None?
    ensures file.head.Err? ==> r == Err(file.head.error)
    ensures file.head.Ok? && file.head.value !in AllowedTypes ==> r == Err("unsupported file type: " + file.head.value)
    ensures file.head.Ok? && file.head.value in AllowedTypes && writeError.Some? ==> r == Err(writeError.value)
    ensures r.Ok? ==> r.value == JoinPath(uploadDir, StoredName(nanos, file.filename))
    ensures r.Ok? ==> HasPrefix(r.value, DirPrefix(uploadDir))
    ensures r.Ok? && '/' !in file.filename ==> OriginalName(r.value) == file.filename
  {
    if file.head.Err? then Err(file.head.error)
    else if file.head.value !in AllowedTypes then Err("unsupported file type: " + file.head.value)
    else
      var path := JoinPath(uploadDir, StoredName(nanos, file.filename));
      if writeError.Some? then Err(writeError.value)
      else
        assert path[..|DirPrefix(uploadDir)|] == DirPrefix(uploadDir);
        assert '/' !in file.filename ==> OriginalName(path) == file.filename by {
          if '/' !in file.filename {
            OriginalNameRecovers(uploadDir, nanos, file.filename);
          }
        }
        Ok(path)
  }

  // ---------------------------------------------------------------------------
  // Pieces of a path

  /** Everything after the last `c`, or all of `s` when it holds no `c`. */
  function AfterLast(s: string, c: char): (t: string)
    ensures c !in t && |t| <= |s|
    ensures c !in s ==> t == s
    decreases |s|
  {
    if s == [] then []
    else if s[|s| - 1] == c then []
    else
      assert s == s[..|s| - 1] + [s[|s| - 1]];
      AfterLast(s[..|s| - 1], c) + [s[|s| - 1]]
  }

  lemma {:induction false} AfterLastSeparator(a: string, c: char, b: string)
    requires c !in b
    ensures AfterLast(a + [c] + b, c) == b
    decreases |b|
  {
    var s := a + [c] + b;
    if b != [] {
      var b' := b[..|b| - 1];
      assert s[..|s| - 1] == a + [c] + b';
      AfterLastSeparator(a, c, b');
      assert b' + [b[|b| - 1]] == b;
    }
  }

  /** Everything before the first `c`, or all of `s` when it holds no `c`. */
  function BeforeFirst(s: string, c: char): (t: string)
    ensures c !in t && |t| <= |s|
    decreases |s|
  {
    if s == [] || s[0] == c then [] else [s[0]] + BeforeFirst(s[1..], c)
  }

  /** Everything after the first `c`, or all of `s` when it holds no `c`. */
  function AfterFirst(s: string, c: char): (t: string)
    ensures c !in s ==> t == s
  {
    if c in s then Drop(s, c) else s
  }

  function Drop(s: string, c: char): (t: string)
    decreases |s|
  {
    if s == [] then [] else if s[0] == c then s[1..] else Drop(s[1..], c)
  }

  lemma {:induction false} FirstSeparator(a: string, c: char, b: string)
    requires c !in a
    ensures BeforeFirst(a + [c] + b, c) == a
    ensures AfterFirst(a + [c] + b, c) == b
    decreases |a|
  {
    var s := a + [c] + b;
    assert c in s by { assert s[|a|] == c; }
    if a == [] {
      assert s[1..] == b;
    } else {
      assert s[1..] == a[1..] + [c] + b;
      FirstSeparator(a[1..], c, b);
      assert [a[0]] + a[1..] == a;
    }
  }

  /** A decimal number held by a stored name has neither underscores nor slashes. */
  lemma IntToStringPlain(i: int)
    ensures '_' !in IntToString(i) && '/' !in IntToString(i)
  {
    var d := NatToString(if i < 0 then -i else i);
    assert forall k | 0 <= k < |d| :: IsDigit(d[k]);
    if i < 0 {
      assert IntToString(i) == "-" + d;
      assert forall k | 0 <= k < |IntToString(i)| :: IntToString(i)[k] == '-' || IsDigit(IntToString(i)[k]);
    }
  }

  /** The stored path, read back: the base name starts with the decimal time and an underscore. */
  lemma StoredPathParts(dir: string, nanos: int, filename: string)
    requires '/' !in filename
    ensures var base := AfterLast(JoinPath(dir, StoredName(nanos, filename)), '/');
      base == StoredName(nanos, filename)
      && BeforeFirst(base, '_') == IntToString(nanos)
      && AfterFirst(base, '_') == filename
  {
    var name := StoredName(nanos, filename);
    IntToStringPlain(nanos);
    assert '/' !in name by {
      assert forall k | 0 <= k < |name| :: name[k] != '/' by {
        forall k | 0 <= k < |name| ensures name[k] != '/' {
          if k < |IntToString(nanos)| {
            assert name[k] == IntToString(nanos)[k];
          } else if k > |IntToString(nanos)| {
            assert name[k] == filename[k - |IntToString(nanos)| - 1];
          }
        }
      }
    }
    var p := DirPrefix(dir);
    if p != [] {
      assert p == p[..|p| - 1] + ['/'];
      AfterLastSeparator(p[..|p| - 1], '/', name);
    }
    FirstSeparator(IntToString(nanos), '_', filename);
  }

  /** Two uploads stored in one directory at different instants get different paths, so a
      later one never overwrites an earlier one. */
  lemma DistinctInstantsDistinctPaths(dir: string, n1: int, f1: string, n2: int, f2: string)
    requires '/' !in f1 && '/' !in f2 && n1 != n2
    ensures JoinPath(dir, StoredName(n1, f1)) != JoinPath(dir, StoredName(n2, f2))
  {
    StoredPathParts(dir, n1, f1);
    StoredPathParts(dir, n2, f2);
    ParseDecimalIntToString(n1);
    ParseDecimalIntToString(n2);
  }

  // ---------------------------------------------------------------------------
  // The name a file is shown under

  /** As the handlers compute it: the piece of the path after its last underscore. */
  function DisplayName(path: string): string
  {
    Last(Split(path, '_'))
  }

  /** The shown name is the original one whenever that has no underscore. */
  lemma DisplayNamePlain(dir: string, nanos: int, filename: string)
    requires '_' !in filename
    ensures DisplayName(JoinPath(dir, StoredName(nanos, filename))) == filename
  {
    var pre := DirPrefix(dir) + IntToString(nanos);
    assert JoinPath(dir, StoredName(nanos, filename)) == pre + ['_'] + filename;
    LastOfSplit(pre, '_', filename);
  }

  /** An original name with an underscore loses everything up to its last underscore: a file
      uploaded as "my_report.pdf" is shown as "report.pdf". */
  lemma DisplayNameTruncates(dir: string, nanos: int, first: string, last: string)
    requires '_' !in last
    ensures DisplayName(JoinPath(dir, StoredName(nanos, first + ['_'] + last))) == last
    ensures last != first + ['_'] + last
  {
    var pre := DirPrefix(dir) + IntToString(nanos) + ['_'] + first;
    assert JoinPath(dir, StoredName(nanos, first + ['_'] + last)) == pre + ['_'] + last;
    LastOfSplit(pre, '_', last);
  }

  /** Corrected: the base name with the time and its underscore cut off. */
  function OriginalName(path: string): (name: string)
    ensures |name| <= |path|
  {
    var base := AfterLast(path, '/');
    if '_' in base then
      assert |Drop(base, '_')| <= |base| by { DropShorter(base, '_'); }
      AfterFirst(base, '_')
    else base
  }

  lemma {:induction false} DropShorter(s: string, c: char)
    ensures |Drop(s, c)| <= |s|
    decreases |s|
  {
    if s != [] && s[0] != c {
      DropShorter(s[1..], c);
    }
  }

  /** The corrected name is the uploaded file's own name, underscores and all. */
  lemma OriginalNameRecovers(dir: string, nanos: int, filename: string)
    requires '/' !in filename
    ensures OriginalName(JoinPath(dir, StoredName(nanos, filename))) == filename
  {
    StoredPathParts(dir, nanos, filename);
    var base := AfterLast(JoinPath(dir, StoredName(nanos, filename)), '/');
    assert base[|IntToString(nanos)|] == '_';
  }
}
