/** The pieces of Go's `strconv`, `strings`, `fmt` and `unicode/utf8` that the core relies on,
    stated over `string` = `seq<char>` (one `char` per Unicode code point). */
module Text {
  import opened Wrappers

  const MaxInt64: int := 0x7fff_ffff_ffff_ffff
  const MinInt64: int := -0x8000_0000_0000_0000
  const MaxUint64: int := 0xffff_ffff_ffff_ffff

  predicate IsDigit(c: char) { '0' <= c <= '9' }

  predicate AllDigits(s: string) { forall i | 0 <= i < |s| :: IsDigit(s[i]) }

  predicate HasDigit(s: string) { exists i | 0 <= i < |s| :: IsDigit(s[i]) }

  function DigitValue(c: char): nat
    requires IsDigit(c)
  {
    (c as int) - ('0' as int)
  }

  function DigitChar(d: nat): (c: char)
    requires d < 10
    ensures IsDigit(c) && DigitValue(c) == d
  {
    (('0' as int) + d) as char
  }

  // ---------------------------------------------------------------------------
  // Decimal formatting (`fmt` verb %d, `strconv.Itoa`)

  function NatToString(n: nat): (s: string)
    ensures |s| >= 1 && AllDigits(s)
    ensures s[0] == '0' ==> n == 0
    decreases n
  {
    if n < 10 then [DigitChar(n)] else NatToString(n / 10) + [DigitChar(n % 10)]
  }

  function IntToString(i: int): (s: string)
    ensures |s| >= 1
    ensures i >= 0 <==> s[0] != '-'
  {
    if i < 0 then "-" + NatToString(-i) else NatToString(i)
  }

  /** Value of a digit string read left to right, starting from `acc`. */
  function DigitsValueFrom(s: string, acc: nat): nat
    requires AllDigits(s)
    decreases |s|
  {
    if s == [] then acc else DigitsValueFrom(s[1..], acc * 10 + DigitValue(s[0]))
  }

  function DigitsValue(s: string): nat
    requires AllDigits(s)
  {
    DigitsValueFrom(s, 0)
  }

  lemma {:induction false} DigitsValueFromAppend(s: string, c: char, acc: nat)
    requires AllDigits(s) && IsDigit(c)
    ensures AllDigits(s + [c])
    ensures DigitsValueFrom(s + [c], acc) == DigitsValueFrom(s, acc) * 10 + DigitValue(c)
    decreases |s|
  {
    assert AllDigits(s + [c]);
    if s == [] {
      assert (s + [c])[1..] == [];
    } else {
      assert (s + [c])[1..] == s[1..] + [c];
      DigitsValueFromAppend(s[1..], c, acc * 10 + DigitValue(s[0]));
    }
  }

  lemma {:induction false} DigitsValueFromGrows(s: string, acc: nat)
    requires AllDigits(s)
    ensures DigitsValueFrom(s, acc) >= acc
    decreases |s|
  {
    if s != [] {
      DigitsValueFromGrows(s[1..], acc * 10 + DigitValue(s[0]));
    }
  }

  /** The digits `NatToString` prints read back as the number printed. */
  lemma {:induction false} NatToStringValue(n: nat)
    ensures DigitsValue(NatToString(n)) == n
    decreases n
  {
    if n >= 10 {
      var d, c := NatToString(n / 10), DigitChar(n % 10);
      NatToStringValue(n / 10);
      DigitsValueFromAppend(d, c, 0);
      calc {
        DigitsValue(NatToString(n));
        DigitsValueFrom(d + [c], 0);
        DigitsValueFrom(d, 0) * 10 + DigitValue(c);
        (n / 10) * 10 + n % 10;
      }
    } else {
      var c := DigitChar(n);
      assert [c][1..] == [];
      calc {
        DigitsValue(NatToString(n));
        DigitsValueFrom([c], 0);
        DigitsValueFrom([], DigitValue(c));
      }
    }
  }

  // ---------------------------------------------------------------------------
  // Parsing: an unbounded signed decimal (the model's own token fields) and Go's strconv.Atoi

  /** Optional '-', then one or more digits, nothing else. */
  function ParseDecimal(s: string): (r: Option<int>)
    ensures r.Some? ==> |s| >= 1
  {
    if |s| >= 2 && s[0] == '-' && AllDigits(s[1..]) then Some(-(DigitsValue(s[1..]) as int))
    else if |s| >= 1 && AllDigits(s) then Some(DigitsValue(s))
    else None
  }

  lemma ParseDecimalIntToString(i: int)
    ensures ParseDecimal(IntToString(i)) == Some(i)
  {
    if i < 0 {
      var d := NatToString(-i);
      assert IntToString(i)[1..] == d;
      NatToStringValue(-i);
    } else {
      NatToStringValue(i);
    }
  }

  /** Outcome of strconv.ParseUint's digit loop (base 10, 64 bits). */
  datatype UintScan = Scanned(value: nat) | SyntaxError | RangeError

  /** strconv.ParseUint's loop: characters are taken left to right; a non-digit is a syntax
      error, and the scan stops with a range error at the first digit that takes the
      accumulated value past 2^64-1, whatever follows it. */
  function ScanUint(s: string, acc: nat): (r: UintScan)
    requires acc <= MaxUint64
    ensures r.Scanned? ==> r.value <= MaxUint64
    decreases |s|
  {
    if s == [] then Scanned(acc)
    else if !IsDigit(s[0]) then SyntaxError
    else
      var n := acc * 10 + DigitValue(s[0]);
      if n > MaxUint64 then RangeError else ScanUint(s[1..], n)
  }

  lemma {:induction false} ScanUintDigits(s: string, acc: nat)
    requires acc <= MaxUint64 && AllDigits(s)
    ensures ScanUint(s, acc) == if DigitsValueFrom(s, acc) > MaxUint64 then RangeError
                                else Scanned(DigitsValueFrom(s, acc))
    decreases |s|
  {
    if s != [] {
      var n := acc * 10 + DigitValue(s[0]);
      if n > MaxUint64 {
        DigitsValueFromGrows(s[1..], n);
      } else {
        ScanUintDigits(s[1..], n);
      }
    }
  }

  /** Go's strconv.Atoi on a 64-bit platform: the parsed value and whether err == nil.
      On a syntax error the value is 0; on a range error it is the bound the text exceeds. */
  function Atoi(s: string): (r: (int, bool))
    ensures MinInt64 <= r.0 <= MaxInt64
    ensures !r.1 ==> r.0 == 0 || r.0 == MaxInt64 || r.0 == MinInt64
    ensures r.1 ==> |s| >= 1
  {
    if s == "" then (0, false)
    else
      var neg := s[0] == '-';
      var body := if s[0] == '+' || s[0] == '-' then s[1..] else s;
      if body == "" then (0, false)
      else
        match ScanUint(body, 0)
        case SyntaxError => (0, false)
        case RangeError => (if neg then MinInt64 else MaxInt64, false)
        case Scanned(u) =>
          if !neg && u > MaxInt64 then (MaxInt64, false)
          else if neg && u > -MinInt64 then (MinInt64, false)
          else (if neg then -(u as int) else u, true)
  }

  /** Atoi reads back every int64 that %d prints. */
  lemma AtoiIntToString(i: int)
    requires MinInt64 <= i <= MaxInt64
    ensures Atoi(IntToString(i)) == (i, true)
  {
    var n: nat := if i < 0 then -i else i;
    var d := NatToString(n);
    NatToStringValue(n);
    ScanUintDigits(d, 0);
    if i < 0 {
      assert IntToString(i)[1..] == d;
    }
  }

  /** Atoi succeeds exactly on an optional sign followed by digits whose value fits in int64. */
  lemma AtoiAccepts(s: string)
    ensures Atoi(s).1 <==>
      (var body := if |s| >= 1 && (s[0] == '+' || s[0] == '-') then s[1..] else s;
       |body| >= 1 && AllDigits(body) &&
       (if s[0] == '-' then DigitsValue(body) <= -MinInt64 else DigitsValue(body) <= MaxInt64))
  {
    if |s| >= 1 {
      var body := if s[0] == '+' || s[0] == '-' then s[1..] else s;
      if |body| >= 1 {
        if AllDigits(body) {
          ScanUintDigits(body, 0);
        } else {
          ScanUintRejects(body, 0);
        }
      }
    }
  }

  lemma {:induction false} ScanUintRejects(s: string, acc: nat)
    requires acc <= MaxUint64 && !AllDigits(s)
    ensures !ScanUint(s, acc).Scanned?
    decreases |s|
  {
    if IsDigit(s[0]) {
      assert !AllDigits(s[1..]) by {
        var k :| 0 <= k < |s| && !IsDigit(s[k]);
        assert k > 0 && s[1..][k - 1] == s[k];
      }
      var n := acc * 10 + DigitValue(s[0]);
      if n <= MaxUint64 {
        ScanUintRejects(s[1..], n);
      }
    }
  }

  // ---------------------------------------------------------------------------
  // strings.HasPrefix / TrimPrefix / Split / Join

  predicate HasPrefix(s: string, prefix: string) {
    |prefix| <= |s| && s[..|prefix|] == prefix
  }

  function TrimPrefix(s: string, prefix: string): (r: string)
    ensures HasPrefix(s, prefix) ==> prefix + r == s
    ensures !HasPrefix(s, prefix) ==> r == s
  {
    if HasPrefix(s, prefix) then s[|prefix|..] else s
  }

  /** strings.Split with a one-character separator: the pieces between separators, in order;
      text without the separator is one piece (so "" splits into [""]). */
  function Split(s: string, sep: char): (parts: seq<string>)
    ensures |parts| >= 1
    ensures sep !in s ==> parts == [s]
    ensures sep in s ==> |parts| >= 2
    decreases |s|
  {
    if s == [] then [[]]
    else
      var rest := Split(s[1..], sep);
      if s[0] == sep then [[]] + rest
      else
        assert sep in s ==> sep in s[1..] by {
          if sep in s {
            var k :| 0 <= k < |s| && s[k] == sep;
            assert k > 0 && s[1..][k - 1] == sep;
          }
        }
        assert sep !in s ==> rest == [s[1..]] && [s[0]] + s[1..] == s;
        [[s[0]] + rest[0]] + rest[1..]
  }

  function Join(parts: seq<string>, sep: char): (s: string)
    decreases |parts|
  {
    if |parts| == 0 then []
    else if |parts| == 1 then parts[0]
    else parts[0] + [sep] + Join(parts[1..], sep)
  }

  function Last<T>(s: seq<T>): T
    requires |s| >= 1
  {
    s[|s| - 1]
  }

  lemma {:induction false} SplitAtSeparator(a: string, sep: char, b: string)
    requires sep !in a
    ensures Split(a + [sep] + b, sep) == [a] + Split(b, sep)
    decreases |a|
  {
    var s := a + [sep] + b;
    if a == [] {
      assert s[1..] == b;
    } else {
      assert s[1..] == a[1..] + [sep] + b;
      SplitAtSeparator(a[1..], sep, b);
      assert [a[0]] + a[1..] == a;
    }
  }

  /** Splitting a joined list gives the list back when no piece holds the separator. */
  lemma {:induction false} SplitJoin(parts: seq<string>, sep: char)
    requires |parts| >= 1
    requires forall i | 0 <= i < |parts| :: sep !in parts[i]
    ensures Split(Join(parts, sep), sep) == parts
    decreases |parts|
  {
    if |parts| > 1 {
      SplitJoin(parts[1..], sep);
      SplitAtSeparator(parts[0], sep, Join(parts[1..], sep));
      assert [parts[0]] + parts[1..] == parts;
    }
  }

  /** The last piece of a split is everything after the last separator. */
  lemma {:induction false} LastOfSplit(a: string, sep: char, b: string)
    requires sep !in b
    ensures Last(Split(a + [sep] + b, sep)) == b
    decreases |a|
  {
    var s := a + [sep] + b;
    if a == [] {
      assert s[1..] == b;
    } else {
      assert s[1..] == a[1..] + [sep] + b;
      LastOfSplit(a[1..], sep, b);
    }
  }

  // ---------------------------------------------------------------------------
  // len(string) in Go counts UTF-8 bytes

  function RuneLen(c: char): (n: nat)
    ensures 1 <= n <= 4
  {
    if c as int < 0x80 then 1
    else if c as int < 0x800 then 2
    else if c as int < 0x10000 then 3
    else 4
  }

  function Utf8Len(s: string): (n: nat)
    ensures |s| <= n <= 4 * |s|
    decreases |s|
  {
    if s == [] then 0 else RuneLen(s[0]) + Utf8Len(s[1..])
  }

  predicate IsAscii(s: string) { forall i | 0 <= i < |s| :: s[i] as int < 0x80 }

  lemma {:induction false} Utf8LenAscii(s: string)
    requires IsAscii(s)
    ensures Utf8Len(s) == |s|
    decreases |s|
  {
    if s != [] {
      assert IsAscii(s[1..]) by {
        forall i | 0 <= i < |s| - 1 ensures s[1..][i] as int < 0x80 {
          assert s[1..][i] == s[i + 1];
        }
      }
      Utf8LenAscii(s[1..]);
    }
  }
}
