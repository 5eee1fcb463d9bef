/** The two custom validators the handlers register: `strong_password` and `valid_name`. */
module Validate {
  import opened Text

  /** len(password) counts UTF-8 bytes; the password must hold 8 to 64 of them and an ASCII digit. */
  function StrongPassword(password: string): (ok: bool)
    ensures Utf8Len(password) < 8 || Utf8Len(password) > 64 ==> !ok
    ensures ok <==> 8 <= Utf8Len(password) <= 64 && HasDigit(password)
  {
    if Utf8Len(password) < 8 || Utf8Len(password) > 64 then false
    else HasDigit(password)
  }

  lemma StrongPasswordExamples()
    ensures !StrongPassword("1234") && !StrongPassword("123")
    ensures StrongPassword("qwerty123")
  {
    assert IsDigit("qwerty123"[6]);
  }

  /** The character classes of the name pattern: [А-ЯЁA-Z] and [а-яёa-z]. */
  predicate IsUpper(c: char) { ('А' <= c <= 'Я') || c == 'Ё' || ('A' <= c <= 'Z') }
  predicate IsLower(c: char) { ('а' <= c <= 'я') || c == 'ё' || ('a' <= c <= 'z') }

  // The pattern ^[А-ЯЁA-Z][а-яёa-z]+(?: [А-ЯЁA-Z][а-яёa-z]+)*$ as the automaton the regular
  // expression engine runs: state 0 expects a capital, 1 the first small letter, 2 further small
  // letters or the blank before the next word; only state 2 accepts.

  function Step(state: nat, c: char): (next: int)
    ensures next == -1 || next <= 2
  {
    if state == 0 && IsUpper(c) then 1
    else if (state == 1 || state == 2) && IsLower(c) then 2
    else if state == 2 && c == ' ' then 0
    else -1
  }

  predicate Accepts(state: nat, s: string)
    decreases |s|
  {
    if s == [] then state == 2
    else
      var next := Step(state, s[0]);
      next >= 0 && Accepts(next, s[1..])
  }

  /** validName: the empty string is refused up front; otherwise the whole name must match. */
  function ValidName(name: string): (ok: bool)
    ensures ok ==> name != ""
    ensures ok <==> forall w | w in Split(name, ' ') :: Word(w)
  {
    NameIsWords(name);
    if |name| == 0 then false else Accepts(0, name)
  }

  /** One word of a name: a capital followed by at least one small letter. */
  predicate Word(w: string) {
    |w| >= 2 && IsUpper(w[0]) && forall i | 1 <= i < |w| :: IsLower(w[i])
  }

  predicate AllLower(s: string) { forall i | 0 <= i < |s| :: IsLower(s[i]) }

  /** Inside a word, the automaton accepts a blank-free rest iff it is all small letters. */
  lemma {:induction false} LowersThenEnd(s: string)
    requires ' ' !in s
    ensures Accepts(2, s) <==> AllLower(s)
    decreases |s|
  {
    if s != [] {
      LowersThenEnd(s[1..]);
      assert AllLower(s) <==> IsLower(s[0]) && AllLower(s[1..]) by {
        if IsLower(s[0]) && AllLower(s[1..]) {
          forall i | 0 <= i < |s| ensures IsLower(s[i]) {
            if i > 0 { assert s[i] == s[1..][i - 1]; }
          }
        }
      }
    }
  }

  /** Inside a word, the automaton gets past the next blank iff the letters before it are small,
      and then starts over on the next word. */
  lemma {:induction false} LowersThenBlank(s: string, rest: string)
    requires ' ' !in s
    ensures Accepts(2, s + [' '] + rest) <==> AllLower(s) && Accepts(0, rest)
    decreases |s|
  {
    var t := s + [' '] + rest;
    if s == [] {
      assert t[1..] == rest;
    } else {
      assert t[1..] == s[1..] + [' '] + rest;
      LowersThenBlank(s[1..], rest);
      assert AllLower(s) <==> IsLower(s[0]) && AllLower(s[1..]) by {
        if IsLower(s[0]) && AllLower(s[1..]) {
          forall i | 0 <= i < |s| ensures IsLower(s[i]) {
            if i > 0 { assert s[i] == s[1..][i - 1]; }
          }
        }
      }
    }
  }

  /** A word read from the start: a capital, a first small letter, then the rest of the word. */
  lemma WordStart(w: string)
    ensures Word(w) <==> |w| >= 2 && IsUpper(w[0]) && IsLower(w[1]) && AllLower(w[2..])
  {
    if |w| >= 2 && IsUpper(w[0]) && IsLower(w[1]) && AllLower(w[2..]) {
      forall i | 1 <= i < |w| ensures IsLower(w[i]) {
        if i >= 2 { assert w[i] == w[2..][i - 2]; }
      }
    }
  }

  /** The first blank of a name that has one. */
  lemma {:induction false} FirstBlank(s: string) returns (k: nat)
    requires ' ' in s
    ensures k < |s| && s[k] == ' ' && ' ' !in s[..k]
    decreases |s|
  {
    if s[0] == ' ' {
      k := 0;
    } else {
      assert ' ' in s[1..] by {
        var j :| 0 <= j < |s| && s[j] == ' ';
        assert s[1..][j - 1] == ' ';
      }
      var j := FirstBlank(s[1..]);
      k := j + 1;
      assert s[..k] == [s[0]] + s[1..][..j];
    }
  }

  /** A name without blanks is accepted iff it is one word. */
  lemma OneWord(s: string)
    requires ' ' !in s
    ensures Accepts(0, s) <==> Word(s)
  {
    WordStart(s);
    if |s| >= 2 {
      assert ' ' !in s[2..];
      LowersThenEnd(s[2..]);
      assert s[1..][1..] == s[2..];
    }
  }

  /** A name that starts with a blank-free stretch and a blank: that stretch must be a word and
      the automaton starts over after the blank. */
  lemma FirstWord(w: string, rest: string)
    requires ' ' !in w
    ensures Accepts(0, w + [' '] + rest) <==> Word(w) && Accepts(0, rest)
  {
    var s := w + [' '] + rest;
    WordStart(w);
    if |w| >= 2 {
      assert ' ' !in w[2..];
      LowersThenBlank(w[2..], rest);
      assert s[1..][1..] == w[2..] + [' '] + rest;
    } else if |w| == 1 {
      assert s[1..] == [' '] + rest;
    } else {
      assert s[0] == ' ';
    }
  }

  /** The automaton accepts from state 0 exactly the blank-separated sequences of words. */
  lemma {:induction false} AcceptsWords(s: string)
    ensures Accepts(0, s) <==> forall w | w in Split(s, ' ') :: Word(w)
    decreases |s|
  {
    if ' ' !in s {
      OneWord(s);
    } else {
      var k := FirstBlank(s);
      var w, rest := s[..k], s[k + 1..];
      assert s == w + [' '] + rest;
      SplitAtSeparator(w, ' ', rest);
      AcceptsWords(rest);
      FirstWord(w, rest);
      var parts := Split(s, ' ');
      assert parts == [w] + Split(rest, ' ');
      assert (forall x | x in parts :: Word(x)) <==> Word(w) && forall x | x in Split(rest, ' ') :: Word(x);
    }
  }

  lemma NameIsWords(name: string)
    ensures (|name| != 0 && Accepts(0, name)) <==> forall w | w in Split(name, ' ') :: Word(w)
  {
    AcceptsWords(name);
    if |name| == 0 {
      assert Split(name, ' ') == [""];
      assert "" in Split(name, ' ') && !Word("");
    }
  }

  /** `len(name) == 0` is already refused by the pattern, which needs a capital to start. */
  lemma EmptyCheckRedundant(name: string)
    ensures ValidName(name) == Accepts(0, name)
  {
    if name == [] {
      assert !Accepts(0, name);
    }
  }

  /** Two words joined by one blank form a valid name. */
  lemma TwoWords(first: string, last: string)
    requires Word(first) && Word(last)
    ensures ValidName(first + [' '] + last)
  {
    assert ' ' !in first && ' ' !in last by {
      assert forall i | 0 <= i < |first| :: first[i] != ' ';
      assert forall i | 0 <= i < |last| :: last[i] != ' ';
    }
    FirstWord(first, last);
    OneWord(last);
    EmptyCheckRedundant(first + [' '] + last);
  }

  lemma ValidNameAccepts()
    ensures ValidName("Михаил Иванович")
  {
    var first, last := "Михаил", "Иванович";
    assert Word(first) && Word(last);
    TwoWords(first, last);
    assert first + [' '] + last == "Михаил Иванович";
  }

  /** Reading a name letter by letter: a valid name starts with a capital, ends with a small
      letter, and every blank in it is followed by a capital (so no two blanks meet). */
  lemma {:induction false} AcceptedShape(state: nat, s: string, i: nat)
    requires Accepts(state, s) && i < |s|
    ensures state == 0 ==> IsUpper(s[0])
    ensures IsLower(s[|s| - 1])
    ensures s[i] == ' ' ==> i + 1 < |s| && IsUpper(s[i + 1])
    decreases |s|
  {
    var next := Step(state, s[0]);
    if |s| > 1 {
      if i == 0 {
        AcceptedShape(next, s[1..], 0);
      } else {
        AcceptedShape(next, s[1..], i - 1);
      }
      assert s[1..][|s[1..]| - 1] == s[|s| - 1];
    }
  }

  lemma ValidNameShape(name: string)
    requires ValidName(name)
    ensures IsUpper(name[0]) && IsLower(name[|name| - 1])
    ensures forall i | 0 <= i < |name| && name[i] == ' ' :: i + 1 < |name| && IsUpper(name[i + 1])
  {
    EmptyCheckRedundant(name);
    AcceptedShape(0, name, 0);
    forall i | 0 <= i < |name| && name[i] == ' '
      ensures i + 1 < |name| && IsUpper(name[i + 1])
    {
      AcceptedShape(0, name, i);
    }
  }

  lemma ValidNameRefuses(name: string)
    requires name == "" || !IsUpper(name[0]) || name[|name| - 1] == ' ' ||
             exists i | 0 <= i < |name| - 1 :: name[i] == ' ' && name[i + 1] == ' '
    ensures !ValidName(name)
  {
    if ValidName(name) {
      ValidNameShape(name);
    }
  }
}
