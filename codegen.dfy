/** The code-word generator: student logins are "<adjective>_<noun><number>" words drawn from
    two word lists, each with a random 8-symbol password stored encrypted; the pool is refilled
    with 3000 words when none is used yet or more than 3000 are. The random draws and the
    encryption are given as parameters. */
module Codegen {
  import opened Wrappers
  import opened Text
  import opened Tables
  import GeneratorPostgres

  /** The 62 password symbols: the small letters, the capitals, the digits. */
  const Symbols: string := SmallLetters + Capitals + Digits
  const SmallLetters: string := "abcdefghijklmnopqrstuvwxyz"
  const Capitals: string := "ABCDEFGHIJKLMNOPQRSTUVWXYZ"
  const Digits: string := "0123456789"
  const Length: nat := 8
  const Batch: nat := 3000
  /** The message of the panic math/rand raises for Intn(0). */
  const ErrIntnPanic: string := "invalid argument to Intn"

  // ---------------------------------------------------------------------------
  // Passwords

  /** The password spelled by the draws of math/rand.Intn(60), one per symbol. */
  function PasswordOf(draws: seq<int>): (p: string)
    requires forall i | 0 <= i < |draws| :: 0 <= draws[i] < 60
    ensures |p| == |draws|
  {
    seq(|draws|, i requires 0 <= i < |draws| => Symbols[draws[i]])
  }

  /** generateSimplePassword: eight symbols, written one after the other into a builder. */
  method GenerateSimplePassword(draws: seq<int>) returns (p: string)
    requires |draws| == Length
    requires forall i | 0 <= i < |draws| :: 0 <= draws[i] < 60
    ensures p == PasswordOf(draws)
  {
    p := [];
    var i := 0;
    while i < Length
      invariant 0 <= i <= Length
      invariant p == PasswordOf(draws[..i])
    {
      p := p + [Symbols[draws[i]]];
      i := i + 1;
      assert draws[..i] == draws[..i - 1] + [draws[i - 1]];
    }
    assert draws[..Length] == draws;
  }

  /** A generated password has eight symbols, letters and digits only, and, as the draws stop
      at 60 of the 62 symbols, never the digits 8 or 9. */
  lemma PasswordShape(draws: seq<int>)
    requires |draws| == Length
    requires forall i | 0 <= i < |draws| :: 0 <= draws[i] < 60
    ensures |PasswordOf(draws)| == Length
    ensures forall i | 0 <= i < Length :: PasswordOf(draws)[i] in Symbols
    ensures forall i | 0 <= i < Length :: PasswordOf(draws)[i] != '8' && PasswordOf(draws)[i] != '9'
  {
    forall i | 0 <= i < Length
      ensures PasswordOf(draws)[i] != '8' && PasswordOf(draws)[i] != '9'
    {
      DrawnSymbol(draws[i]);
    }
  }

  /** Symbols 0 .. 59: every symbol except the last two digits. */
  lemma DrawnSymbol(k: int)
    requires 0 <= k < 60
    ensures Symbols[k] != '8' && Symbols[k] != '9'
  {
    if k < 26 {
      SmallLettersNotDigits();
      assert Symbols[k] in SmallLetters;
    } else if k < 52 {
      assert Symbols[k] == (Capitals + Digits)[k - 26];
      CapitalsNotDigits();
      assert Symbols[k] in Capitals;
    } else {
      assert Symbols[k] == Digits[k - 52];
      LowDigits();
      assert Symbols[k] in Digits[..8];
    }
  }

  lemma SmallLettersNotDigits()
    ensures '8' !in SmallLetters && '9' !in SmallLetters
  {
  }

  lemma CapitalsNotDigits()
    ensures '8' !in Capitals && '9' !in Capitals
  {
  }

  lemma LowDigits()
    ensures '8' !in Digits[..8] && '9' !in Digits[..8]
  {
  }

  // ---------------------------------------------------------------------------
  // Code words

  /** generateCodeWord with the three draws given: an adjective, a noun and a number below 100. */
  function CodeWordOf(adjectives: seq<string>, nouns: seq<string>, adjective: int, noun: int, number: int): (w: string)
    requires 0 <= adjective < |adjectives| && 0 <= noun < |nouns| && 0 <= number < 100
    ensures |w| == |adjectives[adjective]| + 1 + |nouns[noun]| + (if number < 10 then 1 else 2)
    ensures IsDigit(w[|w| - 1])
  {
    NumberWidth(number);
    adjectives[adjective] + "_" + nouns[noun] + NatToString(number)
  }

  lemma NumberWidth(n: nat)
    requires n < 100
    ensures |NatToString(n)| == if n < 10 then 1 else 2
  {
  }

  /** Words free of underscores come back apart: the adjective, and the noun with its number. */
  lemma CodeWordSplits(adjectives: seq<string>, nouns: seq<string>, adjective: int, noun: int, number: int)
    requires 0 <= adjective < |adjectives| && 0 <= noun < |nouns| && 0 <= number < 100
    requires '_' !in adjectives[adjective] && '_' !in nouns[noun]
    ensures Split(CodeWordOf(adjectives, nouns, adjective, noun, number), '_')
            == [adjectives[adjective], nouns[noun] + NatToString(number)]
    ensures Atoi(NatToString(number)) == (number, true)
  {
    var a, tail := adjectives[adjective], nouns[noun] + NatToString(number);
    assert CodeWordOf(adjectives, nouns, adjective, noun, number) == a + ['_'] + tail;
    SplitAtSeparator(a, '_', tail);
    assert '_' !in NatToString(number) by {
      assert forall k | 0 <= k < |NatToString(number)| :: IsDigit(NatToString(number)[k]);
    }
    assert '_' !in tail by {
      forall k | 0 <= k < |tail| ensures tail[k] != '_' {
        if k >= |nouns[noun]| {
          assert tail[k] == NatToString(number)[k - |nouns[noun]|];
        }
      }
    }
    AtoiIntToString(number);
  }

  // ---------------------------------------------------------------------------
  // Refilling the pool

  /** The random draws of one round: adjective and noun indexes, the number, the password. */
  datatype Draw = Draw(adjective: int, noun: int, number: int, password: seq<int>)

  /** Eight draws of Intn(60). */
  predicate PasswordFits(password: seq<int>) {
    |password| == Length && forall i | 0 <= i < |password| :: 0 <= password[i] < 60
  }

  predicate DrawFits(d: Draw, adjectives: seq<string>, nouns: seq<string>) {
    && 0 <= d.adjective < |adjectives| && 0 <= d.noun < |nouns| && 0 <= d.number < 100
    && PasswordFits(d.password)
  }

  /** The pool is refilled when no word is used yet or more than a batch is. */
  predicate Refills(used: int) { used > 3000 || used == 0 }

  /** The word of one round. */
  function WordOf(adjectives: seq<string>, nouns: seq<string>, d: Draw): string
    requires DrawFits(d, adjectives, nouns)
  {
    CodeWordOf(adjectives, nouns, d.adjective, d.noun, d.number)
  }

  /** The encryption of round `i`'s password. The encryption is given the round too, standing
      for its fresh random nonce. */
  function Sealed(d: Draw, encrypt: (string, nat) -> Result<string>, i: nat): Result<string>
    requires PasswordFits(d.password)
  {
    encrypt(PasswordOf(d.password), i)
  }

  predicate AllFit(draws: seq<Draw>, adjectives: seq<string>, nouns: seq<string>) {
    forall k | 0 <= k < |draws| :: DrawFits(draws[k], adjectives, nouns)
  }

  /** Rounds 0 .. n-1 all encrypted. */
  predicate Encrypted(draws: seq<Draw>, encrypt: (string, nat) -> Result<string>, n: nat)
    requires n <= |draws| && forall k | 0 <= k < |draws| :: PasswordFits(draws[k].password)
  {
    forall k | 0 <= k < n :: Sealed(draws[k], encrypt, k).Ok?
  }

  /** The first round from `i` on whose encryption fails, or the number of rounds. */
  function FirstFailure(draws: seq<Draw>, encrypt: (string, nat) -> Result<string>, i: nat): (n: nat)
    requires i <= |draws| && forall k | 0 <= k < |draws| :: PasswordFits(draws[k].password)
    ensures i <= n <= |draws|
    ensures forall k | i <= k < n :: Sealed(draws[k], encrypt, k).Ok?
    ensures n < |draws| ==> Sealed(draws[n], encrypt, n).Err?
    decreases |draws| - i
  {
    if i == |draws| || Sealed(draws[i], encrypt, i).Err? then i
    else FirstFailure(draws, encrypt, i + 1)
  }

  /** The round where Generate stops is the one FirstFailure names. */
  lemma FirstFailureUnique(draws: seq<Draw>, encrypt: (string, nat) -> Result<string>, n: nat)
    requires n <= |draws| && forall k | 0 <= k < |draws| :: PasswordFits(draws[k].password)
    requires Encrypted(draws, encrypt, n)
    requires n < |draws| ==> Sealed(draws[n], encrypt, n).Err?
    ensures FirstFailure(draws, encrypt, 0) == n
  {
    var m := FirstFailure(draws, encrypt, 0);
  }

  /** The pool after saving rounds 0 .. n-1 in order; a word already in the pool stays as it is. */
  function Fill(pool: map<string, CodeWord>, adjectives: seq<string>, nouns: seq<string>, draws: seq<Draw>,
                encrypt: (string, nat) -> Result<string>, n: nat): (p: map<string, CodeWord>)
    requires n <= |draws| && AllFit(draws, adjectives, nouns) && Encrypted(draws, encrypt, n)
    decreases n
  {
    if n == 0 then pool
    else
      var before := Fill(pool, adjectives, nouns, draws, encrypt, n - 1);
      var word := WordOf(adjectives, nouns, draws[n - 1]);
      if word in before then before else before[word := CodeWord(Sealed(draws[n - 1], encrypt, n - 1).value, false)]
  }

  /** Filling keeps every word already in the pool as it was, and adds only unused words. */
  lemma {:induction false} FillKeeps(pool: map<string, CodeWord>, adjectives: seq<string>, nouns: seq<string>,
                                     draws: seq<Draw>, encrypt: (string, nat) -> Result<string>, n: nat)
    requires n <= |draws| && AllFit(draws, adjectives, nouns) && Encrypted(draws, encrypt, n)
    ensures var p := Fill(pool, adjectives, nouns, draws, encrypt, n);
      && pool.Keys <= p.Keys
      && (forall w | w in pool :: p[w] == pool[w])
      && (forall w | w in p && w !in pool :: !p[w].isUsed)
    decreases n
  {
    if n > 0 {
      FillKeeps(pool, adjectives, nouns, draws, encrypt, n - 1);
    }
  }

  /** Filling marks no word used and unmarks none. */
  lemma FillKeepsUsed(pool: map<string, CodeWord>, adjectives: seq<string>, nouns: seq<string>,
                      draws: seq<Draw>, encrypt: (string, nat) -> Result<string>, n: nat)
    requires n <= |draws| && AllFit(draws, adjectives, nouns) && Encrypted(draws, encrypt, n)
    ensures var p := Fill(pool, adjectives, nouns, draws, encrypt, n);
      && (forall w | w in pool :: w in p && p[w] == pool[w])
      && GeneratorPostgres.UsedWords(p) == GeneratorPostgres.UsedWords(pool)
  {
    FillKeeps(pool, adjectives, nouns, draws, encrypt, n);
  }

  /** The words of rounds 0 .. n-1. */
  function Words(adjectives: seq<string>, nouns: seq<string>, draws: seq<Draw>, n: nat): (words: set<string>)
    requires n <= |draws| && AllFit(draws, adjectives, nouns)
    ensures forall k | 0 <= k < n :: WordOf(adjectives, nouns, draws[k]) in words
    decreases n
  {
    if n == 0 then {} else Words(adjectives, nouns, draws, n - 1) + {WordOf(adjectives, nouns, draws[n - 1])}
  }

  /** Exactly the generated words join the pool. */
  lemma {:induction false} FillWords(pool: map<string, CodeWord>, adjectives: seq<string>, nouns: seq<string>,
                                     draws: seq<Draw>, encrypt: (string, nat) -> Result<string>, n: nat)
    requires n <= |draws| && AllFit(draws, adjectives, nouns) && Encrypted(draws, encrypt, n)
    ensures Fill(pool, adjectives, nouns, draws, encrypt, n).Keys == pool.Keys + Words(adjectives, nouns, draws, n)
    decreases n
  {
    if n > 0 {
      FillWords(pool, adjectives, nouns, draws, encrypt, n - 1);
    }
  }

  /** One more encrypted round extends the fill by that round's word. */
  lemma FillStep(pool: map<string, CodeWord>, adjectives: seq<string>, nouns: seq<string>, draws: seq<Draw>,
                 encrypt: (string, nat) -> Result<string>, i: nat)
    requires i < |draws| && AllFit(draws, adjectives, nouns) && Encrypted(draws, encrypt, i)
    requires Sealed(draws[i], encrypt, i).Ok?
    ensures Encrypted(draws, encrypt, i + 1)
    ensures var before, word := Fill(pool, adjectives, nouns, draws, encrypt, i), WordOf(adjectives, nouns, draws[i]);
      Fill(pool, adjectives, nouns, draws, encrypt, i + 1) ==
      if word in before then before else before[word := CodeWord(Sealed(draws[i], encrypt, i).value, false)]
  {
  }

  /** One round: generate the word and the password, encrypt, save. */
  method SaveRound(db: Db, adjectives: seq<string>, nouns: seq<string>, d: Draw,
                   encrypt: (string, nat) -> Result<string>, i: nat) returns (r: Outcome)
    requires db.Valid() && DrawFits(d, adjectives, nouns)
    modifies db`codeWords
    ensures db.Valid()
    ensures old(db.CodesIssued()) ==> db.CodesIssued()
    ensures GeneratorPostgres.UsedWords(db.codeWords) == GeneratorPostgres.UsedWords(old(db.codeWords))
    ensures Sealed(d, encrypt, i).Err? ==> r == Fail(Sealed(d, encrypt, i).error) && db.codeWords == old(db.codeWords)
    ensures Sealed(d, encrypt, i).Ok? ==> r == Pass
    ensures Sealed(d, encrypt, i).Ok? ==>
      var word := WordOf(adjectives, nouns, d);
      db.codeWords == if word in old(db.codeWords) then old(db.codeWords)
                      else old(db.codeWords)[word := CodeWord(Sealed(d, encrypt, i).value, false)]
  {
    var codeWord := CodeWordOf(adjectives, nouns, d.adjective, d.noun, d.number);
    var password := GenerateSimplePassword(d.password);
    var encrypted := encrypt(password, i);
    if encrypted.Err? {
      return Fail(encrypted.error);
    }
    r := GeneratorPostgres.SaveToDB(db, codeWord, encrypted.value);
  }

  /** Generate: count the used words; when a refill is due, load the two word lists (either
      load can fail) and save 3000 fresh words, stopping at the first failed encryption. */
  method Generate(db: Db, adjectives: Result<seq<string>>, nouns: Result<seq<string>>, draws: seq<Draw>,
                  encrypt: (string, nat) -> Result<string>) returns (r: Outcome)
    requires db.Valid()
    requires Refills(|GeneratorPostgres.UsedWords(db.codeWords)|) && adjectives.Ok? && nouns.Ok? &&
             adjectives.value != [] && nouns.value != [] ==>
               |draws| == Batch && AllFit(draws, adjectives.value, nouns.value)
    modifies db`codeWords
    ensures db.Valid()
    ensures old(db.CodesIssued()) ==> db.CodesIssued()
    ensures GeneratorPostgres.UsedWords(db.codeWords) == GeneratorPostgres.UsedWords(old(db.codeWords))
    ensures !Refills(|GeneratorPostgres.UsedWords(old(db.codeWords))|) ==> r == Pass && db.codeWords == old(db.codeWords)
    ensures Refills(|GeneratorPostgres.UsedWords(old(db.codeWords))|) && adjectives.Err? ==>
      r == Fail(adjectives.error) && db.codeWords == old(db.codeWords)
    ensures Refills(|GeneratorPostgres.UsedWords(old(db.codeWords))|) && adjectives.Ok? && nouns.Err? ==>
      r == Fail(nouns.error) && db.codeWords == old(db.codeWords)
    ensures Refills(|GeneratorPostgres.UsedWords(old(db.codeWords))|) && adjectives.Ok? && nouns.Ok? &&
            (adjectives.value == [] || nouns.value == []) ==>
      r == Fail(ErrIntnPanic) && db.codeWords == old(db.codeWords)
    ensures Refills(|GeneratorPostgres.UsedWords(old(db.codeWords))|) && adjectives.Ok? && nouns.Ok? &&
            adjectives.value != [] && nouns.value != [] ==>
      var n := FirstFailure(draws, encrypt, 0);
      && db.codeWords == Fill(old(db.codeWords), adjectives.value, nouns.value, draws, encrypt, n)
      && (n == Batch ==> r == Pass)
      && (n < Batch ==> r == Fail(Sealed(draws[n], encrypt, n).error))
  {
    // The count cannot fail in this model: connection errors are not modelled.
    var used := GeneratorPostgres.CountUsedCodes(db);
    if !Refills(used.value) {
      return Pass;
    }
    if adjectives.Err? {
      return Fail(adjectives.error);
    }
    if nouns.Err? {
      return Fail(nouns.error);
    }
    // The first round's Intn(len(list)) panics on an empty list, before anything is saved.
    if adjectives.value == [] || nouns.value == [] {
      return Fail(ErrIntnPanic);
    }
    r := FillPool(db, adjectives.value, nouns.value, draws, encrypt);
  }

  /** The loop of Generate: 3000 rounds, stopping at the first failed encryption. */
  method FillPool(db: Db, adjectives: seq<string>, nouns: seq<string>, draws: seq<Draw>,
                  encrypt: (string, nat) -> Result<string>) returns (r: Outcome)
    requires db.Valid()
    requires |draws| == Batch && AllFit(draws, adjectives, nouns)
    modifies db`codeWords
    ensures db.Valid()
    ensures old(db.CodesIssued()) ==> db.CodesIssued()
    ensures GeneratorPostgres.UsedWords(db.codeWords) == GeneratorPostgres.UsedWords(old(db.codeWords))
    ensures var n := FirstFailure(draws, encrypt, 0);
      && db.codeWords == Fill(old(db.codeWords), adjectives, nouns, draws, encrypt, n)
      && (n == Batch ==> r == Pass)
      && (n < Batch ==> r == Fail(Sealed(draws[n], encrypt, n).error))
  {
    ghost var pool := db.codeWords;
    var i := 0;
    while i < Batch
      invariant 0 <= i <= Batch
      invariant db.Valid()
      invariant Encrypted(draws, encrypt, i)
      invariant db.codeWords == Fill(pool, adjectives, nouns, draws, encrypt, i)
    {
      var saved := FillRound(db, adjectives, nouns, draws, encrypt, pool, i);
      if saved.Fail? {
        FillKeepsUsed(pool, adjectives, nouns, draws, encrypt, i);
        return saved;
      }
      i := i + 1;
    }
    FillKeepsUsed(pool, adjectives, nouns, draws, encrypt, i);
    FirstFailureUnique(draws, encrypt, i);
    r := Pass;
  }

  /** Round `i` of FillPool: either it saves its word and the fill grows by one round, or its
      encryption is the first to fail and the pool stays as it is. */
  method FillRound(db: Db, adjectives: seq<string>, nouns: seq<string>, draws: seq<Draw>,
                   encrypt: (string, nat) -> Result<string>, ghost pool: map<string, CodeWord>, i: nat)
    returns (r: Outcome)
    requires db.Valid()
    requires i < |draws| && AllFit(draws, adjectives, nouns) && Encrypted(draws, encrypt, i)
    requires db.codeWords == Fill(pool, adjectives, nouns, draws, encrypt, i)
    modifies db`codeWords
    ensures db.Valid()
    ensures old(db.CodesIssued()) ==> db.CodesIssued()
    ensures GeneratorPostgres.UsedWords(db.codeWords) == GeneratorPostgres.UsedWords(old(db.codeWords))
    ensures r.Fail? ==>
      && FirstFailure(draws, encrypt, 0) == i
      && r == Fail(Sealed(draws[i], encrypt, i).error)
      && db.codeWords == old(db.codeWords)
    ensures r.Pass? ==>
      && Encrypted(draws, encrypt, i + 1)
      && db.codeWords == Fill(pool, adjectives, nouns, draws, encrypt, i + 1)
  {
    r := SaveRound(db, adjectives, nouns, draws[i], encrypt, i);
    if r.Fail? {
      FirstFailureUnique(draws, encrypt, i);
    } else {
      FillStep(pool, adjectives, nouns, draws, encrypt, i);
    }
  }
}
