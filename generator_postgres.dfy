/** The generator's repository (`GeneratorPostgres`): counting and filling the code-word pool. */
module GeneratorPostgres {
  import opened Wrappers
  import opened Tables

  /** The words of the pool already handed out to students. */
  function UsedWords(codeWords: map<string, CodeWord>): (used: set<string>)
    ensures used <= codeWords.Keys
    ensures forall w | w in codeWords :: w in used <==> codeWords[w].isUsed
  {
    set w | w in codeWords && codeWords[w].isUsed
  }

  /** SELECT COUNT(*) FROM code_words WHERE is_used. */
  method CountUsedCodes(db: Db) returns (r: Result<int>)
    ensures r.Ok? && r.value == |UsedWords(db.codeWords)|
    ensures r.value <= |db.codeWords|
  {
    var used := UsedWords(db.codeWords);
    assert |used| <= |db.codeWords.Keys| by {
      SubsetCard(used, db.codeWords.Keys);
    }
    r := Ok(|used|);
  }

  lemma {:induction false} SubsetCard<T>(a: set<T>, b: set<T>)
    requires a <= b
    ensures |a| <= |b|
    decreases |b|
  {
    if a != {} {
      var x :| x in a;
      SubsetCard(a - {x}, b - {x});
    }
  }

  /** INSERT ... ON CONFLICT (word) DO NOTHING: a new word enters the pool unused with the given
      (encrypted) password; a word already present is left as it was. */
  method SaveToDB(db: Db, code: string, password: string) returns (r: Outcome)
    requires db.Valid()
    modifies db`codeWords
    ensures db.Valid()
    ensures r == Pass
    ensures db.codeWords == if code in old(db.codeWords) then old(db.codeWords)
                            else old(db.codeWords)[code := CodeWord(password, false)]
    ensures UsedWords(db.codeWords) == UsedWords(old(db.codeWords))
    ensures old(db.CodesIssued()) ==> db.CodesIssued()
  {
    if code !in db.codeWords {
      db.codeWords := db.codeWords[code := CodeWord(password, false)];
    }
    r := Pass;
  }
}
