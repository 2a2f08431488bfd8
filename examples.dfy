/** Worked analyses of particular passwords. */
module AnalyzerExamples {
  import opened Charset
  import Denylist
  import opened Analyzer
  import opened AnalyzerProperties
  import opened PatternProperties

  /** Findings where every test fails and the estimate is the plain 0. */
  predicate NothingFound(f: Findings) {
    f.length == 0 && !f.hasUpper && !f.hasLower && !f.hasDigit && !f.hasSymbol
    && !f.repeated && !f.pattern && !f.common && f.entropy == Entropy(0, 0) && !f.sequential
  }

  /** With nothing found, every check but the penalties warns, in check order. */
  lemma NothingFoundAssessed(f: Findings)
    requires NothingFound(f)
    ensures Assess(f) == Analysis(0, Weak, [],
              [TooShort, LimitedVariety(0), MissingUpper, MissingLower, MissingNumbers, MissingSymbols,
               LowEntropy(Entropy(0, 0))],
              0, Entropy(0, 0), 0)
  {
  }

  lemma EmptyPasswordFindings()
    ensures NothingFound(FindingsOf(""))
  {
    assert Lower("") == "";
    assert !HasCommonPattern("");
    assert !HasSequentialChars("");
  }

  /** The empty password is analysed without error: score 0, Weak, no
      feedback and seven warnings. */
  lemma EmptyPasswordReport()
    ensures Report("") == Analysis(0, Weak, [],
      [TooShort, LimitedVariety(0), MissingUpper, MissingLower, MissingNumbers, MissingSymbols,
       LowEntropy(Entropy(0, 0))],
      0, Entropy(0, 0), 0)
  {
    EmptyPasswordFindings();
    NothingFoundAssessed(FindingsOf(""));
    assert Report("") == Assess(FindingsOf(""));
  }

  /** Findings of a password of one lowercase letter repeated at least 16 times. */
  predicate LetterRunFound(f: Findings) {
    f.length >= 16 && !f.hasUpper && f.hasLower && !f.hasDigit && !f.hasSymbol
    && f.repeated && !f.pattern && !f.common && f.entropy == Entropy(f.length, 26) && !f.sequential
  }

  /** 16 to 19 repeated letters estimate between 80 and 100 bits, 20 or more
      above 100. */
  lemma LetterRunEntropy(length: nat)
    requires length >= 16
    ensures Entropy(length, 26).Squared() > 6400
    ensures Entropy(length, 26).Squared() > 10000 <==> length >= 20
  {
    var sq := length * length;
    assert Entropy(length, 26).Squared() == sq * 26;
    if length >= 20 {
      assert sq >= 20 * length >= 400;
    } else {
      assert sq <= 19 * length <= 361;
    }
    assert sq >= 16 * length >= 256;
  }

  /** Length and entropy earn up to 5 points, but one class and the repeated
      run keep the analysis Moderate. */
  lemma LetterRunAssessed(f: Findings)
    requires LetterRunFound(f)
    ensures Assess(f).score == (if f.length >= 20 then 4 else 3)
    ensures Assess(f).strength == Moderate
    ensures Assess(f).feedback
         == [ExcellentLength, ContainsLower,
             if f.length >= 20 then HighEntropy(f.entropy) else ModerateEntropy(f.entropy)]
    ensures Assess(f).warnings
         == [LimitedVariety(1), MissingUpper, MissingNumbers, MissingSymbols, RepeatedCharacters]
  {
    LetterRunEntropy(f.length);
  }

  lemma LetterRunFindings(password: string)
    requires |password| >= 16 && IsLower(password[0])
    requires forall i :: 0 <= i < |password| ==> password[i] == password[0]
    ensures LetterRunFound(FindingsOf(password))
  {
    assert HasLower(password);
    assert RunAt(password, 0);
    RepeatedRunIff(password);
    UniformHasNoPattern(password);
    if Denylist.IsCommon(password) {
      Denylist.CommonIsShortWithoutSymbols(password);
    }
    assert NominalPool(password) == 26;
  }

  /** For example sixteen `a`s: score 3, Moderate, with the repeated-run
      warning and no sequential or common-pattern warning. */
  lemma LetterRunReport(password: string)
    requires |password| >= 16 && IsLower(password[0])
    requires forall i :: 0 <= i < |password| ==> password[i] == password[0]
    ensures Report(password).score == (if |password| >= 20 then 4 else 3)
    ensures Report(password).strength == Moderate
    ensures RepeatedCharacters in Report(password).warnings
    ensures SequentialCharacters !in Report(password).warnings
    ensures CommonPatterns !in Report(password).warnings
  {
    LetterRunFindings(password);
    LetterRunAssessed(FindingsOf(password));
    assert Report(password) == Assess(FindingsOf(password));
  }
}
