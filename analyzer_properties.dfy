/** What the analyzer promises about its result. The lines it reports are
    characterised by an order-free reference (`InFeedback`, `InWarnings`: which
    line appears under which finding), proved first for the findings of any
    password and then stated for `Report` itself. */
module AnalyzerProperties {
  import opened Charset
  import Denylist
  import opened Analyzer

  function Flag(b: bool): nat { if b then 1 else 0 }

  predicate InFeedback(f: Findings, m: Message) {
    match m
    case ExcellentLength => f.length >= 16
    case GoodLength => 12 <= f.length < 16
    case MinimumLength => 8 <= f.length < 12
    case AllTypes => f.Types() == 4
    case ThreeTypes => f.Types() == 3
    case ContainsUpper => f.hasUpper
    case ContainsLower => f.hasLower
    case ContainsNumbers => f.hasDigit
    case ContainsSymbols => f.hasSymbol
    case HighEntropy(e) => e == f.entropy && e.Squared() > 10000
    case ModerateEntropy(e) => e == f.entropy && 6400 < e.Squared() <= 10000
    case _ => false
  }

  predicate InWarnings(f: Findings, m: Message) {
    match m
    case TooShort => f.length < 8
    case LimitedVariety(n) => n == f.Types() && n < 3
    case MissingUpper => !f.hasUpper
    case MissingLower => !f.hasLower
    case MissingNumbers => !f.hasDigit
    case MissingSymbols => !f.hasSymbol
    case RepeatedCharacters => f.repeated
    case CommonPatterns => f.pattern
    case VeryCommonPassword => f.common
    case LowEntropy(e) => e == f.entropy && e.Squared() <= 6400
    case SequentialCharacters => f.sequential
    case _ => false
  }

  lemma LengthMessages(n: nat, m: Message)
    ensures m in LengthCheck(n).feedback <==>
      (m.ExcellentLength? && n >= 16) || (m.GoodLength? && 12 <= n < 16)
      || (m.MinimumLength? && 8 <= n < 12)
    ensures m in LengthCheck(n).warnings <==> m.TooShort? && n < 8
  {
  }

  lemma VarietyMessages(types: nat, m: Message)
    ensures m in VarietyCheck(types).feedback <==>
      (m.AllTypes? && types >= 4) || (m.ThreeTypes? && types == 3)
    ensures m in VarietyCheck(types).warnings <==> (m.LimitedVariety? && m.types == types) && types < 3
  {
  }

  lemma EntropyMessages(e: Entropy, m: Message)
    ensures m in EntropyCheck(e).feedback <==>
      ((m.HighEntropy? && m.estimate == e) && e.Squared() > 10000)
      || ((m.ModerateEntropy? && m.estimate == e) && 6400 < e.Squared() <= 10000)
    ensures m in EntropyCheck(e).warnings <==> (m.LowEntropy? && m.estimate == e) && e.Squared() <= 6400
  {
  }

  lemma ClassFeedback(f: Findings, m: Message)
    ensures m in ClassTally(f).feedback <==>
      m in LengthCheck(f.length).feedback || m in VarietyCheck(f.Types()).feedback
      || (f.hasUpper && m == ContainsUpper) || (f.hasLower && m == ContainsLower)
      || (f.hasDigit && m == ContainsNumbers) || (f.hasSymbol && m == ContainsSymbols)
  {
  }

  lemma ClassWarnings(f: Findings, m: Message)
    ensures m in ClassTally(f).warnings <==>
      m in LengthCheck(f.length).warnings || m in VarietyCheck(f.Types()).warnings
      || (!f.hasUpper && m == MissingUpper) || (!f.hasLower && m == MissingLower)
      || (!f.hasDigit && m == MissingNumbers) || (!f.hasSymbol && m == MissingSymbols)
  {
  }

  lemma EarlyWarnings(f: Findings, m: Message)
    ensures m in EarlyTally(f).warnings <==>
      m in ClassTally(f).warnings
      || (f.repeated && m == RepeatedCharacters) || (f.pattern && m == CommonPatterns)
  {
  }

  lemma LateFeedback(f: Findings, m: Message)
    ensures m in FinalTally(f).feedback <==>
      m in ClassTally(f).feedback || m in EntropyCheck(f.entropy).feedback
  {
  }

  lemma LateWarnings(f: Findings, m: Message)
    ensures m in FinalTally(f).warnings <==>
      m in EarlyTally(f).warnings
      || (f.common && m == VeryCommonPassword)
      || m in EntropyCheck(f.entropy).warnings
      || (f.sequential && m == SequentialCharacters)
  {
  }

  lemma FeedbackFromChecks(f: Findings, m: Message)
    ensures InFeedback(f, m) <==>
      m in LengthCheck(f.length).feedback || m in VarietyCheck(f.Types()).feedback
      || (f.hasUpper && m.ContainsUpper?) || (f.hasLower && m.ContainsLower?)
      || (f.hasDigit && m.ContainsNumbers?) || (f.hasSymbol && m.ContainsSymbols?)
      || m in EntropyCheck(f.entropy).feedback
  {
    LengthMessages(f.length, m);
    VarietyMessages(f.Types(), m);
    EntropyMessages(f.entropy, m);
  }

  lemma WarningsFromChecks(f: Findings, m: Message)
    ensures InWarnings(f, m) <==>
      m in LengthCheck(f.length).warnings || m in VarietyCheck(f.Types()).warnings
      || (!f.hasUpper && m.MissingUpper?) || (!f.hasLower && m.MissingLower?)
      || (!f.hasDigit && m.MissingNumbers?) || (!f.hasSymbol && m.MissingSymbols?)
      || (f.repeated && m.RepeatedCharacters?) || (f.pattern && m.CommonPatterns?)
      || (f.common && m.VeryCommonPassword?)
      || m in EntropyCheck(f.entropy).warnings
      || (f.sequential && m.SequentialCharacters?)
  {
    LengthMessages(f.length, m);
    VarietyMessages(f.Types(), m);
    EntropyMessages(f.entropy, m);
  }

  lemma FeedbackReference(f: Findings, m: Message)
    ensures m in FinalTally(f).feedback <==> InFeedback(f, m)
  {
    LateFeedback(f, m);
    ClassFeedback(f, m);
    FeedbackFromChecks(f, m);
  }

  lemma WarningsReference(f: Findings, m: Message)
    ensures m in FinalTally(f).warnings <==> InWarnings(f, m)
  {
    LateWarnings(f, m);
    EarlyWarnings(f, m);
    ClassWarnings(f, m);
    WarningsFromChecks(f, m);
  }

  // ---------------------------------------------------------------------
  // The analysis of a password

  /** How `Report` is put together from the findings. */
  lemma ReportParts(password: string)
    ensures Report(password).feedback == FinalTally(FindingsOf(password)).feedback
    ensures Report(password).warnings == FinalTally(FindingsOf(password)).warnings
    ensures Report(password).score == Clamp(RawScore(FindingsOf(password)))
    ensures Report(password).strength == StrengthOf(RawScore(FindingsOf(password)))
    ensures Report(password).charTypes == FindingsOf(password).Types()
  {
  }

  /** The analysis returns the number of classes present. */
  lemma ReportCharTypes(password: string)
    ensures Report(password).charTypes == CharTypes(password)
  {
    ReportParts(password);
  }

  /** A line is reported as feedback exactly when the reference says so. */
  lemma ReportFeedback(password: string, m: Message)
    ensures m in Report(password).feedback <==> InFeedback(FindingsOf(password), m)
  {
    ReportParts(password);
    FeedbackReference(FindingsOf(password), m);
  }

  /** A line is reported as a warning exactly when the reference says so. */
  lemma ReportWarnings(password: string, m: Message)
    ensures m in Report(password).warnings <==> InWarnings(FindingsOf(password), m)
  {
    ReportParts(password);
    WarningsReference(FindingsOf(password), m);
  }

  // ---------------------------------------------------------------------
  // The lines of the finished tally, for any findings

  lemma TallyLengthLines(f: Findings)
    ensures ExcellentLength in FinalTally(f).feedback <==> f.length >= 16
    ensures GoodLength in FinalTally(f).feedback <==> 12 <= f.length < 16
    ensures MinimumLength in FinalTally(f).feedback <==> 8 <= f.length < 12
    ensures TooShort in FinalTally(f).warnings <==> f.length < 8
  {
    FeedbackReference(f, ExcellentLength);
    FeedbackReference(f, GoodLength);
    FeedbackReference(f, MinimumLength);
    WarningsReference(f, TooShort);
  }

  lemma TallyVarietyLines(f: Findings)
    ensures AllTypes in FinalTally(f).feedback <==> f.Types() == 4
    ensures ThreeTypes in FinalTally(f).feedback <==> f.Types() == 3
    ensures forall n :: LimitedVariety(n) in FinalTally(f).warnings <==> n == f.Types() < 3
  {
    FeedbackReference(f, AllTypes);
    FeedbackReference(f, ThreeTypes);
    forall n ensures LimitedVariety(n) in FinalTally(f).warnings <==> n == f.Types() < 3 {
      WarningsReference(f, LimitedVariety(n));
    }
  }

  lemma TallyUpperLines(f: Findings)
    ensures ContainsUpper in FinalTally(f).feedback <==> f.hasUpper
    ensures MissingUpper in FinalTally(f).warnings <==> !f.hasUpper
  {
    FeedbackReference(f, ContainsUpper);
    WarningsReference(f, MissingUpper);
  }

  lemma TallyLowerLines(f: Findings)
    ensures ContainsLower in FinalTally(f).feedback <==> f.hasLower
    ensures MissingLower in FinalTally(f).warnings <==> !f.hasLower
  {
    FeedbackReference(f, ContainsLower);
    WarningsReference(f, MissingLower);
  }

  lemma TallyNumberLines(f: Findings)
    ensures ContainsNumbers in FinalTally(f).feedback <==> f.hasDigit
    ensures MissingNumbers in FinalTally(f).warnings <==> !f.hasDigit
  {
    FeedbackReference(f, ContainsNumbers);
    WarningsReference(f, MissingNumbers);
  }

  lemma TallySymbolLines(f: Findings)
    ensures ContainsSymbols in FinalTally(f).feedback <==> f.hasSymbol
    ensures MissingSymbols in FinalTally(f).warnings <==> !f.hasSymbol
  {
    FeedbackReference(f, ContainsSymbols);
    WarningsReference(f, MissingSymbols);
  }

  lemma TallyEarlyPenaltyLines(f: Findings)
    ensures RepeatedCharacters in FinalTally(f).warnings <==> f.repeated
    ensures CommonPatterns in FinalTally(f).warnings <==> f.pattern
  {
    WarningsReference(f, RepeatedCharacters);
    WarningsReference(f, CommonPatterns);
  }

  lemma TallyLatePenaltyLines(f: Findings)
    ensures VeryCommonPassword in FinalTally(f).warnings <==> f.common
    ensures SequentialCharacters in FinalTally(f).warnings <==> f.sequential
  {
    WarningsReference(f, VeryCommonPassword);
    WarningsReference(f, SequentialCharacters);
  }

  lemma TallyEntropyFeedbackLines(f: Findings)
    ensures HighEntropy(f.entropy) in FinalTally(f).feedback <==> f.entropy.Squared() > 10000
    ensures ModerateEntropy(f.entropy) in FinalTally(f).feedback <==> 6400 < f.entropy.Squared() <= 10000
  {
    FeedbackReference(f, HighEntropy(f.entropy));
    FeedbackReference(f, ModerateEntropy(f.entropy));
  }

  lemma TallyLowEntropyLine(f: Findings)
    ensures LowEntropy(f.entropy) in FinalTally(f).warnings <==> f.entropy.Squared() <= 6400
  {
    WarningsReference(f, LowEntropy(f.entropy));
  }

  // ---------------------------------------------------------------------
  // The lines of the analysis of a password

  /** Exactly one length bucket applies, with its line. */
  lemma LengthLines(password: string)
    ensures ExcellentLength in Report(password).feedback <==> |password| >= 16
    ensures GoodLength in Report(password).feedback <==> 12 <= |password| < 16
    ensures MinimumLength in Report(password).feedback <==> 8 <= |password| < 12
    ensures TooShort in Report(password).warnings <==> |password| < 8
  {
    ReportParts(password);
    TallyLengthLines(FindingsOf(password));
  }

  /** The variety line names how many classes are present, the count the
      analysis also returns. */
  lemma VarietyLines(password: string)
    ensures AllTypes in Report(password).feedback <==> Report(password).charTypes == 4
    ensures ThreeTypes in Report(password).feedback <==> Report(password).charTypes == 3
    ensures LimitedVariety(Report(password).charTypes) in Report(password).warnings <==> Report(password).charTypes < 3
  {
    ReportParts(password);
    TallyVarietyLines(FindingsOf(password));
  }

  /** Each character class gives its feedback line when present and its
      warning when absent. */
  lemma ClassLines(password: string)
    ensures ContainsUpper in Report(password).feedback <==> HasUpper(password)
    ensures MissingUpper in Report(password).warnings <==> !HasUpper(password)
    ensures ContainsLower in Report(password).feedback <==> HasLower(password)
    ensures MissingLower in Report(password).warnings <==> !HasLower(password)
    ensures ContainsNumbers in Report(password).feedback <==> HasDigit(password)
    ensures MissingNumbers in Report(password).warnings <==> !HasDigit(password)
    ensures ContainsSymbols in Report(password).feedback <==> HasSymbol(password)
    ensures MissingSymbols in Report(password).warnings <==> !HasSymbol(password)
  {
    ReportParts(password);
    var f := FindingsOf(password);
    TallyUpperLines(f);
    TallyLowerLines(f);
    TallyNumberLines(f);
    TallySymbolLines(f);
  }

  /** Each pattern test and the denylist warn exactly when they fire; in
      particular the entropy and sequential checks still run after the
      denylist reset. */
  lemma PenaltyLines(password: string)
    ensures RepeatedCharacters in Report(password).warnings <==> HasRepeatedRun(password)
    ensures CommonPatterns in Report(password).warnings <==> HasCommonPattern(password)
    ensures VeryCommonPassword in Report(password).warnings <==> Denylist.IsCommon(password)
    ensures SequentialCharacters in Report(password).warnings <==> HasSequentialChars(password)
  {
    ReportParts(password);
    TallyEarlyPenaltyLines(FindingsOf(password));
    TallyLatePenaltyLines(FindingsOf(password));
  }

  /** Exactly one entropy band applies, and its line carries the estimate of
      this password. */
  lemma EntropyLines(password: string)
    ensures HighEntropy(EntropyOf(password)) in Report(password).feedback <==> EntropyOf(password).Squared() > 10000
    ensures ModerateEntropy(EntropyOf(password)) in Report(password).feedback
            <==> 6400 < EntropyOf(password).Squared() <= 10000
    ensures LowEntropy(EntropyOf(password)) in Report(password).warnings <==> EntropyOf(password).Squared() <= 6400
  {
    ReportParts(password);
    TallyEntropyFeedbackLines(FindingsOf(password));
    TallyLowEntropyLine(FindingsOf(password));
  }

  // ---------------------------------------------------------------------
  // Score, band and denylist

  /** The raw score never exceeds 7, so the clamp only ever lifts a negative
      score to 0, and the band, taken from the raw score, is the band of the
      reported score. */
  lemma ScoreAndBand(password: string)
    ensures Report(password).score == (if RawScore(FindingsOf(password)) < 0 then 0 else RawScore(FindingsOf(password)))
    ensures Report(password).strength == StrengthOf(Report(password).score)
  {
    ReportParts(password);
  }

  /** The length, variety, class and entropy checks give one line each; the
      repeated-run, pattern, denylist and sequential checks one line each when
      they fire and none otherwise. */
  lemma LineCount(password: string)
    ensures |Report(password).feedback| + |Report(password).warnings|
            == 7 + Flag(HasRepeatedRun(password)) + Flag(HasCommonPattern(password))
                 + Flag(Denylist.IsCommon(password)) + Flag(HasSequentialChars(password))
  {
    ReportParts(password);
    TallyLineCount(FindingsOf(password));
  }

  lemma TallyLineCount(f: Findings)
    ensures FinalTally(f).Lines() == 7 + Flag(f.repeated) + Flag(f.pattern) + Flag(f.common) + Flag(f.sequential)
  {
  }

  /** After the denylist reset only the entropy and sequential checks count. */
  lemma TallyDenylistReset(f: Findings)
    requires f.common
    ensures RawScore(f) == EntropyCheck(f.entropy).delta - Flag(f.sequential)
  {
  }

  /** A password of at most nine characters without symbols has a pool of at
      most 62, so its estimate stays below 80 bits. */
  lemma ShortWithoutSymbolsIsLowEntropy(password: string)
    requires |password| <= 9 && !HasSymbol(password)
    ensures EntropyOf(password).Squared() <= 81 * 62
  {
    var e := EntropyOf(password);
    assert e.pool <= 62;
    assert e.length * e.length <= 81 by {
      assert e.length * e.length <= e.length * 9 <= 81;
    }
    assert e.Squared() == (e.length * e.length) * e.pool;
  }

  /** Any case variant of a denylisted password is reported as Weak with score
      0: the reset leaves only the entropy check to add points, and such a
      password is too short and symbol-free to earn any. */
  lemma CommonPasswordIsWeak(password: string)
    requires Denylist.IsCommon(password)
    ensures Report(password).score == 0 && Report(password).strength == Weak
    ensures VeryCommonPassword in Report(password).warnings
    ensures LowEntropy(EntropyOf(password)) in Report(password).warnings
  {
    Denylist.CommonIsShortWithoutSymbols(password);
    ShortWithoutSymbolsIsLowEntropy(password);
    var f := FindingsOf(password);
    TallyDenylistReset(f);
    ReportParts(password);
    PenaltyLines(password);
    EntropyLines(password);
  }

  /** The top score 7 needs every bonus and no penalty. */
  lemma TallyTopScore(f: Findings)
    ensures RawScore(f) == 7 <==>
      f.length >= 16 && f.Types() == 4 && f.entropy.Squared() > 10000
      && !f.repeated && !f.pattern && !f.common && !f.sequential
  {
  }

  /** A password that reaches the top score is reported Very Strong with score 7. */
  lemma TopScore(password: string)
    ensures Report(password).score == 7 <==>
      |password| >= 16 && CharTypes(password) == 4 && EntropyOf(password).Squared() > 10000
      && !HasRepeatedRun(password) && !HasCommonPattern(password)
      && !Denylist.IsCommon(password) && !HasSequentialChars(password)
  {
    ReportParts(password);
    ReportCharTypes(password);
    TallyTopScore(FindingsOf(password));
  }

  /** Very Strong is reported exactly for the top score. */
  lemma VeryStrongIsTopScore(password: string)
    ensures Report(password).strength == VeryStrong <==> Report(password).score == 7
  {
    AssessVeryStrong(FindingsOf(password));
  }

  lemma AssessVeryStrong(f: Findings)
    ensures Assess(f).strength == VeryStrong <==> Assess(f).score == 7
  {
  }

  /** Sixteen characters from all four classes earn at least 3 points whatever
      patterns they contain: such a password is never Weak. */
  lemma TallyLongAndVaried(f: Findings)
    requires f.length >= 16 && f.Types() == 4 && !f.common && f.entropy.Squared() > 10000
    ensures RawScore(f) >= 3
  {
  }

  lemma LongAndVariedIsNotWeak(password: string)
    requires |password| >= 16 && CharTypes(password) == 4
    ensures Report(password).score >= 3 && Report(password).strength != Weak
  {
    var e := EntropyOf(password);
    assert e.pool == 94;
    assert e.Squared() > 10000 by {
      assert e.length * e.length >= 16 * e.length >= 256;
      assert e.Squared() == (e.length * e.length) * 94;
    }
    if Denylist.IsCommon(password) {
      Denylist.CommonIsShortWithoutSymbols(password);
    }
    ReportParts(password);
    ReportCharTypes(password);
    TallyLongAndVaried(FindingsOf(password));
  }
}
