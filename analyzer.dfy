/** The strength analyzer: a fixed sequence of checks over one password, each
    adding to (or, for the denylist, resetting) one running score and adding
    lines to a list of positive feedback and a list of warnings.

    `Report` specifies the result check by check (each check's `Verdict`);
    `AnalyzePasswordStrength` computes it step by step, as the analyzer does. */
module Analyzer {
  import opened Charset
  import Denylist

  /** The four strength bands with their label, CSS class and display colour. */
  datatype Strength = Weak | Moderate | Strong | VeryStrong {
    function Label(): string {
      match this
      case Weak => "Weak"
      case Moderate => "Moderate"
      case Strong => "Strong"
      case VeryStrong => "Very Strong"
    }
    function CssClass(): string {
      match this
      case Weak => "weak"
      case Moderate => "moderate"
      case Strong => "strong"
      case VeryStrong => "very-strong"
    }
    function Color(): string {
      match this
      case Weak => "#dc2626"
      case Moderate => "#d97706"
      case Strong => "#059669"
      case VeryStrong => "#10b981"
    }
  }

  /** The entropy estimate `length * sqrt(pool)` bits, kept exact as the pair
      (length, pool); `Entropy(0, 0)` is the analyzer's plain `0`. */
  datatype Entropy = Entropy(length: nat, pool: nat) {
    /** The square of the estimate, `length^2 * pool`. */
    function Squared(): nat { length * length * pool }
  }

  /** The feedback and warning lines. Entropy lines carry the estimate that
      the message prints. */
  datatype Message =
    | ExcellentLength | GoodLength | MinimumLength | TooShort
    | AllTypes | ThreeTypes | LimitedVariety(types: nat)
    | ContainsUpper | MissingUpper | ContainsLower | MissingLower
    | ContainsNumbers | MissingNumbers | ContainsSymbols | MissingSymbols
    | RepeatedCharacters | CommonPatterns | VeryCommonPassword
    | HighEntropy(estimate: Entropy) | ModerateEntropy(estimate: Entropy) | LowEntropy(estimate: Entropy)
    | SequentialCharacters
  {
    /** The literal text; for the entropy lines only the text before the
        printed number. */
    function Text(): string {
      match this
      case ExcellentLength => "Excellent length (16+ characters)"
      case GoodLength => "Good length (12-15 characters)"
      case MinimumLength => "Minimum acceptable length (8-11 characters)"
      case TooShort => "Too short (minimum 8 characters required)"
      case AllTypes => "Contains all character types (upper, lower, numbers, symbols)"
      case ThreeTypes => "Contains 3 character types"
      case LimitedVariety(n) => "Limited character variety (" + Decimal(n) + " types)"
      case ContainsUpper => "Contains uppercase letters"
      case MissingUpper => "Missing uppercase letters"
      case ContainsLower => "Contains lowercase letters"
      case MissingLower => "Missing lowercase letters"
      case ContainsNumbers => "Contains numbers"
      case MissingNumbers => "Missing numbers"
      case ContainsSymbols => "Contains symbols"
      case MissingSymbols => "Missing symbols"
      case RepeatedCharacters => "Contains repeated characters"
      case CommonPatterns => "Contains common patterns"
      case VeryCommonPassword => "This is a very common password - DO NOT USE!"
      case HighEntropy(_) => "High entropy ("
      case ModerateEntropy(_) => "Moderate entropy ("
      case LowEntropy(_) => "Low entropy ("
      case SequentialCharacters => "Contains sequential characters"
    }
  }

  /** Decimal digits of a natural number. */
  function Decimal(n: nat): (r: string)
    ensures 1 <= |r|
    ensures forall i :: 0 <= i < |r| ==> '0' <= r[i] <= '9'
    ensures n < 10 ==> r == [('0' as int + n) as char]
    decreases n
  {
    var d := [('0' as int + n % 10) as char];
    if n < 10 then d else Decimal(n / 10) + d
  }

  /** What the analyzer returns. `strength` is the band of the raw score,
      `score` the raw score clamped to [0, 10]. */
  datatype Analysis = Analysis(
    score: int,
    strength: Strength,
    feedback: seq<Message>,
    warnings: seq<Message>,
    length: nat,
    entropy: Entropy,
    charTypes: nat)

  /** What one check contributes: a score change and its lines. */
  datatype Verdict = Verdict(delta: int, feedback: seq<Message>, warnings: seq<Message>) {
    /** How many lines the check adds. */
    function Lines(): nat { |feedback| + |warnings| }
  }

  // ---------------------------------------------------------------------
  // The individual checks

  /** Exactly one of the four length buckets applies; the three passing ones
      give +3, +2 or +1 with a feedback line, the short one a warning. */
  function LengthCheck(n: nat): (v: Verdict)
    ensures v.Lines() == 1
    ensures 0 <= v.delta <= 3
    ensures n >= 16 ==> v.delta == 3
    ensures 12 <= n < 16 ==> v.delta == 2
    ensures 8 <= n < 12 ==> v.delta == 1
    ensures v.delta == 0 <==> n < 8
  {
    if n >= 16 then Verdict(3, [ExcellentLength], [])
    else if n >= 12 then Verdict(2, [GoodLength], [])
    else if n >= 8 then Verdict(1, [MinimumLength], [])
    else Verdict(0, [], [TooShort])
  }

  /** Four classes give +2, three give +1, fewer a warning naming the count. */
  function VarietyCheck(types: nat): (v: Verdict)
    ensures v.Lines() == 1
    ensures 0 <= v.delta <= 2
    ensures types >= 4 ==> v.delta == 2
    ensures types == 3 ==> v.delta == 1
    ensures v.delta == 0 <==> types < 3
  {
    if types >= 4 then Verdict(2, [AllTypes], [])
    else if types == 3 then Verdict(1, [ThreeTypes], [])
    else Verdict(0, [], [LimitedVariety(types)])
  }

  /** One line for one character class: feedback when present, warning when not. */
  function ClassCheck(present: bool, contains: Message, missing: Message): (v: Verdict)
    ensures v.Lines() == 1 && v.delta == 0
    ensures |v.feedback| == (if present then 1 else 0)
  {
    if present then Verdict(0, [contains], []) else Verdict(0, [], [missing])
  }

  /** A penalty check: when the pattern is found, the score drops by the
      penalty and one warning is added; otherwise nothing happens. */
  function PenaltyCheck(found: bool, penalty: nat, warning: Message): (v: Verdict)
    ensures v.feedback == []
    ensures v.Lines() == (if found then 1 else 0)
    ensures -(penalty as int) <= v.delta <= 0
    ensures v.delta == (if found then -(penalty as int) else 0)
  {
    if found then Verdict(0 - penalty, [], [warning]) else Verdict(0, [], [])
  }

  /** `entropy > 100` and `entropy > 80`, compared as squares (both sides are
      non-negative): `length^2 * pool > 10000` and `> 6400`. */
  function EntropyCheck(e: Entropy): (v: Verdict)
    ensures v.Lines() == 1
    ensures 0 <= v.delta <= 2
    ensures v.delta == 2 <==> e.Squared() > 10000
    ensures v.delta >= 1 <==> e.Squared() > 6400
  {
    if e.Squared() > 10000 then Verdict(2, [HighEntropy(e)], [])
    else if e.Squared() > 6400 then Verdict(1, [ModerateEntropy(e)], [])
    else Verdict(0, [], [LowEntropy(e)])
  }

  // ---------------------------------------------------------------------
  // What the checks test

  /** At position `i` a character other than a newline is followed by itself twice. */
  predicate RunAt(password: string, i: int) {
    0 <= i < |password| - 2 && password[i] != '\n'
    && password[i + 1] == password[i] && password[i + 2] == password[i]
  }

  /** The regular-expression scan for such a run from position `i` on. */
  predicate RepeatedFrom(password: string, i: nat)
    decreases |password| - i
  {
    i + 2 < |password| && (RunAt(password, i) || RepeatedFrom(password, i + 1))
  }

  /** `(.)\1{2,}`: some character other than a newline followed by itself twice. */
  predicate HasRepeatedRun(password: string) {
    RepeatedFrom(password, 0)
  }

  /** Some string of `patterns` occurs in `s`: an alternation of literals
      searched in `s`, or `any(p in s for p in patterns)`. */
  predicate AnyOccurs(s: string, patterns: seq<string>) {
    exists k :: 0 <= k < |patterns| && Contains(s, patterns[k])
  }

  const CommonPatternList: seq<string> := ["123", "abc", "qwerty", "password", "admin", "welcome"]

  /** `(123|abc|qwerty|password|admin|welcome)` searched in the lowercased password. */
  predicate HasCommonPattern(password: string) {
    AnyOccurs(Lower(password), CommonPatternList)
  }

  /** The 31 sequential triples, in the analyzer's order. */
  const Sequences: seq<string> := [
    "abc", "bcd", "cde", "def", "efg", "fgh", "ghi", "hij",
    "ijk", "jkl", "klm", "lmn", "mno", "nop", "opq", "pqr",
    "qrs", "rst", "stu", "tuv", "uvw", "vwx", "wxy", "xyz",
    "123", "234", "345", "456", "567", "678", "789"]

  /** Some listed triple occurs in the lowercased password. */
  predicate HasSequentialChars(password: string) {
    AnyOccurs(Lower(password), Sequences)
  }

  /** The nominal pool: 26, 26, 10 and 32 for each class present. */
  function NominalPool(password: string): (n: nat)
    ensures n <= 94
    ensures n == 0 <==> password == []
  {
    NonEmptyHasClass(password);
    (if HasLower(password) then 26 else 0) + (if HasUpper(password) then 26 else 0)
    + (if HasDigit(password) then 10 else 0) + (if HasSymbol(password) then 32 else 0)
  }

  /** The estimate of a password; it is the plain `0` exactly for the empty one. */
  function EntropyOf(password: string): (e: Entropy)
    ensures e.length == |password|
    ensures e.Squared() == 0 <==> password == []
  {
    var e := Entropy(|password|, NominalPool(password));
    assert password != [] ==> e.Squared() >= e.pool;
    e
  }

  /** The number of the four classes present in the password. */
  function CharTypes(password: string): (k: nat)
    ensures k <= 4
    ensures k == 0 <==> password == []
  {
    NonEmptyHasClass(password);
    FindingsOf(password).Types()
  }

  /** Everything the checks test about one password. */
  datatype Findings = Findings(
    length: nat,
    hasUpper: bool, hasLower: bool, hasDigit: bool, hasSymbol: bool,
    repeated: bool, pattern: bool, common: bool,
    entropy: Entropy,
    sequential: bool)
  {
    /** `char_types`: how many of the four classes are present. */
    function Types(): (k: nat)
      ensures k <= 4
    {
      (if hasUpper then 1 else 0) + (if hasLower then 1 else 0)
      + (if hasDigit then 1 else 0) + (if hasSymbol then 1 else 0)
    }
  }

  function FindingsOf(password: string): Findings {
    Findings(|password|,
             HasUpper(password), HasLower(password), HasDigit(password), HasSymbol(password),
             HasRepeatedRun(password), HasCommonPattern(password), Denylist.IsCommon(password),
             EntropyOf(password),
             HasSequentialChars(password))
  }

  // ---------------------------------------------------------------------
  // The analysis, check by check

  /** The running score and the two lists while the checks run. */
  datatype Tally = Tally(score: int, feedback: seq<Message>, warnings: seq<Message>) {
    function Lines(): nat { |feedback| + |warnings| }

    /** After one more check: its change is added and its lines appended. */
    function Then(v: Verdict): (r: Tally)
      ensures r.score == score + v.delta
      ensures r.Lines() == Lines() + v.Lines()
    {
      Tally(score + v.delta, feedback + v.feedback, warnings + v.warnings)
    }

    /** After the denylist test: a denylisted password has its score reset
        and gets one more warning; the lists are otherwise kept. */
    function Denylisted(common: bool): (r: Tally)
      ensures r.score == (if common then 0 else score)
      ensures r.Lines() == Lines() + (if common then 1 else 0)
      ensures r.feedback == feedback
    {
      if common then Tally(0, feedback, warnings + [VeryCommonPassword]) else this
    }
  }

  /** The state after the length, variety and class checks. */
  function ClassTally(f: Findings): Tally {
    var length := LengthCheck(f.length);
    var variety := VarietyCheck(f.Types());
    var upper := ClassCheck(f.hasUpper, ContainsUpper, MissingUpper);
    var lower := ClassCheck(f.hasLower, ContainsLower, MissingLower);
    var digit := ClassCheck(f.hasDigit, ContainsNumbers, MissingNumbers);
    var symbol := ClassCheck(f.hasSymbol, ContainsSymbols, MissingSymbols);
    Tally(length.delta + variety.delta,
          length.feedback + variety.feedback + upper.feedback + lower.feedback + digit.feedback + symbol.feedback,
          length.warnings + variety.warnings + upper.warnings + lower.warnings + digit.warnings + symbol.warnings)
  }

  /** The state after every check up to the repeated and common patterns. */
  function EarlyTally(f: Findings): Tally {
    var t := ClassTally(f);
    var repeated := PenaltyCheck(f.repeated, 1, RepeatedCharacters);
    var pattern := PenaltyCheck(f.pattern, 2, CommonPatterns);
    Tally(t.score + repeated.delta + pattern.delta, t.feedback, t.warnings + repeated.warnings + pattern.warnings)
  }

  /** The state after every check: the denylist resets the score reached so
      far, then the entropy and sequential checks add theirs. */
  function FinalTally(f: Findings): Tally {
    var t := EarlyTally(f);
    var entropy := EntropyCheck(f.entropy);
    var sequential := PenaltyCheck(f.sequential, 1, SequentialCharacters);
    Tally((if f.common then 0 else t.score) + entropy.delta + sequential.delta,
          t.feedback + entropy.feedback,
          t.warnings + (if f.common then [VeryCommonPassword] else []) + entropy.warnings + sequential.warnings)
  }

  /** The score before clamping. The length, variety and entropy checks add at
      most 3 + 2 + 2; the three pattern checks take at most 1 + 2 + 1. */
  function RawScore(f: Findings): (s: int)
    ensures -4 <= s <= 7
  {
    FinalTally(f).score
  }

  function Clamp(score: int): (c: int)
    ensures 0 <= c <= 10
    ensures 0 <= score <= 10 ==> c == score
  {
    if score < 0 then 0 else if score > 10 then 10 else score
  }

  function StrengthOf(score: int): Strength {
    if score >= 7 then VeryStrong
    else if score >= 5 then Strong
    else if score >= 3 then Moderate
    else Weak
  }

  /** The returned record once the checks are done: the band is taken from
      the raw score, the reported score is clamped. */
  function Conclude(t: Tally, length: nat, entropy: Entropy, charTypes: nat): (a: Analysis)
    ensures 0 <= a.score <= 10
  {
    Analysis(Clamp(t.score), StrengthOf(t.score), t.feedback, t.warnings, length, entropy, charTypes)
  }

  /** The analysis built from what the checks found. */
  function Assess(f: Findings): (a: Analysis)
    ensures 0 <= a.score <= 10
    ensures a.length == f.length && a.charTypes == f.Types() && a.entropy == f.entropy
  {
    Conclude(FinalTally(f), f.length, f.entropy, f.Types())
  }

  /** The analysis of a password. */
  function Report(password: string): (a: Analysis)
    ensures 0 <= a.score <= 10
  {
    Assess(FindingsOf(password))
  }

  // ---------------------------------------------------------------------
  // The analyzer as it runs

  /** The pool is accumulated class by class; the empty password gives the
      plain estimate 0. */
  method CalculateEntropy(password: string) returns (e: Entropy)
    ensures e == EntropyOf(password)
    ensures e.pool == 0 <==> password == []
  {
    var pool := 0;
    if HasLower(password) {
      pool := pool + 26;
    }
    if HasUpper(password) {
      pool := pool + 26;
    }
    if HasDigit(password) {
      pool := pool + 10;
    }
    if HasSymbol(password) {
      pool := pool + 32;
    }
    if pool == 0 {
      return Entropy(0, 0);
    }
    e := Entropy(|password|, pool);
  }

  // Each step below is one block of the analyzer: it reads the running score
  // and lists in `t` and returns them updated, exactly as that block does.

  method LengthStep(t: Tally, length: nat) returns (r: Tally)
    ensures r == t.Then(LengthCheck(length))
  {
    r := t;
    if length >= 16 {
      r := r.(score := r.score + 3, feedback := r.feedback + [ExcellentLength]);
    } else if length >= 12 {
      r := r.(score := r.score + 2, feedback := r.feedback + [GoodLength]);
    } else if length >= 8 {
      r := r.(score := r.score + 1, feedback := r.feedback + [MinimumLength]);
    } else {
      r := r.(warnings := r.warnings + [TooShort]);
    }
  }

  method VarietyStep(t: Tally, charTypes: nat) returns (r: Tally)
    ensures r == t.Then(VarietyCheck(charTypes))
  {
    r := t;
    if charTypes >= 4 {
      r := r.(score := r.score + 2, feedback := r.feedback + [AllTypes]);
    } else if charTypes == 3 {
      r := r.(score := r.score + 1, feedback := r.feedback + [ThreeTypes]);
    } else {
      r := r.(warnings := r.warnings + [LimitedVariety(charTypes)]);
    }
  }

  method ClassStep(t: Tally, present: bool, contains: Message, missing: Message) returns (r: Tally)
    ensures r == t.Then(ClassCheck(present, contains, missing))
  {
    r := t;
    if present {
      r := r.(feedback := r.feedback + [contains]);
    } else {
      r := r.(warnings := r.warnings + [missing]);
    }
  }

  /** The repeated-run, common-pattern and sequential penalties. */
  method PenaltyStep(t: Tally, found: bool, penalty: nat, warning: Message) returns (r: Tally)
    ensures r == t.Then(PenaltyCheck(found, penalty, warning))
  {
    r := t;
    if found {
      r := r.(score := r.score - penalty, warnings := r.warnings + [warning]);
    }
  }

  method DenylistStep(t: Tally, common: bool) returns (r: Tally)
    ensures r == t.Denylisted(common)
  {
    r := t;
    if common {
      r := r.(score := 0, warnings := r.warnings + [VeryCommonPassword]);
    }
  }

  method EntropyStep(t: Tally, entropy: Entropy) returns (r: Tally)
    ensures r == t.Then(EntropyCheck(entropy))
  {
    r := t;
    if entropy.Squared() > 10000 {
      r := r.(score := r.score + 2, feedback := r.feedback + [HighEntropy(entropy)]);
    } else if entropy.Squared() > 6400 {
      r := r.(score := r.score + 1, feedback := r.feedback + [ModerateEntropy(entropy)]);
    } else {
      r := r.(warnings := r.warnings + [LowEntropy(entropy)]);
    }
  }

  /** The band from the raw score and the clamped score. */
  method ConcludeStep(t: Tally, length: nat, entropy: Entropy, charTypes: nat) returns (a: Analysis)
    ensures a == Conclude(t, length, entropy, charTypes)
  {
    var score := t.score;
    var strength;
    if score >= 7 {
      strength := VeryStrong;
    } else if score >= 5 {
      strength := Strong;
    } else if score >= 3 {
      strength := Moderate;
    } else {
      strength := Weak;
    }
    var clamped := if score < 0 then 0 else if score > 10 then 10 else score;
    a := Analysis(clamped, strength, t.feedback, t.warnings, length, entropy, charTypes);
  }

  /** The four class blocks, appended after the length and variety blocks. */
  method PresenceSteps(f: Findings, t: Tally) returns (r: Tally)
    ensures r.score == t.score
    ensures r.feedback == t.feedback + ClassCheck(f.hasUpper, ContainsUpper, MissingUpper).feedback
                        + ClassCheck(f.hasLower, ContainsLower, MissingLower).feedback
                        + ClassCheck(f.hasDigit, ContainsNumbers, MissingNumbers).feedback
                        + ClassCheck(f.hasSymbol, ContainsSymbols, MissingSymbols).feedback
    ensures r.warnings == t.warnings + ClassCheck(f.hasUpper, ContainsUpper, MissingUpper).warnings
                        + ClassCheck(f.hasLower, ContainsLower, MissingLower).warnings
                        + ClassCheck(f.hasDigit, ContainsNumbers, MissingNumbers).warnings
                        + ClassCheck(f.hasSymbol, ContainsSymbols, MissingSymbols).warnings
  {
    r := ClassStep(t, f.hasUpper, ContainsUpper, MissingUpper);
    r := ClassStep(r, f.hasLower, ContainsLower, MissingLower);
    r := ClassStep(r, f.hasDigit, ContainsNumbers, MissingNumbers);
    r := ClassStep(r, f.hasSymbol, ContainsSymbols, MissingSymbols);
  }

  /** A check applied to score 0 and empty lists gives just that check's lines. */
  lemma EmptyThen(v: Verdict)
    ensures Tally(0, [], []).Then(v) == Tally(v.delta, v.feedback, v.warnings)
  {
    assert [] + v.feedback == v.feedback;
    assert [] + v.warnings == v.warnings;
  }

  /** The length and variety blocks, starting from score 0 and empty lists. */
  method OpeningSteps(f: Findings) returns (t: Tally, charTypes: nat)
    ensures charTypes == f.Types()
    ensures t == Tally(LengthCheck(f.length).delta + VarietyCheck(f.Types()).delta,
                       LengthCheck(f.length).feedback + VarietyCheck(f.Types()).feedback,
                       LengthCheck(f.length).warnings + VarietyCheck(f.Types()).warnings)
  {
    t := LengthStep(Tally(0, [], []), f.length);
    EmptyThen(LengthCheck(f.length));
    charTypes := (if f.hasUpper then 1 else 0) + (if f.hasLower then 1 else 0)
               + (if f.hasDigit then 1 else 0) + (if f.hasSymbol then 1 else 0);
    t := VarietyStep(t, charTypes);
  }

  /** The length, variety and class blocks. */
  method ClassSteps(f: Findings) returns (t: Tally, charTypes: nat)
    ensures t == ClassTally(f) && charTypes == f.Types()
  {
    t, charTypes := OpeningSteps(f);
    t := PresenceSteps(f, t);
  }

  /** The repeated-run and common-pattern blocks. */
  method PatternSteps(f: Findings, t: Tally) returns (r: Tally)
    requires t == ClassTally(f)
    ensures r == EarlyTally(f)
  {
    r := PenaltyStep(t, f.repeated, 1, RepeatedCharacters);
    r := PenaltyStep(r, f.pattern, 2, CommonPatterns);
  }

  /** The denylist, entropy and sequential blocks. */
  method LateSteps(f: Findings, t: Tally) returns (r: Tally)
    requires t == EarlyTally(f)
    ensures r == FinalTally(f)
  {
    r := DenylistStep(t, f.common);
    r := EntropyStep(r, f.entropy);
    r := PenaltyStep(r, f.sequential, 1, SequentialCharacters);
  }

  /** The scoring blocks of the analyzer, in order, over what its tests found. */
  method ScoreFindings(f: Findings) returns (a: Analysis)
    ensures a == Assess(f)
  {
    var t, charTypes := ClassSteps(f);
    t := PatternSteps(f, t);
    t := LateSteps(f, t);
    a := ConcludeStep(t, f.length, f.entropy, charTypes);
  }

  /** The analyzer's tests: the four class searches, the two pattern
      searches, the denylist lookup, the entropy estimate and the search for
      sequential triples. */
  method Examine(password: string) returns (f: Findings)
    ensures f == FindingsOf(password)
  {
    var hasUpper := HasUpper(password);
    var hasLower := HasLower(password);
    var hasDigit := HasDigit(password);
    var hasSymbol := HasSymbol(password);
    var repeated := HasRepeatedRun(password);
    var pattern := HasCommonPattern(password);
    var common := Denylist.IsCommon(password);
    var entropy := CalculateEntropy(password);
    var sequential := HasSequentialChars(password);
    f := Findings(|password|, hasUpper, hasLower, hasDigit, hasSymbol,
                  repeated, pattern, common, entropy, sequential);
  }

  /** Runs the analyzer's tests over the password, then its scoring blocks over
      what they found. */
  method AnalyzePasswordStrength(password: string) returns (a: Analysis)
    ensures a == Report(password)
  {
    var f := Examine(password);
    a := ScoreFindings(f);
  }
}
