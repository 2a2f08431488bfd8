# Password security expert, modelled in Dafny

This project models the `PasswordSecurityExpert` class of a small Flask
password tool (`app.py`, lines 10-227). The class has two operations.

- **The strength analyzer** (`analyze_password_strength`) runs a fixed series
  of checks over one password, in order:
  - length buckets;
  - character variety;
  - one line per character class;
  - a repeated-run test and a common-substring test;
  - denylist membership;
  - an entropy band;
  - a sequential-triple test.

  Each check changes one running score and appends lines to a feedback list
  and a warning list. The strength band (label, CSS class, colour) comes from
  the raw score. The reported score is the raw score clamped to [0, 10].
- **The generator** (`generate_strong_password`):
  - validates its options, length first and then the class flags;
  - builds a pool from the selected alphabets;
  - draws one character from each selected class, then fills the rest of the
    buffer from the whole pool;
  - shuffles the buffer in place and analyses the result.

The helpers `_load_common_passwords`, `_calculate_entropy` and
`_has_sequential_chars` are modelled as well.

Modules:

- `Charset` (`charset.dfy`) holds the vocabulary:
  - the regular-expression classes `[a-z]`, `[A-Z]`, `[0-9]`, `[^A-Za-z0-9]`
    as range predicates;
  - the generator's four alphabets;
  - ASCII `lower()`;
  - substring search (`t in s`).
- `Denylist` (`denylist.dfy`) is the constant set of 23 common passwords and
  its case-insensitive lookup.
- `Analyzer` (`analyzer.dfy`) holds the analyzer in two forms:
  - The specification: each check is a function returning its `Verdict`, a
    score change plus lines. `ClassTally`, `EarlyTally` and `FinalTally`
    accumulate the verdicts in check order. `Assess` and `Report` build the
    returned record.
  - The analyzer as it runs: one method per block of the source, each
    updating the running `Tally` as that block does. `AnalyzePasswordStrength`
    runs all of them and is proved to return `Report(password)`.

  `CalculateEntropy` accumulates the pool as `_calculate_entropy` does.
- `AnalyzerProperties` (`analyzer_properties.dfy`) holds an order-free reference
  for the lines: `InFeedback` and `InWarnings` say which line appears under
  which finding. It proves that membership in the tally's lists matches that
  reference. The number of lines is counted separately, and the order of the
  lines is fixed only by `FinalTally` itself and the worked examples. It then states
  per check, for the analysis of any password, when each line appears. It also
  covers:
  - the score bounds and the band;
  - the number of lines;
  - the denylist reset;
  - the top score;
  - a floor for long, varied passwords.
- `PatternProperties` (`patterns.dfy`) gives reference characterisations:
  - the repeated-run scan;
  - the 31 listed triples, proved to be exactly the ascending triples;
  - the substring tests;
  - a few worked cases.
- `AnalyzerExamples` (`examples.dfy`) works through whole analyses: the empty
  password, and a run of one repeated lowercase letter.
- `Generator` (`generator.dfy`) holds the pool, the draws, the Fisher–Yates
  shuffle over an `array<char>`, and the generator. It also proves what the
  analysis of a generated password reports.

Modelling choices:

- **Entropy.** The estimate `len * sqrt(pool)` is kept exactly as the pair
  `Entropy(length, pool)`. The comparisons `> 100` and `> 80` become
  `length² · pool > 10000` and `> 6400`; both sides are non-negative, so this
  is equivalent over exact reals. It also agrees with the source's
  floating-point comparison: no reachable pool (10, 26, 32, 36, 42, 52, 58, 62,
  68, 84, 94) makes `length² · pool` equal to 6400 or 10000, and for every
  length the estimate stays more than 0.6 away from 80 and from 100, far above
  rounding error. The analyzer's plain `0` for an empty pool is
  `Entropy(0, 0)`.
- **Text.** Strings are `seq<char>`. `lower()` is ASCII lowercasing.
- **Lines.** Feedback and warning lines form the datatype `Message`. Its
  `Text()` gives the literal text, and for the three entropy lines only the
  prefix before the printed number.
- **Randomness.** Every random choice (`secrets.choice`, and the swap index
  of `SystemRandom().shuffle`) is a nondeterministic `:|` choice of an
  in-range value. Every property is therefore proved for all possible draws.
- **Two quirks of the code.** The sequential test lists 31 triples
  (`abc`…`xyz` and `123`…`789`; there is no `012`). The symbol alphabet of
  the generator has 26 characters, while the entropy pool counts the symbol
  class as 32. The model keeps both as written.

## Model

| member | source | states |
|---|---|---|
| Charset.ToLower | app.py:221 | ASCII lowercasing maps `A`..`Z` onto `a`..`z` letter for letter (the k-th letter of `ascii_uppercase` to the k-th of `ascii_lowercase`) and keeps every other character |
| Charset.Lower | app.py:221 | `lower()` keeps the length and lowercases character by character |
| Charset.ContainsIff | app.py:227 | `t in s` holds exactly when `t` occurs in `s` at some position |
| Charset.OccursFromIff | app.py:227 | the scan from position `i` finds exactly the occurrences at `i` or later |
| Charset.NonEmptyHasClass | app.py:105-108 | every character falls in one of the four classes, so a non-empty password shows at least one |
| Charset.AlphabetMembership | app.py:39-45 | `ascii_lowercase`, `ascii_uppercase` and `digits` hold exactly their class; every symbol-alphabet character is outside `[A-Za-z0-9]` |
| Charset.LowercaseMembership | app.py:39 | a character is in `ascii_lowercase` exactly when it is in `a`..`z` |
| Charset.UppercaseMembership | app.py:41 | a character is in `ascii_uppercase` exactly when it is in `A`..`Z` |
| Charset.DigitsMembership | app.py:43 | a character is in `digits` exactly when it is in `0`..`9` |
| Charset.AlphabetsDisjoint | app.py:36-45 | the four alphabets have 26, 26, 10 and 26 characters and share none; no symbol is a letter or a digit |
| Charset.LowerClasses | app.py:147 | lowercasing merges the two letter classes and keeps digits and symbols |
| Charset.IsLower | app.py:106 | no contract: the regex class `[a-z]` on one character (also the test at app.py:205); characterised by Charset.LowercaseMembership and Charset.AlphabetsDisjoint |
| Charset.IsUpper | app.py:105 | no contract: the regex class `[A-Z]` on one character (also at app.py:207); characterised by Charset.UppercaseMembership and Charset.AlphabetsDisjoint |
| Charset.IsDigit | app.py:107 | no contract: the regex class `[0-9]` on one character (also at app.py:209); characterised by Charset.DigitsMembership and Charset.AlphabetsDisjoint |
| Charset.IsSymbol | app.py:108 | no contract: the negated class `[^A-Za-z0-9]` on one character (also at app.py:211); characterised by Charset.AlphabetsDisjoint and Charset.NonEmptyHasClass |
| Charset.SymbolAlphabet | app.py:45 | no contract: the generator's 26-character symbol string (also drawn from at app.py:60); characterised by Charset.AlphabetMembership and Charset.AlphabetsDisjoint |
| Charset.HasLower | app.py:106 | no contract: the `[a-z]` search; characterised by Charset.LowerClasses and Generator.FitsClasses |
| Charset.HasUpper | app.py:105 | no contract: the `[A-Z]` search; characterised by Charset.LowerClasses and Generator.FitsClasses |
| Charset.HasDigit | app.py:107 | no contract: the `[0-9]` search; characterised by Charset.LowerClasses and Generator.FitsClasses |
| Charset.HasSymbol | app.py:108 | no contract: the `[^A-Za-z0-9]` search; characterised by Charset.NonEmptyHasClass and Generator.FitsClasses |
| Charset.Lowercase | app.py:39 | no contract: `string.ascii_lowercase`; characterised by Charset.LowercaseMembership and Charset.AlphabetsDisjoint |
| Charset.Uppercase | app.py:41 | no contract: `string.ascii_uppercase`; characterised by Charset.UppercaseMembership and Charset.AlphabetsDisjoint |
| Charset.Digits | app.py:43 | no contract: `string.digits`; characterised by Charset.DigitsMembership and Charset.AlphabetsDisjoint |
| Charset.OccursFrom | app.py:227 | no contract: the scan behind `t in s` from position `i` (also at app.py:147); characterised by Charset.OccursFromIff |
| Charset.Contains | app.py:147 | no contract: the substring test `t in s` (also at app.py:227); characterised by Charset.ContainsIff |
| Denylist.CommonPasswords | app.py:14-22 | no contract: the 23 literals `_load_common_passwords` returns; characterised by Denylist.EntriesShortAndAlphanumeric |
| Denylist.EntriesShortAndAlphanumeric | app.py:16-21 | every denylist entry has 4 to 9 characters, all lowercase letters or digits |
| Denylist.CommonIsShortWithoutSymbols | app.py:152 | any password whose lowercase form is denylisted has 4 to 9 characters and no symbol |
| Denylist.IsCommon | app.py:152 | no contract: membership of the lowercased password in the denylist; characterised by Denylist.CommonIsShortWithoutSymbols |
| Analyzer.LengthCheck | app.py:92-102 | exactly one length line; +3 exactly from 16 characters, +2 exactly for 12-15, +1 exactly for 8-11, 0 exactly below 8 |
| Analyzer.VarietyCheck | app.py:112-119 | exactly one variety line; +2 exactly for four classes, +1 exactly for three, 0 exactly below three |
| Analyzer.Strength.Label | app.py:173-188 | no contract: the band names "Very Strong", "Strong", "Moderate", "Weak"; chosen by Analyzer.StrengthOf |
| Analyzer.Strength.CssClass | app.py:173-188 | no contract: the CSS classes `very-strong`, `strong`, `moderate`, `weak` |
| Analyzer.Strength.Color | app.py:173-188 | no contract: the colours `#10b981`, `#059669`, `#d97706`, `#dc2626` |
| Analyzer.Message.Text | app.py:94-170 | no contract: the literal feedback and warning lines (for the entropy lines, the text before the number); which lines appear is stated by AnalyzerProperties.ReportFeedback and ReportWarnings |
| Analyzer.Decimal | app.py:119 | the `{char_types}` formatting: a non-empty string of decimal digits, the single digit itself below 10 |
| Analyzer.ClassCheck | app.py:122-140 | one line per class, feedback exactly when present, no score change |
| Analyzer.PenaltyCheck | app.py:143-149 | a found pattern costs its penalty and one warning; otherwise nothing |
| Analyzer.EntropyCheck | app.py:158-165 | exactly one entropy line; +2 exactly above 100 bits, at least +1 exactly above 80 bits |
| Analyzer.NominalPool | app.py:204-212 | the pool is at most 94, and 0 exactly for the empty password |
| Analyzer.EntropyOf | app.py:202-217 | the estimate is 0 exactly for the empty password |
| Analyzer.CharTypes | app.py:110 | `char_types` (the class count of the password's findings) lies in 0..4 and is 0 exactly for the empty password |
| Analyzer.Findings.Types | app.py:110 | the class count lies in 0..4 |
| Analyzer.RawScore | app.py:87-170 | the raw score lies in -4..7 |
| Analyzer.Clamp | app.py:191 | `min(max(score, 0), 10)` lies in 0..10 and leaves in-range scores alone |
| Analyzer.Conclude | app.py:172-200 | the returned score lies in 0..10 |
| Analyzer.Assess | app.py:190-200 | score in 0..10; length, entropy and `char_types` are those of the findings |
| Analyzer.Report | app.py:83-200 | the reported score lies in 0..10 |
| Analyzer.Tally.Then | app.py:93-170 | one more check adds its score change, and the lists grow by its number of lines |
| Analyzer.Tally.Denylisted | app.py:152-154 | the denylist resets the score to 0 and adds one line, keeping the feedback |
| Analyzer.RunAt | app.py:143 | no contract: three equal non-newline characters from one position; characterised by PatternProperties.RepeatedFromIff |
| Analyzer.RepeatedFrom | app.py:143 | no contract: the scan for such a run from one position on; characterised by PatternProperties.RepeatedFromIff |
| Analyzer.HasRepeatedRun | app.py:143 | no contract: the `(.)\1{2,}` search; characterised by PatternProperties.RepeatedRunIff |
| Analyzer.AnyOccurs | app.py:147 | no contract: some listed pattern occurs in the text; characterised by PatternProperties.UniformAvoidsPatterns |
| Analyzer.CommonPatternList | app.py:147 | no contract: the six alternatives `123`, `abc`, `qwerty`, `password`, `admin`, `welcome`; characterised by PatternProperties.SharedPatternsPayTwice and PatternProperties.UniformHasNoPattern |
| Analyzer.HasCommonPattern | app.py:147 | no contract: the common-pattern search on the lowercased password; characterised by PatternProperties.UniformHasNoPattern and PatternProperties.SharedPatternsPayTwice |
| Analyzer.Sequences | app.py:222-225 | no contract: the 31 listed triples; characterised by PatternProperties.SequencesAreAscendingTriples |
| Analyzer.HasSequentialChars | app.py:219-227 | no contract: some listed triple occurs in the lowercased password; characterised by PatternProperties.SequentialIff |
| Analyzer.FindingsOf | app.py:105-168 | no contract: the outcome of every test on a password; characterised by AnalyzerProperties.ReportParts and the per-check line lemmas (AnalyzerProperties.LengthLines and its siblings) |
| Analyzer.ClassTally | app.py:91-140 | no contract: the length, variety and class verdicts accumulated in order; characterised by AnalyzerProperties.ClassFeedback and AnalyzerProperties.ClassWarnings |
| Analyzer.EarlyTally | app.py:91-149 | no contract: `ClassTally` followed by the two pattern penalties; characterised by AnalyzerProperties.EarlyWarnings |
| Analyzer.FinalTally | app.py:91-170 | no contract: `EarlyTally` followed by the denylist reset, the entropy band and the sequential penalty; characterised by AnalyzerProperties.FeedbackReference, AnalyzerProperties.WarningsReference and AnalyzerProperties.TallyLineCount |
| Analyzer.StrengthOf | app.py:173-188 | no contract: the band for a raw score (7, 5 and 3 as thresholds); characterised by AnalyzerProperties.ScoreAndBand and AnalyzerProperties.VeryStrongIsTopScore |
| Analyzer.CalculateEntropy | app.py:202-217 | the pool accumulated class by class gives `EntropyOf`; the pool is 0 exactly for the empty password |
| Analyzer.LengthStep | app.py:91-102 | the length block performs the length check's update |
| Analyzer.VarietyStep | app.py:112-119 | the variety block performs the variety check's update |
| Analyzer.ClassStep | app.py:122-140 | each class block performs its class check's update |
| Analyzer.PenaltyStep | app.py:143-149 | the repeated-run and pattern blocks, and the sequential block at app.py:168-170, perform their penalty update |
| Analyzer.DenylistStep | app.py:152-154 | the denylist block performs the reset |
| Analyzer.EntropyStep | app.py:156-165 | the entropy block performs the entropy check's update |
| Analyzer.ConcludeStep | app.py:172-200 | the band from the raw score and the clamped score, as `Conclude` |
| Analyzer.OpeningSteps | app.py:87-119 | from score 0 and empty lists, the length and variety blocks give the sum of the two checks' changes and their lines in order, with `char_types` the class count |
| Analyzer.PresenceSteps | app.py:122-140 | the four class blocks keep the score and append each class's line in the order upper, lower, digits, symbols |
| Analyzer.ClassSteps | app.py:91-140 | the length, variety and class blocks reach `ClassTally` |
| Analyzer.PatternSteps | app.py:142-149 | the two pattern blocks reach `EarlyTally` |
| Analyzer.LateSteps | app.py:151-170 | the denylist, entropy and sequential blocks reach `FinalTally` |
| Analyzer.ScoreFindings | app.py:87-200 | the scoring blocks in order return `Assess` of the findings |
| Analyzer.Examine | app.py:105-168 | the analyzer's tests compute `FindingsOf(password)` |
| Analyzer.AnalyzePasswordStrength | app.py:83-200 | the analyzer returns `Report(password)` |
| AnalyzerProperties.LengthMessages | app.py:92-102 | which length line the length check gives, for each length |
| AnalyzerProperties.VarietyMessages | app.py:112-119 | which variety line the variety check gives, with the class count it names |
| AnalyzerProperties.EntropyMessages | app.py:158-165 | which entropy line the entropy check gives, carrying the estimate |
| AnalyzerProperties.ClassFeedback | app.py:91-140 | the feedback after the class blocks is that of the length, variety and four class checks |
| AnalyzerProperties.ClassWarnings | app.py:91-140 | the warnings after the class blocks are those of the length, variety and four class checks |
| AnalyzerProperties.EarlyWarnings | app.py:142-149 | the pattern blocks add exactly their warnings |
| AnalyzerProperties.LateFeedback | app.py:151-170 | only the entropy block adds feedback after the class blocks |
| AnalyzerProperties.LateWarnings | app.py:151-170 | the denylist, entropy and sequential blocks add exactly their warnings |
| AnalyzerProperties.FeedbackFromChecks | app.py:91-165 | the reference for feedback is the union of the checks' feedback |
| AnalyzerProperties.WarningsFromChecks | app.py:91-170 | the reference for warnings is the union of the checks' warnings |
| AnalyzerProperties.FeedbackReference | app.py:87-170 | a line is in the final feedback exactly when the reference says so |
| AnalyzerProperties.WarningsReference | app.py:87-170 | a line is in the final warnings exactly when the reference says so |
| AnalyzerProperties.ReportParts | app.py:83-200 | the returned feedback, warnings, score, band and `char_types` come from the final tally of the findings |
| AnalyzerProperties.ReportCharTypes | app.py:105-110 | the returned `char_types` counts the classes present in the password |
| AnalyzerProperties.ReportFeedback | app.py:83-200 | a line is in the returned feedback exactly when the reference says so |
| AnalyzerProperties.ReportWarnings | app.py:83-200 | a line is in the returned warnings exactly when the reference says so |
| AnalyzerProperties.TallyLengthLines | app.py:92-102 | for any findings, each length line appears exactly in its bucket |
| AnalyzerProperties.TallyVarietyLines | app.py:112-119 | for any findings, each variety line appears exactly for its class count |
| AnalyzerProperties.TallyUpperLines | app.py:122-125 | for any findings, the uppercase feedback line appears exactly when uppercase is present, its warning exactly when absent |
| AnalyzerProperties.TallyLowerLines | app.py:127-130 | the same for lowercase |
| AnalyzerProperties.TallyNumberLines | app.py:132-135 | the same for digits |
| AnalyzerProperties.TallySymbolLines | app.py:137-140 | the same for symbols |
| AnalyzerProperties.TallyEarlyPenaltyLines | app.py:143-149 | for any findings, the repeated and common-pattern warnings appear exactly when their tests fire |
| AnalyzerProperties.TallyLatePenaltyLines | app.py:151-170 | for any findings, the denylist and sequential warnings appear exactly when their tests fire |
| AnalyzerProperties.TallyEntropyFeedbackLines | app.py:158-163 | for any findings, the high and moderate entropy lines appear exactly in their bands |
| AnalyzerProperties.TallyLowEntropyLine | app.py:164-165 | for any findings, the low entropy warning appears exactly at 80 bits or below |
| AnalyzerProperties.LengthLines | app.py:92-102 | exactly one length line, by the password's length |
| AnalyzerProperties.VarietyLines | app.py:110-119 | the variety line matches the returned `char_types`, and the warning names that count |
| AnalyzerProperties.ClassLines | app.py:104-140 | each class of the password gives its feedback line when present and its warning when absent |
| AnalyzerProperties.PenaltyLines | app.py:142-170 | the repeated-run, pattern, denylist and sequential warnings appear exactly when their tests fire, also after a denylist reset |
| AnalyzerProperties.EntropyLines | app.py:156-165 | exactly one entropy line, carrying the password's estimate |
| AnalyzerProperties.ScoreAndBand | app.py:172-191 | the clamp only lifts a negative raw score to 0, and the band is the band of the returned score |
| AnalyzerProperties.LineCount | app.py:91-170 | seven lines always, plus one per pattern, denylist or sequential finding |
| AnalyzerProperties.TallyLineCount | app.py:91-170 | the same count for any findings |
| AnalyzerProperties.TallyDenylistReset | app.py:152-170 | after the reset only the entropy and sequential checks change the score |
| AnalyzerProperties.ShortWithoutSymbolsIsLowEntropy | app.py:202-217 | at most nine characters without symbols estimate at most 80 bits |
| AnalyzerProperties.CommonPasswordIsWeak | app.py:152-165 | any case variant of a denylisted password gets score 0, Weak, the denylist warning and the low-entropy warning |
| AnalyzerProperties.TallyTopScore | app.py:87-170 | the raw score is 7 exactly with every bonus and no penalty |
| AnalyzerProperties.TopScore | app.py:87-191 | a password scores 7 exactly when it is 16+ characters, all four classes, above 100 bits and free of every pattern |
| AnalyzerProperties.AssessVeryStrong | app.py:173-191 | Very Strong exactly for the returned score 7 |
| AnalyzerProperties.VeryStrongIsTopScore | app.py:173-191 | a password is Very Strong exactly when its returned score is 7 |
| AnalyzerProperties.TallyLongAndVaried | app.py:92-170 | 16+ characters, four classes, above 100 bits and not denylisted give a raw score of at least 3 |
| AnalyzerProperties.LongAndVariedIsNotWeak | app.py:92-188 | a password of 16+ characters with all four classes scores at least 3 and is not Weak |
| PatternProperties.RepeatedFromIff | app.py:143 | the scan from `i` finds exactly the runs at `i` or later |
| PatternProperties.RepeatedRunIff | app.py:143 | `(.)\1{2,}` matches exactly when a non-newline character appears three times in a row |
| PatternProperties.Triple | app.py:222-225 | the triple starting at a given character ascends by one |
| PatternProperties.LetterTriples | app.py:222-224 | the first 24 entries are the letter triples `abc`..`xyz` in order |
| PatternProperties.DigitTriples | app.py:225 | the last 7 entries are the digit triples `123`..`789` in order |
| PatternProperties.SequencesAreAscendingTriples | app.py:222-225 | the list holds exactly the ascending triples starting at `a`..`x` or `1`..`7` |
| PatternProperties.SequentialIff | app.py:219-227 | the sequential test fires exactly when the lowercased password has an ascending triple at some position |
| PatternProperties.SharedPatternsPayTwice | app.py:147-149 | `abc` or `123` anywhere costs both the pattern and the sequential penalty |
| PatternProperties.UniformAvoidsPatterns | app.py:147 | a run of one character contains no pattern whose first two characters differ |
| PatternProperties.UniformHasNoPattern | app.py:147-149 | a run of one character has no common pattern and no sequential triple |
| PatternProperties.MixedCaseTripleIsFound | app.py:221-227 | `xAbCx` has the triple `abc` after lowercasing, and the common pattern too |
| PatternProperties.UnlistedRunsAreNotSequential | app.py:222-225 | `012`, `yza` and `890` are not sequential |
| PatternProperties.NotSequential | app.py:219-227 | a lowercase three-character string that is not an ascending triple is not sequential |
| PatternProperties.NewlinesAreNotARun | app.py:143 | `aaa` is a run and three newlines are not |
| AnalyzerExamples.NothingFoundAssessed | app.py:87-200 | with nothing found the analysis is score 0, Weak, no feedback and the seven warnings in check order |
| AnalyzerExamples.EmptyPasswordFindings | app.py:105-168 | every test fails on the empty password |
| AnalyzerExamples.EmptyPasswordReport | app.py:87-200 | the empty password gives score 0, Weak, no feedback, the seven warnings, length 0, entropy 0, `char_types` 0 |
| AnalyzerExamples.LetterRunEntropy | app.py:158-163 | 16 to 19 repeated letters estimate between 80 and 100 bits, 20 or more above 100 |
| AnalyzerExamples.LetterRunAssessed | app.py:87-200 | the full feedback and warning lists and the score of a repeated-letter password |
| AnalyzerExamples.LetterRunFindings | app.py:105-168 | what the tests find in a repeated lowercase letter |
| AnalyzerExamples.LetterRunReport | app.py:87-200 | one lowercase letter repeated 16 or more times scores 3 below 20 characters and 4 from 20 on, is Moderate, and gets the repeated-run warning but no pattern or sequential warning |
| Generator.Options | app.py:24-28 | no contract: the generator's length and four class flags; constrained by Generator.GenerateStrongPassword |
| Generator.DefaultOptions | app.py:24-28 | no contract: the defaults, length 16 and every class; characterised by Generator.DefaultIsNotWeak |
| Generator.LengthError | app.py:33-34 | no contract: the length error message; returned exactly when length < 8, by Generator.GenerateStrongPassword |
| Generator.SelectionError | app.py:47-48 | no contract: the selection error message; returned exactly for length >= 8 with no class selected, by Generator.GenerateStrongPassword |
| Generator.Allowed | app.py:36-45 | no contract: the characters the selected classes contribute to the pool; characterised by Generator.PoolMembership |
| Generator.Selected | app.py:53-60 | at most four classes are selected |
| Generator.Pool | app.py:36-45 | no contract: the selected alphabets concatenated in source order; characterised by Generator.PoolMembership and Generator.PoolSize |
| Generator.Fits | app.py:50-70 | no contract: what a generated password satisfies; established by Generator.GenerateStrongPassword via Generator.PermutationFits |
| Generator.PoolMembership | app.py:36-45 | the pool holds exactly the characters of the selected classes |
| Generator.PoolSize | app.py:36-48 | the pool has 26, 26, 10 and 26 characters per selected alphabet, and is empty exactly when nothing is selected |
| Generator.BuildPool | app.py:36-45 | the pool extended alphabet by alphabet is `Pool` |
| Generator.Choice | app.py:54-65 | a draw returns a character of the alphabet |
| Generator.Shuffle | app.py:68 | the shuffle permutes the buffer: its multiset of characters is kept |
| Generator.DrawClasses | app.py:51-60 | one allowed character per selected class, each from its alphabet |
| Generator.GenerateStrongPassword | app.py:24-78 | the length error below 8 whatever the flags; then the selection error when nothing is selected; otherwise a password of the requested length from the selected classes, with at least one per class, and its analysis |
| Generator.PermutationFits | app.py:62-70 | filling and shuffling keep the length, the allowed characters and one character per selected class |
| Generator.PermutationHasFrom | app.py:68 | a permutation keeps a character of a given alphabet |
| Generator.FitsClasses | app.py:36-60 | a generated password shows exactly the selected classes, so its class count is the number selected |
| Generator.GeneratedCharTypes | app.py:73 | the analysis of a generated password reports as `char_types` the number of selected classes |
| Generator.DefaultIsNotWeak | app.py:24-28 | with the default options (16 characters, all classes) the generated password scores at least 3 and is not Weak |

## Left out

- The Flask application, its secret key, routes and JSON handling (app.py:1-8, 229-280), including the empty-password guard of the analysis route. These are transport and I/O.
- The browser script (`static/js/script.js`) is not part of this model. It is DOM manipulation, requests and rendering.
- The quality and uniformity of the random source. Draws and swap indices are arbitrary in-range choices, so no distribution is modelled.
- The floating-point entropy value and its `.1f` formatting. The estimate is the exact pair (length, pool), and the three entropy lines keep only their text before the number.
- The `except Exception` wrapper of the generator (app.py:80-81). With in-range choices nothing on the valid path raises.
- Unicode behaviour of `str.lower()` and of the regular-expression engine. Lowercasing is ASCII only, and the classes are explicit ranges.
- The `__init__` constructor (app.py:11-12) only stores the denylist. The model reads the constant `Denylist.CommonPasswords` directly.
- Analyzer.Examine: runs all of the analyzer's tests before scoring, whereas the source interleaves the two. The tests have no side effects, so the result is the same.
- Generator.GenerateStrongPassword: the returned record keeps the entropy as (length, pool) rather than a float, like every analysis in the model.
