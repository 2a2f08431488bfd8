/** Reference characterisations of the analyzer's substring tests. */
module PatternProperties {
  import opened Charset
  import opened Analyzer

  // ---------------------------------------------------------------------
  // Repeated runs

  /** The scan from `i` finds exactly the runs starting at `i` or later. */
  lemma {:induction false} RepeatedFromIff(password: string, i: nat)
    ensures RepeatedFrom(password, i) <==> exists j :: i <= j && RunAt(password, j)
    decreases |password| - i
  {
    if i + 2 < |password| {
      RepeatedFromIff(password, i + 1);
      if exists j :: i <= j && RunAt(password, j) {
        var j :| i <= j && RunAt(password, j);
        assert j == i || (i + 1 <= j && RunAt(password, j));
      }
    }
  }

  /** `(.)\1{2,}` matches exactly when some character other than a newline
      appears three times in a row. */
  lemma RepeatedRunIff(password: string)
    ensures HasRepeatedRun(password) <==> exists j :: RunAt(password, j)
  {
    RepeatedFromIff(password, 0);
  }

  // ---------------------------------------------------------------------
  // Sequential triples

  /** Three characters ascending by one, starting at a letter `a`..`x` or a
      digit `1`..`7`: the triples the analyzer lists. */
  predicate AscendingTriple(t: string) {
    |t| == 3 && ('a' <= t[0] <= 'x' || '1' <= t[0] <= '7')
    && t[1] as int == t[0] as int + 1 && t[2] as int == t[0] as int + 2
  }

  /** Some listed triple starts at position `j` of `s`. */
  predicate AscendingAt(s: string, j: int) {
    0 <= j && j + 3 <= |s| && AscendingTriple(s[j..j + 3])
  }

  /** The triple starting at `c`. */
  function Triple(c: char): (t: string)
    requires 'a' <= c <= 'x' || '1' <= c <= '7'
    ensures AscendingTriple(t) && t[0] == c
  {
    [c, (c as int + 1) as char, (c as int + 2) as char]
  }

  lemma LetterTriples(k: int)
    requires 0 <= k < 24
    ensures Sequences[k] == Triple(('a' as int + k) as char)
  {
  }

  lemma DigitTriples(k: int)
    requires 0 <= k < 7
    ensures Sequences[24 + k] == Triple(('1' as int + k) as char)
  {
  }

  /** The list holds exactly the ascending triples: every entry is one, and
      every one is an entry. */
  lemma SequencesAreAscendingTriples(t: string)
    ensures t in Sequences <==> AscendingTriple(t)
  {
    if t in Sequences {
      var k :| 0 <= k < |Sequences| && Sequences[k] == t;
      if k < 24 {
        LetterTriples(k);
      } else {
        DigitTriples(k - 24);
      }
    }
    if AscendingTriple(t) {
      var c := t[0];
      if 'a' <= c <= 'x' {
        LetterTriples(c as int - 'a' as int);
        assert t == Triple(c);
      } else {
        DigitTriples(c as int - '1' as int);
        assert t == Triple(c);
      }
    }
  }

  /** The sequential test fires exactly when, after lowercasing, some three
      consecutive characters ascend by one from a letter `a`..`x` or a digit
      `1`..`7`: no `0` start and no wrap-around such as `yza` or `890`. */
  lemma SequentialIff(password: string)
    ensures HasSequentialChars(password) <==> exists j :: AscendingAt(Lower(password), j)
  {
    var s := Lower(password);
    if HasSequentialChars(password) {
      var k :| 0 <= k < |Sequences| && Contains(s, Sequences[k]);
      ContainsIff(s, Sequences[k]);
      var j :| OccursAt(s, Sequences[k], j);
      SequencesAreAscendingTriples(Sequences[k]);
      assert AscendingAt(s, j);
    }
    if exists j :: AscendingAt(s, j) {
      var j :| AscendingAt(s, j);
      var t := s[j..j + 3];
      SequencesAreAscendingTriples(t);
      var k :| 0 <= k < |Sequences| && Sequences[k] == t;
      assert OccursAt(s, Sequences[k], j);
      ContainsIff(s, Sequences[k]);
    }
  }

  // ---------------------------------------------------------------------
  // Common patterns

  /** `abc` and `123` are both common patterns and sequential triples, so a
      password containing either pays both penalties. */
  lemma SharedPatternsPayTwice(password: string)
    requires Contains(Lower(password), "abc") || Contains(Lower(password), "123")
    ensures HasCommonPattern(password) && HasSequentialChars(password)
  {
    var s := Lower(password);
    if Contains(s, "abc") {
      assert CommonPatternList[1] == "abc" && Sequences[0] == "abc";
    } else {
      assert CommonPatternList[0] == "123" && Sequences[24] == "123";
    }
  }

  /** A string of one repeated character contains no pattern whose first two
      characters differ. */
  lemma UniformAvoidsPatterns(s: string, patterns: seq<string>)
    requires forall i :: 0 <= i < |s| ==> s[i] == s[0]
    requires forall k :: 0 <= k < |patterns| ==> |patterns[k]| >= 2 && patterns[k][0] != patterns[k][1]
    ensures !AnyOccurs(s, patterns)
  {
    forall k | 0 <= k < |patterns|
      ensures !Contains(s, patterns[k])
    {
      var t := patterns[k];
      forall j
        ensures !OccursAt(s, t, j)
      {
        if 0 <= j && j + |t| <= |s| {
          assert s[j..j + |t|][0] == s[j..j + |t|][1];
        }
      }
      ContainsIff(s, t);
    }
  }

  /** Neither list holds a pattern made of one repeated character. */
  lemma UniformHasNoPattern(password: string)
    requires forall i :: 0 <= i < |password| ==> password[i] == password[0]
    ensures !HasCommonPattern(password) && !HasSequentialChars(password)
  {
    var s := Lower(password);
    UniformAvoidsPatterns(s, CommonPatternList);
    UniformAvoidsPatterns(s, Sequences);
  }

  // ---------------------------------------------------------------------
  // Examples

  /** The tests ignore case: `xAbCx` has the triple `abc`. */
  lemma MixedCaseTripleIsFound()
    ensures HasSequentialChars("xAbCx") && HasCommonPattern("xAbCx")
  {
    var s := Lower("xAbCx");
    assert s == "xabcx";
    assert s[1..4] == "abc";
    assert OccursAt(s, "abc", 1);
    ContainsIff(s, "abc");
    SharedPatternsPayTwice("xAbCx");
  }

  /** Runs starting at `0` and runs that wrap around are not sequential. */
  lemma UnlistedRunsAreNotSequential()
    ensures !HasSequentialChars("012")
    ensures !HasSequentialChars("yza")
    ensures !HasSequentialChars("890")
  {
    NotSequential("012");
    NotSequential("yza");
    NotSequential("890");
  }

  /** A three-character string with no capital letters that is not itself
      an ascending triple has no sequential triple. */
  lemma NotSequential(t: string)
    requires |t| == 3 && Lower(t) == t && !AscendingTriple(t)
    ensures !HasSequentialChars(t)
  {
    SequentialIff(t);
  }

  /** A newline repeated three times is not a run: `.` skips newlines. */
  lemma NewlinesAreNotARun()
    ensures HasRepeatedRun("aaa")
    ensures !HasRepeatedRun("\n\n\n")
  {
    assert RunAt("aaa", 0);
    RepeatedRunIff("aaa");
    RepeatedRunIff("\n\n\n");
  }
}
