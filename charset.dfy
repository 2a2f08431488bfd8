/** Character classes, the generator's alphabets, ASCII lowercasing and
    substring search: the vocabulary shared by the analyzer and the generator.
    The regular-expression classes of the analyzer (`[a-z]`, `[A-Z]`, `[0-9]`,
    `[^A-Za-z0-9]`) become range predicates on single characters. */
module Charset {

  predicate IsLower(c: char) { 'a' <= c <= 'z' }
  predicate IsUpper(c: char) { 'A' <= c <= 'Z' }
  predicate IsDigit(c: char) { '0' <= c <= '9' }
  predicate IsAlnum(c: char) { IsLower(c) || IsUpper(c) || IsDigit(c) }

  /** The class `[^A-Za-z0-9]`: every character that is not an ASCII letter or
      digit, so also spaces, newlines and non-ASCII characters. */
  predicate IsSymbol(c: char) { !IsAlnum(c) }

  /** `re.search` of a one-character class over the whole string. */
  predicate HasLower(s: string) { exists i :: 0 <= i < |s| && IsLower(s[i]) }
  predicate HasUpper(s: string) { exists i :: 0 <= i < |s| && IsUpper(s[i]) }
  predicate HasDigit(s: string) { exists i :: 0 <= i < |s| && IsDigit(s[i]) }
  predicate HasSymbol(s: string) { exists i :: 0 <= i < |s| && IsSymbol(s[i]) }

  /** `string.ascii_lowercase`, `string.ascii_uppercase`, `string.digits`:
      the characters of each range in ascending order. */
  function Lowercase(): string { seq(26, i requires 0 <= i < 26 => ('a' as int + i) as char) }
  function Uppercase(): string { seq(26, i requires 0 <= i < 26 => ('A' as int + i) as char) }
  function Digits(): string { seq(10, i requires 0 <= i < 10 => ('0' as int + i) as char) }

  /** The generator's symbol alphabet: 26 characters (the entropy estimate
      nevertheless counts the symbol class as 32). */
  const SymbolAlphabet: string := "!@#$%^&*()_+-=[]{}|;:,.<>?"

  /** ASCII lowercasing of one character: `A`..`Z` move down to `a`..`z`,
      everything else is left alone. */
  function ToLower(c: char): (d: char)
    ensures !IsUpper(d)
    ensures IsLower(d) <==> IsLower(c) || IsUpper(c)
    ensures IsDigit(d) <==> IsDigit(c)
    ensures IsSymbol(d) <==> IsSymbol(c)
    ensures !IsUpper(c) ==> d == c
    ensures IsUpper(c) ==> d == Lowercase()[c as int - 'A' as int]
  {
    if IsUpper(c) then (c as int - 'A' as int + 'a' as int) as char else c
  }

  /** `str.lower()` restricted to ASCII. */
  function Lower(s: string): (t: string)
    ensures |t| == |s|
    ensures forall i :: 0 <= i < |s| ==> t[i] == ToLower(s[i])
  {
    seq(|s|, i requires 0 <= i < |s| => ToLower(s[i]))
  }

  /** `t` occurs in `s` starting at position `i`. */
  predicate OccursAt(s: string, t: string, i: int) {
    0 <= i && i + |t| <= |s| && s[i..i + |t|] == t
  }

  /** `t` occurs in `s` at position `i` or at a later one: the scan behind
      `t in s`. */
  predicate OccursFrom(s: string, t: string, i: nat)
    decreases |s| - i
  {
    i + |t| <= |s| && (s[i..i + |t|] == t || OccursFrom(s, t, i + 1))
  }

  /** `t in s` for strings. */
  predicate Contains(s: string, t: string) {
    OccursFrom(s, t, 0)
  }

  /** The scan from `i` finds exactly the occurrences at `i` or later. */
  lemma {:induction false} OccursFromIff(s: string, t: string, i: nat)
    ensures OccursFrom(s, t, i) <==> exists j :: i <= j && OccursAt(s, t, j)
    decreases |s| - i
  {
    if i + |t| <= |s| {
      OccursFromIff(s, t, i + 1);
      assert OccursAt(s, t, i) <==> s[i..i + |t|] == t;
      if exists j :: i <= j && OccursAt(s, t, j) {
        var j :| i <= j && OccursAt(s, t, j);
        assert j == i || (i + 1 <= j && OccursAt(s, t, j));
      }
    }
  }

  /** `t in s` holds exactly when `t` occurs in `s` at some position. */
  lemma ContainsIff(s: string, t: string)
    ensures Contains(s, t) <==> exists j :: OccursAt(s, t, j)
  {
    OccursFromIff(s, t, 0);
  }

  /** Every character falls in one of the four classes, so a non-empty
      string shows at least one of them. */
  lemma NonEmptyHasClass(s: string)
    ensures s != [] ==> HasLower(s) || HasUpper(s) || HasDigit(s) || HasSymbol(s)
  {
    if s != [] {
      assert IsLower(s[0]) || IsUpper(s[0]) || IsDigit(s[0]) || IsSymbol(s[0]);
    }
  }

  /** Each generator alphabet holds exactly the characters of its class. */
  lemma AlphabetMembership(c: char)
    ensures c in Lowercase() <==> IsLower(c)
    ensures c in Uppercase() <==> IsUpper(c)
    ensures c in Digits() <==> IsDigit(c)
    ensures c in SymbolAlphabet ==> IsSymbol(c)
  {
    LowercaseMembership(c);
    UppercaseMembership(c);
    DigitsMembership(c);
  }

  lemma LowercaseMembership(c: char)
    ensures c in Lowercase() <==> IsLower(c)
  {
    if IsLower(c) {
      assert Lowercase()[c as int - 'a' as int] == c;
    }
  }

  lemma UppercaseMembership(c: char)
    ensures c in Uppercase() <==> IsUpper(c)
  {
    if IsUpper(c) {
      assert Uppercase()[c as int - 'A' as int] == c;
    }
  }

  lemma DigitsMembership(c: char)
    ensures c in Digits() <==> IsDigit(c)
  {
    if IsDigit(c) {
      assert Digits()[c as int - '0' as int] == c;
    }
  }

  /** The four alphabets share no character, and none of the symbol alphabet is
      a letter or a digit. */
  lemma AlphabetsDisjoint()
    ensures |Lowercase()| == 26 && |Uppercase()| == 26 && |Digits()| == 10 && |SymbolAlphabet| == 26
    ensures forall c :: c in Lowercase() ==> c !in Uppercase() && c !in Digits() && c !in SymbolAlphabet
    ensures forall c :: c in Uppercase() ==> c !in Digits() && c !in SymbolAlphabet
    ensures forall c :: c in Digits() ==> c !in SymbolAlphabet
    ensures forall c :: c in SymbolAlphabet ==> !IsAlnum(c)
  {
    forall c: char ensures c in SymbolAlphabet ==> !IsAlnum(c) {
      AlphabetMembership(c);
    }
    forall c: char ensures c in Lowercase() ==> c !in Uppercase() && c !in Digits() && c !in SymbolAlphabet {
      AlphabetMembership(c);
    }
    forall c: char ensures c in Uppercase() ==> c !in Digits() && c !in SymbolAlphabet {
      AlphabetMembership(c);
    }
    forall c: char ensures c in Digits() ==> c !in SymbolAlphabet {
      AlphabetMembership(c);
    }
  }

  /** Lowercasing keeps the letter classes together and keeps digits and
      symbols where they were. */
  lemma LowerClasses(s: string)
    ensures HasLower(Lower(s)) <==> HasLower(s) || HasUpper(s)
    ensures !HasUpper(Lower(s))
    ensures HasDigit(Lower(s)) <==> HasDigit(s)
    ensures HasSymbol(Lower(s)) <==> HasSymbol(s)
  {
    var t := Lower(s);
    if HasLower(t) {
      var i :| 0 <= i < |t| && IsLower(t[i]);
      assert IsLower(s[i]) || IsUpper(s[i]);
    }
    if HasUpper(s) {
      var i :| 0 <= i < |s| && IsUpper(s[i]);
      assert IsLower(t[i]);
    }
    if HasDigit(t) {
      var i :| 0 <= i < |t| && IsDigit(t[i]);
      assert IsDigit(s[i]);
    }
    if HasSymbol(t) {
      var i :| 0 <= i < |t| && IsSymbol(t[i]);
      assert IsSymbol(s[i]);
    }
  }
}
