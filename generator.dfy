/** The password generator: validation of the options, the character pool,
    one draw from each selected class, the fill from the whole pool, the
    in-place shuffle and the analysis of the result.

    The secure random source is a nondeterministic choice: every draw and
    every swap index may be any value in range. */
module Generator {
  import opened Charset
  import Analyzer
  import AnalyzerProperties

  /** The generator's parameters; the defaults are length 16 and every class. */
  datatype Options = Options(length: int, uppercase: bool, lowercase: bool, numbers: bool, symbols: bool)

  const DefaultOptions: Options := Options(16, true, true, true, true)

  /** A generated password with its analysis, or the error message. */
  datatype Outcome = Generated(password: string, analysis: Analyzer.Analysis) | Failure(message: string)

  const LengthError: string := "Password length should be at least 8 characters"
  const SelectionError: string := "At least one character type must be selected"

  /** How many of the four classes are selected. */
  function Selected(o: Options): (n: nat)
    ensures n <= 4
  {
    (if o.uppercase then 1 else 0) + (if o.lowercase then 1 else 0)
    + (if o.numbers then 1 else 0) + (if o.symbols then 1 else 0)
  }

  /** A character the selected classes allow. */
  predicate Allowed(o: Options, c: char) {
    (o.lowercase && IsLower(c)) || (o.uppercase && IsUpper(c))
    || (o.numbers && IsDigit(c)) || (o.symbols && c in SymbolAlphabet)
  }

  /** The character pool: the selected alphabets in the order lowercase,
      uppercase, digits, symbols. */
  function Pool(o: Options): string {
    (if o.lowercase then Lowercase() else "") + (if o.uppercase then Uppercase() else "")
    + (if o.numbers then Digits() else "") + (if o.symbols then SymbolAlphabet else "")
  }

  /** Some character of `s` is taken from `alphabet`. */
  predicate HasFrom(s: string, alphabet: string) {
    exists i :: 0 <= i < |s| && s[i] in alphabet
  }

  /** What every generated password satisfies: the requested length, only
      characters the selected classes allow, and at least one character of
      each selected class. */
  predicate Fits(o: Options, password: string) {
    |password| == o.length
    && (forall i :: 0 <= i < |password| ==> Allowed(o, password[i]))
    && (o.lowercase ==> HasFrom(password, Lowercase()))
    && (o.uppercase ==> HasFrom(password, Uppercase()))
    && (o.numbers ==> HasFrom(password, Digits()))
    && (o.symbols ==> HasFrom(password, SymbolAlphabet))
  }

  // ---------------------------------------------------------------------
  // The pool

  /** The pool holds exactly the characters the selected classes allow. */
  lemma PoolMembership(o: Options, c: char)
    ensures c in Pool(o) <==> Allowed(o, c)
  {
    AlphabetMembership(c);
  }

  /** The pool is empty exactly when no class is selected; otherwise it has
      26, 26, 10 and 26 characters for the selected alphabets. */
  lemma PoolSize(o: Options)
    ensures |Pool(o)| == (if o.lowercase then 26 else 0) + (if o.uppercase then 26 else 0)
                         + (if o.numbers then 10 else 0) + (if o.symbols then 26 else 0)
    ensures Pool(o) == [] <==> Selected(o) == 0
  {
    AlphabetsDisjoint();
  }

  /** The pool, extended alphabet by alphabet. */
  method BuildPool(o: Options) returns (pool: string)
    ensures pool == Pool(o)
  {
    pool := "";
    if o.lowercase {
      pool := pool + Lowercase();
    }
    if o.uppercase {
      pool := pool + Uppercase();
    }
    if o.numbers {
      pool := pool + Digits();
    }
    if o.symbols {
      pool := pool + SymbolAlphabet;
    }
    assert pool == (if o.lowercase then Lowercase() else "") + (if o.uppercase then Uppercase() else "")
                   + (if o.numbers then Digits() else "") + (if o.symbols then SymbolAlphabet else "");
  }

  // ---------------------------------------------------------------------
  // Random choices

  /** One draw from a non-empty alphabet; which character is not determined. */
  method Choice(alphabet: string) returns (c: char)
    requires alphabet != []
    ensures c in alphabet
  {
    var k :| 0 <= k < |alphabet|;
    c := alphabet[k];
  }

  /** Fisher–Yates from the last position down: each position in turn is
      swapped with any position at or before it. The buffer is permuted. */
  method Shuffle(a: array<char>)
    modifies a
    ensures multiset(a[..]) == multiset(old(a[..]))
  {
    var i := a.Length - 1;
    while i > 0
      invariant i < a.Length
      invariant multiset(a[..]) == multiset(old(a[..]))
    {
      var j :| 0 <= j <= i;
      a[i], a[j] := a[j], a[i];
      i := i - 1;
    }
  }

  // ---------------------------------------------------------------------
  // The generator

  /** One character of each selected class, in the order lowercase,
      uppercase, digits, symbols. */
  method DrawClasses(o: Options) returns (chars: seq<char>)
    ensures |chars| == Selected(o)
    ensures forall i :: 0 <= i < |chars| ==> Allowed(o, chars[i])
    ensures o.lowercase ==> HasFrom(chars, Lowercase())
    ensures o.uppercase ==> HasFrom(chars, Uppercase())
    ensures o.numbers ==> HasFrom(chars, Digits())
    ensures o.symbols ==> HasFrom(chars, SymbolAlphabet)
  {
    chars := [];
    // Where each class's draw lands.
    ghost var lowerAt, upperAt, digitAt, symbolAt := 0, 0, 0, 0;
    if o.lowercase {
      var c := Choice(Lowercase());
      AlphabetMembership(c);
      lowerAt := |chars|;
      chars := chars + [c];
    }
    if o.uppercase {
      var c := Choice(Uppercase());
      AlphabetMembership(c);
      upperAt := |chars|;
      chars := chars + [c];
    }
    if o.numbers {
      var c := Choice(Digits());
      AlphabetMembership(c);
      digitAt := |chars|;
      chars := chars + [c];
    }
    if o.symbols {
      var c := Choice(SymbolAlphabet);
      symbolAt := |chars|;
      chars := chars + [c];
    }
    assert o.lowercase ==> chars[lowerAt] in Lowercase();
    assert o.uppercase ==> chars[upperAt] in Uppercase();
    assert o.numbers ==> chars[digitAt] in Digits();
    assert o.symbols ==> chars[symbolAt] in SymbolAlphabet;
  }

  /** A password of `o.length` characters with its analysis when the length is
      at least 8 and some class is selected; the length error first, then the
      selection error, otherwise. */
  method GenerateStrongPassword(o: Options) returns (r: Outcome)
    ensures o.length < 8 ==> r == Failure(LengthError)
    ensures o.length >= 8 && Selected(o) == 0 ==> r == Failure(SelectionError)
    ensures o.length >= 8 && Selected(o) > 0 ==>
              r.Generated? && Fits(o, r.password) && r.analysis == Analyzer.Report(r.password)
  {
    if o.length < 8 {
      return Failure(LengthError);
    }
    var pool := BuildPool(o);
    PoolSize(o);
    if pool == [] {
      return Failure(SelectionError);
    }
    var first := DrawClasses(o);
    var chars := first;
    var remaining := o.length - |chars|;
    for n := 0 to remaining
      invariant |chars| == |first| + n
      invariant chars[..|first|] == first
      invariant forall i :: 0 <= i < |chars| ==> Allowed(o, chars[i])
    {
      var c := Choice(pool);
      PoolMembership(o, c);
      chars := chars + [c];
    }
    var buffer := new char[|chars|](i requires 0 <= i < |chars| => chars[i]);
    assert buffer[..] == chars;
    Shuffle(buffer);
    var password := buffer[..];
    PermutationFits(o, first, chars, password);
    var analysis := Analyzer.AnalyzePasswordStrength(password);
    r := Generated(password, analysis);
  }

  /** A permutation of the drawn characters keeps what `Fits` asks for. */
  lemma PermutationFits(o: Options, first: seq<char>, chars: seq<char>, password: string)
    requires |first| <= |chars| && chars[..|first|] == first
    requires forall i :: 0 <= i < |chars| ==> Allowed(o, chars[i])
    requires o.lowercase ==> HasFrom(first, Lowercase())
    requires o.uppercase ==> HasFrom(first, Uppercase())
    requires o.numbers ==> HasFrom(first, Digits())
    requires o.symbols ==> HasFrom(first, SymbolAlphabet)
    requires multiset(password) == multiset(chars) && |chars| == o.length
    ensures Fits(o, password)
  {
    assert |password| == |multiset(password)| == |multiset(chars)| == |chars|;
    forall i | 0 <= i < |password|
      ensures Allowed(o, password[i])
    {
      assert password[i] in multiset(chars);
    }
    if o.lowercase { PermutationHasFrom(first, chars, password, Lowercase()); }
    if o.uppercase { PermutationHasFrom(first, chars, password, Uppercase()); }
    if o.numbers { PermutationHasFrom(first, chars, password, Digits()); }
    if o.symbols { PermutationHasFrom(first, chars, password, SymbolAlphabet); }
  }

  lemma PermutationHasFrom(first: seq<char>, chars: seq<char>, password: string, alphabet: string)
    requires |first| <= |chars| && chars[..|first|] == first
    requires multiset(password) == multiset(chars)
    requires HasFrom(first, alphabet)
    ensures HasFrom(password, alphabet)
  {
    var k :| 0 <= k < |first| && first[k] in alphabet;
    assert chars[k] == first[k];
    assert chars[k] in multiset(password);
    var i :| 0 <= i < |password| && password[i] == chars[k];
  }

  // ---------------------------------------------------------------------
  // What the analysis of a generated password reports

  /** A password that fits the options shows exactly the selected classes. */
  lemma FitsClasses(o: Options, password: string)
    requires Fits(o, password) && o.length > 0
    ensures HasLower(password) <==> o.lowercase
    ensures HasUpper(password) <==> o.uppercase
    ensures HasDigit(password) <==> o.numbers
    ensures HasSymbol(password) <==> o.symbols
    ensures Analyzer.CharTypes(password) == Selected(o)
  {
    AlphabetsDisjoint();
    forall i | 0 <= i < |password|
      ensures IsLower(password[i]) ==> o.lowercase
      ensures IsUpper(password[i]) ==> o.uppercase
      ensures IsDigit(password[i]) ==> o.numbers
      ensures IsSymbol(password[i]) ==> o.symbols
    {
      assert Allowed(o, password[i]);
    }
    if o.lowercase {
      var i :| 0 <= i < |password| && password[i] in Lowercase();
      LowercaseMembership(password[i]);
    }
    if o.uppercase {
      var i :| 0 <= i < |password| && password[i] in Uppercase();
      UppercaseMembership(password[i]);
    }
    if o.numbers {
      var i :| 0 <= i < |password| && password[i] in Digits();
      DigitsMembership(password[i]);
    }
    if o.symbols {
      var i :| 0 <= i < |password| && password[i] in SymbolAlphabet;
    }
  }

  /** The analysis of a generated password counts the selected classes. */
  lemma GeneratedCharTypes(o: Options, password: string)
    requires Fits(o, password) && o.length > 0
    ensures Analyzer.Report(password).charTypes == Selected(o)
  {
    FitsClasses(o, password);
    AnalyzerProperties.ReportCharTypes(password);
  }

  /** With the default options the generated password is never Weak. */
  lemma DefaultIsNotWeak(password: string)
    requires Fits(DefaultOptions, password)
    ensures Analyzer.Report(password).score >= 3 && Analyzer.Report(password).strength != Analyzer.Weak
  {
    FitsClasses(DefaultOptions, password);
    AnalyzerProperties.LongAndVariedIsNotWeak(password);
  }
}
