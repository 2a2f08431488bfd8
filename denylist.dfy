/** The fixed set of known-weak passwords, matched exactly against the
    ASCII-lowercased candidate. */
module Denylist {
  import opened Charset

  const CommonPasswords: set<string> := {
    "password", "123456", "12345678", "1234", "qwerty", "abc123",
    "password1", "12345", "123456789", "letmein", "football",
    "admin", "welcome", "monkey", "login", "passw0rd", "master",
    "hello", "freedom", "whatever", "qazwsx", "trustno1", "sunshine"
  }

  /** `password.lower() in common_passwords`. */
  predicate IsCommon(password: string) {
    Lower(password) in CommonPasswords
  }

  /** Every entry is at most nine characters long and made of lowercase
      letters and digits only. */
  lemma EntriesShortAndAlphanumeric(w: string)
    requires w in CommonPasswords
    ensures 4 <= |w| <= 9
    ensures forall i :: 0 <= i < |w| ==> IsLower(w[i]) || IsDigit(w[i])
  {
  }

  /** The same holds of every case variant of an entry: a denylisted password
      is short and contains no character of the symbol class. */
  lemma CommonIsShortWithoutSymbols(password: string)
    requires IsCommon(password)
    ensures 4 <= |password| <= 9
    ensures !HasSymbol(password)
  {
    var w := Lower(password);
    EntriesShortAndAlphanumeric(w);
    LowerClasses(password);
  }
}
