/**
 * The password policy the account service asks of `validator.isStrongPassword`
 * (controllers/userController.js, lines 18-24 and 197-203): at least 6 characters, at least one
 * lower-case letter, one upper-case letter, one digit and one symbol. The library's symbol class
 * is a parameter.
 */
module Passwords {
  import Codes

  const MIN_LENGTH: nat := 6
  const MIN_LOWERCASE: nat := 1
  const MIN_UPPERCASE: nat := 1
  const MIN_NUMBERS: nat := 1
  const MIN_SYMBOLS: nat := 1

  predicate IsLower(c: char)
  {
    'a' <= c <= 'z'
  }

  predicate IsUpper(c: char)
  {
    'A' <= c <= 'Z'
  }

  /** How many characters of `s` fall in the class `inClass`, as the library tallies them. */
  function CountWhere(s: string, inClass: char -> bool): nat
  {
    if s == [] then 0 else (if inClass(s[0]) then 1 else 0) + CountWhere(s[1..], inClass)
  }

  /** The library's verdict for the options the controller passes. */
  predicate StrongPassword(p: string, isSymbol: char -> bool)
  {
    && |p| >= MIN_LENGTH
    && CountWhere(p, IsLower) >= MIN_LOWERCASE
    && CountWhere(p, IsUpper) >= MIN_UPPERCASE
    && CountWhere(p, Codes.IsDigit) >= MIN_NUMBERS
    && CountWhere(p, isSymbol) >= MIN_SYMBOLS
  }

  predicate Contains(s: string, inClass: char -> bool)
  {
    exists i :: 0 <= i < |s| && inClass(s[i])
  }

  /** A class is counted at least once exactly when some character of `s` is in it. */
  lemma {:induction false} CountPositive(s: string, inClass: char -> bool)
    ensures CountWhere(s, inClass) >= 1 <==> Contains(s, inClass)
  {
    if s != [] {
      CountPositive(s[1..], inClass);
      if Contains(s[1..], inClass) {
        var i :| 0 <= i < |s[1..]| && inClass(s[1..][i]);
        assert inClass(s[i + 1]);
      }
      if Contains(s, inClass) && !inClass(s[0]) {
        var i :| 0 <= i < |s| && inClass(s[i]);
        assert inClass(s[1..][i - 1]);
      }
    }
  }

  /**
   * The policy, character by character: a strong password is at least six characters long
   * and contains a lower-case letter, an upper-case letter, a digit and a symbol.
   */
  lemma StrongPasswordMeans(p: string, isSymbol: char -> bool)
    ensures StrongPassword(p, isSymbol) <==>
      && |p| >= 6
      && Contains(p, IsLower) && Contains(p, IsUpper)
      && Contains(p, Codes.IsDigit) && Contains(p, isSymbol)
  {
    CountPositive(p, IsLower);
    CountPositive(p, IsUpper);
    CountPositive(p, Codes.IsDigit);
    CountPositive(p, isSymbol);
  }
}
