/**
 * The one-time codes of the account service (controllers/userController.js, lines 36-37 and
 * 144-145): a code is `Math.floor(100000 + Math.random() * 900000).toString()`, valid for one
 * hour, and a stored expiry is compared with the current time by JavaScript's `<`.
 */
module Codes {
  import opened Wrappers

  /** `1 * 60 * 60 * 1000`: one hour in milliseconds. */
  const ONE_HOUR_MS: int := 1 * 60 * 60 * 1000

  /** The smallest code and the number of codes: codes are 100000 + draw for a draw below 900000. */
  const CODE_LOW: int := 100000
  const CODE_SPAN: int := 900000

  predicate IsDigit(c: char)
  {
    '0' <= c <= '9'
  }

  predicate AllDigits(s: string)
  {
    forall i :: 0 <= i < |s| ==> IsDigit(s[i])
  }

  function DigitChar(d: int): (c: char)
    requires 0 <= d < 10
    ensures IsDigit(c) && c as int - '0' as int == d
  {
    ('0' as int + d) as char
  }

  function Pow10(k: nat): (p: nat)
    ensures p >= 1
  {
    if k == 0 then 1 else 10 * Pow10(k - 1)
  }

  /** `Number.prototype.toString()` of a non-negative integer: its decimal digits, no leading zero. */
  function DecimalString(n: nat): (s: string)
    ensures |s| >= 1 && AllDigits(s)
    ensures |s| > 1 ==> s[0] != '0'
    decreases n
  {
    if n < 10 then [DigitChar(n)] else DecimalString(n / 10) + [DigitChar(n % 10)]
  }

  /** The number a string of decimal digits denotes. */
  function DecimalValue(s: string): nat
    requires AllDigits(s)
  {
    if s == [] then 0
    else 10 * DecimalValue(s[..|s| - 1]) + (s[|s| - 1] as int - '0' as int)
  }

  /** Reading back the decimal string of n gives n. */
  lemma {:induction false} DecimalRoundTrip(n: nat)
    ensures DecimalValue(DecimalString(n)) == n
  {
    var s := DecimalString(n);
    if n >= 10 {
      DecimalRoundTrip(n / 10);
      assert s[..|s| - 1] == DecimalString(n / 10);
    }
  }

  /** A number with k + 1 digits prints as k + 1 characters. */
  lemma {:induction false} DecimalLength(n: nat, k: nat)
    requires Pow10(k) <= n < Pow10(k + 1)
    ensures |DecimalString(n)| == k + 1
  {
    if k > 0 {
      DecimalLength(n / 10, k - 1);
    }
  }

  /**
   * The code issued for a random draw in [0, 900000): exactly six decimal digits, the first not
   * zero, denoting 100000 + draw, hence a number in [100000, 999999]. Distinct draws give
   * distinct codes.
   */
  function IssueCode(draw: int): (code: string)
    requires 0 <= draw < CODE_SPAN
    ensures |code| == 6 && AllDigits(code) && code[0] != '0'
    ensures DecimalValue(code) == CODE_LOW + draw
    ensures CODE_LOW <= DecimalValue(code) <= 999999
  {
    DecimalRoundTrip(CODE_LOW + draw);
    DecimalLength(CODE_LOW + draw, 5);
    DecimalString(CODE_LOW + draw)
  }

  /** The expiry a code issued at `now` gets. */
  function ExpiryFrom(now: int): (expiresAt: int)
    ensures expiresAt - now == 3600000
  {
    now + ONE_HOUR_MS
  }

  /**
   * JavaScript's `expiresAt < Date.now()` on a stored date: a date compares as its
   * milliseconds, and a cleared (null) date compares as 0.
   */
  predicate Expired(expiresAt: Option<int>, now: int)
  {
    match expiresAt
    case Some(t) => t < now
    case None => 0 < now
  }

  /** A fresh code is still accepted at every instant up to and including its expiry. */
  lemma FreshCodeNotExpired(issuedAt: int, now: int)
    ensures !Expired(Some(ExpiryFrom(issuedAt)), now) <==> now <= issuedAt + 3600000
  {
  }
}
