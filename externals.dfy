/**
 * The libraries the account service and its gate call but do not define, as function values
 * supplied once when the service is built: bcrypt's `hash` and `compare`, validator's `isEmail`,
 * the symbol class behind validator's `isStrongPassword`, and jsonwebtoken's `verify` with the
 * server's secret (None where it throws: malformed, badly signed or expired token).
 */
module Externals {
  import opened Wrappers
  import opened Users

  datatype Deps = Deps(
    hash: string -> string,
    compare: (string, string) -> bool,
    isEmail: string -> bool,
    isSymbol: char -> bool,
    verifyToken: string -> Option<UserId>)

  /**
   * What the model relies on of bcrypt: a password always matches its own hash, and a hash is
   * a 60-character string (so a hashed password is never empty).
   */
  ghost predicate Sound(d: Deps)
  {
    forall p :: d.compare(p, d.hash(p)) && |d.hash(p)| == 60
  }
}
