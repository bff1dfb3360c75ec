/** JSON web tokens (sections 4.1.4 and 4.1.6 of RFC 7519) and the string functions the services call. */
module Tokens {
  import opened Wrappers

  datatype Role = Role(name: string, privileges: seq<string>)

  /** What `sign` puts in a token: the payload, and the issue and expiry instants in whole seconds. */
  datatype Claims = Claims(email: string, role: Option<Role>, iat: nat, exp: nat)

  /** The library functions the services rely on.
    * lower: String.prototype.toLowerCase; isEmail: class-validator; matches: bcrypt.compare;
    * encode and decode: signing with the server's secret, and checking a signature. */
  datatype Platform = Platform(
    lower: string -> string,
    isEmail: string -> bool,
    matches: (string, string) -> bool,
    encode: Claims -> string,
    decode: string -> Option<Claims>)

  /** All that is assumed of them: lower-casing is idempotent, a signed token carries its claims. */
  ghost predicate Sound(p: Platform) {
    && (forall s :: p.lower(p.lower(s)) == p.lower(s))
    && (forall c :: p.decode(p.encode(c)) == Some(c))
  }

  const QUARTER_HOUR: nat := 15 * 60
  const TEN_HOURS: nat := 10 * 60 * 60
  const DAY: nat := 24 * 60 * 60
  const WEEK: nat := 7 * 24 * 60 * 60

  /** The clock counts milliseconds; tokens count whole seconds. */
  function Seconds(now: nat): nat {
    now / 1000
  }

  function Sign(p: Platform, now: nat, email: string, role: Option<Role>, lifetime: nat): string {
    p.encode(Claims(email, role, Seconds(now), Seconds(now) + lifetime))
  }

  predicate Unexpired(c: Claims, now: nat) {
    Seconds(now) < c.exp
  }

  /** `jwtService.verify`: the claims, or None where the library throws. */
  function Verify(p: Platform, now: nat, token: string): Option<Claims> {
    match p.decode(token)
    case Some(c) => if Unexpired(c, now) then Some(c) else None
    case None => None
  }
}
