/** The session service: password comparison and the unsigned session token.
    A token is base64 text of a JSON object; here the space of token strings
    is split into the encodings of a payload and every other string, so that
    decoding an encoding gives the payload back and decoding anything else
    fails, as `JSON.parse(atob(token))` would by throwing. */
module Auth {
  import opened Base
  import opened Types

  /** The fields of a decoded payload that the portal reads. A field is `None`
      when the JSON object lacks it or, for `timestamp`, when it does not
      convert to a number (subtracting it gives `NaN`). A decoded JSON value
      that is truthy but not an object (a non-zero number, a non-empty
      string, an array, `true`) has none of these fields and is represented
      by the payload with every field `None`. */
  datatype Payload = Payload(
    userId: Option<string>,
    email: Option<string>,
    role: Option<string>,
    timestamp: Option<int>)

  /** A token string: the encoding of a payload, or text that does not decode
      to a JSON value with fields (including the empty string) or that decodes
      to a falsy JSON value (`null`, `0`, `false`, `""`). `validateToken`
      hands a falsy value back unchanged, and every caller refuses it as it
      refuses `null`, so it is modelled as failing to decode. */
  datatype Token = Encoded(payload: Payload) | Opaque(text: string)

  /** `btoa(JSON.stringify(p))`. */
  function Encode(p: Payload): Token {
    Encoded(p)
  }

  /** `JSON.parse(atob(t))`, with `None` for every input that throws. */
  function Decode(t: Token): Option<Payload> {
    match t
    case Encoded(p) => Some(p)
    case Opaque(_) => None
  }

  /** Decoding undoes encoding. */
  lemma DecodeEncode(p: Payload)
    ensures Decode(Encode(p)) == Some(p)
  {
  }

  /** Twenty-four hours in milliseconds. */
  const TokenLifetime := 24 * 60 * 60 * 1000

  /** `validatePassword`: plain-text comparison. */
  function ValidatePassword(plainPassword: string, storedPassword: string): (ok: bool)
    ensures ok <==> plainPassword == storedPassword
  {
    plainPassword == storedPassword
  }

  /** `generateToken(user)` at time `now`, or `None` where `btoa` throws:
      `JSON.stringify` keeps every character of the id, the email and the
      role name as it is (it escapes only into ASCII), so the encoding fails
      exactly when one of them has a character above U+00FF. The role names
      are ASCII, so only the id and the email matter. */
  function GenerateToken(u: User, now: int): (t: Option<Token>)
    ensures t.Some? <==> Latin1(u.id) && Latin1(u.email)
    ensures t.Some? ==>
      Decode(t.value) == Some(Payload(Some(u.id), Some(u.email), Some(PortalRoleName(u.role)), Some(now)))
  {
    if Latin1(u.id) && Latin1(u.email) && Latin1(PortalRoleName(u.role))
    then Some(Encode(Payload(Some(u.id), Some(u.email), Some(PortalRoleName(u.role)), Some(now))))
    else None
  }

  /** The expiry test `Date.now() - decoded.timestamp > 24h`; a missing or
      non-numeric timestamp makes the difference `NaN`, which is never greater. */
  predicate Expired(p: Payload, now: int) {
    p.timestamp.Some? && now - p.timestamp.value > TokenLifetime
  }

  /** `validateToken(token)` at time `now`: the decoded payload, or `None`
      (`null`) when the token does not decode or has expired. Nothing checks a
      signature or whether the user exists. */
  function ValidateToken(t: Token, now: int): (r: Option<Payload>)
    ensures r.Some? <==> Decode(t).Some? && !Expired(Decode(t).value, now)
    ensures r.Some? ==> r == Decode(t)
  {
    match Decode(t)
    case None => None
    case Some(p) => if Expired(p, now) then None else Some(p)
  }

  /** A token generated at `issued` and validated no more than 24 hours later
      yields the user's id, email and role. */
  lemma {:induction false} TokenRoundTrip(u: User, issued: int, now: int)
    requires Latin1(u.id) && Latin1(u.email)
    requires now - issued <= TokenLifetime
    ensures var r := ValidateToken(GenerateToken(u, issued).value, now);
      r.Some? && r.value.userId == Some(u.id) && r.value.email == Some(u.email) &&
      r.value.role == Some(PortalRoleName(u.role))
  {
  }

  /** A generated token is accepted exactly 24 hours after issue and rejected
      one millisecond later. */
  lemma ExpiryBoundary(u: User, issued: int)
    requires Latin1(u.id) && Latin1(u.email)
    ensures ValidateToken(GenerateToken(u, issued).value, issued + TokenLifetime).Some?
    ensures ValidateToken(GenerateToken(u, issued).value, issued + TokenLifetime + 1).None?
  {
  }

  /** A payload without a usable timestamp never expires, and any payload
      with a recent timestamp is accepted: validation is not a proof of origin. */
  lemma UnsignedTokensAccepted(p: Payload, now: int)
    requires p.timestamp.None? || now - p.timestamp.value <= TokenLifetime
    ensures ValidateToken(Encode(p), now) == Some(p)
  {
  }

  /** Text that is not an encoded payload is rejected, whatever the time. */
  lemma UndecodableRejected(text: string, now: int)
    ensures ValidateToken(Opaque(text), now).None?
  {
  }

  /** What the `verifyToken` helper imported by several routes yields; that
      helper is not part of this model and enters as a parameter. */
  datatype Claims = Claims(userId: string, role: string)
}
