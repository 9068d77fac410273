/**
 * The `protect` middleware: a chain of guards over the Authorization header,
 * the configured signing secret and the token verifier. The verifier is a
 * foreign library, so it is a parameter here; its only observable results are
 * a decoded payload (possibly falsy) or a thrown error.
 */
module Auth {
  import opened Wrappers
  import opened Text

  const BearerPrefix: string := "Bearer "

  /** The decoded token payload; `protect` reads only its `id` claim. */
  datatype Claims = Claims(id: Option<string>)

  /** What the verifier does with a token: return a payload (None when it is falsy) or throw. */
  datatype Verified = Decoded(payload: Option<Claims>) | Threw(reason: string)

  /** The user context attached to the request as `req.user`. */
  datatype Principal = Principal(id: string)

  /** Either an error response (and the next handler is not called) or one call of `next`. */
  datatype Outcome = Reject(status: nat, message: string) | Next(user: Principal)

  predicate WellFormedHeader(header: Option<string>) {
    header.Some? && header.value != "" && StartsWith(header.value, BearerPrefix)
  }

  /** The token handed to the verifier: the header with its first "Bearer " removed, then trimmed. */
  function ExtractToken(header: string): (t: string)
    ensures StartsWith(header, BearerPrefix) ==> t == Trim(header[|BearerPrefix|..])
    ensures Trimmed(t)
  {
    var rest := ReplaceFirst(header, BearerPrefix, "");
    assert StartsWith(header, BearerPrefix) ==> rest == "" + header[|BearerPrefix|..] == header[|BearerPrefix|..];
    Trim(rest)
  }

  /** A trimmed token, whatever white space surrounds it after the prefix, reaches the verifier unchanged. */
  lemma ExtractPaddedToken(pre: string, token: string, suf: string)
    requires AllWhite(pre) && AllWhite(suf) && Trimmed(token)
    ensures ExtractToken(BearerPrefix + pre + token + suf) == token
  {
    var h := BearerPrefix + pre + token + suf;
    assert h[..|BearerPrefix|] == BearerPrefix;
    assert h[|BearerPrefix|..] == pre + token + suf;
    TrimPadded(pre, token, suf);
  }

  /** The payload check: a payload that is falsy or has a falsy `id` is refused. */
  function Admit(v: Verified): (r: Outcome)
    ensures v.Threw? ==> r == Reject(401, "Invalid or expired token")
    ensures v.Decoded? && (v.payload.None? || !Truthy(v.payload.value.id)) ==> r == Reject(401, "Invalid token payload")
    ensures r.Next? <==> v.Decoded? && v.payload.Some? && Truthy(v.payload.value.id)
    ensures r.Next? ==> r.user == Principal(v.payload.value.id.value)
  {
    match v
    case Threw(_) => Reject(401, "Invalid or expired token")
    case Decoded(payload) =>
      if payload.None? || !Truthy(payload.value.id) then Reject(401, "Invalid token payload")
      else Next(Principal(payload.value.id.value))
  }

  /**
   * `protect(req, res, next)`: the header check, then the secret check, then
   * verification of the extracted token, then the payload check.
   */
  function Protect(header: Option<string>, secret: Option<string>,
                   verify: (string, string) -> Verified): (r: Outcome)
    ensures !WellFormedHeader(header) ==> r == Reject(401, "No token provided")
    ensures WellFormedHeader(header) && !Truthy(secret) ==> r == Reject(500, "JWT secret is not configured")
    ensures WellFormedHeader(header) && Truthy(secret) ==>
      r == Admit(verify(ExtractToken(header.value), secret.value))
    ensures r.Next? <==>
      WellFormedHeader(header) && Truthy(secret) && Admit(verify(ExtractToken(header.value), secret.value)).Next?
  {
    if header.None? || header.value == "" || !StartsWith(header.value, BearerPrefix) then
      Reject(401, "No token provided")
    else
      var token := ExtractToken(header.value);
      if secret.None? || secret.value == "" then
        Reject(500, "JWT secret is not configured")
      else
        Admit(verify(token, secret.value))
  }

  /** Only 401 and 500 are ever sent, and 500 only when the header was well formed. */
  lemma ProtectStatuses(header: Option<string>, secret: Option<string>, verify: (string, string) -> Verified)
    ensures Protect(header, secret, verify).Reject? ==>
      Protect(header, secret, verify).status in {401, 500}
    ensures Protect(header, secret, verify) == Reject(500, "JWT secret is not configured") ==>
      WellFormedHeader(header) && !Truthy(secret)
  {
  }

  /** A successful request carries a bearer header, and `req.user.id` is the id the verifier decoded from its token. */
  lemma ProtectSuccess(header: Option<string>, secret: Option<string>, verify: (string, string) -> Verified)
    requires Protect(header, secret, verify).Next?
    ensures WellFormedHeader(header) && Truthy(secret)
    ensures verify(ExtractToken(header.value), secret.value)
      == Decoded(Some(Claims(Some(Protect(header, secret, verify).user.id))))
    ensures Protect(header, secret, verify).user.id != ""
  {
  }
}
