/**
 * `authMiddleware` of middleware/auth.js: a filtered request needs a
 * verifiable `x-auth-token`; an unfiltered one passes unauthenticated.
 */
module AuthGate {
  import opened Common

  /** Query parameters as strings; an absent key is `undefined`. */
  type Query = map<string, string>

  /** `req.query[name]`. */
  function Param(q: Query, name: string): Option<string> {
    if name in q then Some(q[name]) else None
  }

  /** JavaScript truthiness of a string or `undefined`: only "" is falsy among strings. */
  predicate Truthy(v: Option<string>) {
    v.Some? && v.value != ""
  }

  /** The decoded payload of a signed token: the account id it embeds. */
  datatype Claims = Claims(userId: nat)

  /** What `jwt.verify(token, key)` does: return the payload, or throw. */
  datatype Verification = Decoded(claims: Claims) | Throws

  /** `next()` with `req.user` as set (if at all), or a status and message sent. */
  datatype GateOutcome = Next(user: Option<Claims>) | Rejected(status: int, message: string)

  const NoTokenMessage: string := "Access denied. No token provided."
  const InvalidTokenMessage: string := "Invalid token."

  /**
   * The gate's condition. It reads `toData`, not `toDate`, so `toDate`
   * alone never gates a request.
   */
  predicate NeedsToken(q: Query) {
    Truthy(Param(q, "age")) || Truthy(Param(q, "gender")) || Truthy(Param(q, "fromDate")) || Truthy(Param(q, "toData"))
  }

  /**
   * The middleware's decision for a query, the `x-auth-token` header and the
   * token verifier, which is called only when the gate applies and a token
   * is there. Every request ends in exactly one of `next`, 401 or 400.
   */
  function Authenticate(q: Query, token: Option<string>, verify: string -> Verification): (o: GateOutcome)
    ensures o == Next(None) <==> !NeedsToken(q)
    ensures o == Rejected(401, NoTokenMessage) <==> NeedsToken(q) && !Truthy(token)
    ensures o == Rejected(400, InvalidTokenMessage) <==> NeedsToken(q) && Truthy(token) && verify(token.value).Throws?
    ensures o.Next? && o.user.Some? <==> NeedsToken(q) && Truthy(token) && verify(token.value).Decoded?
    ensures o.Next? && o.user.Some? ==> o.user.value == verify(token.value).claims
    ensures o.Next? || o == Rejected(401, NoTokenMessage) || o == Rejected(400, InvalidTokenMessage)
  {
    if !NeedsToken(q) then Next(None)
    else if !Truthy(token) then Rejected(401, NoTokenMessage)
    else
      match verify(token.value)
      case Decoded(claims) => Next(Some(claims))
      case Throws => Rejected(400, InvalidTokenMessage)
  }

  /** Without truthy filters, neither the header nor the verifier matters. */
  lemma UngatedIgnoresToken(q: Query, t1: Option<string>, t2: Option<string>,
                            v1: string -> Verification, v2: string -> Verification)
    requires !NeedsToken(q)
    ensures Authenticate(q, t1, v1) == Authenticate(q, t2, v2) == Next(None)
  {
  }

  /** A request whose only filter is `toDate` passes without any token. */
  lemma ToDateAloneNotGated(date: string, token: Option<string>, verify: string -> Verification)
    ensures Authenticate(map["toDate" := date], token, verify) == Next(None)
  {
  }

  /** Empty-string parameters are falsy and do not trigger the gate. */
  lemma EmptyParamsNotGated(token: Option<string>, verify: string -> Verification)
    ensures Authenticate(map["age" := "", "gender" := "", "fromDate" := "", "toData" := ""], token, verify) == Next(None)
  {
  }

  /** Any one truthy gating parameter without a token is refused with 401. */
  lemma OneFilterNoToken(name: string, v: string, verify: string -> Verification)
    requires name in {"age", "gender", "fromDate", "toData"} && v != ""
    ensures Authenticate(map[name := v], None, verify) == Rejected(401, NoTokenMessage)
    ensures Authenticate(map[name := v], Some(""), verify) == Rejected(401, NoTokenMessage)
  {
  }
}
