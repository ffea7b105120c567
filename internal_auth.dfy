/**
 * The guard in front of the internal routes (`InternalMiddleware`): a token
 * signed with the service key, whose claims name this service, and whose
 * lifetime is at most six hours. Every refusal is REQUIRED_ACCESS_KEY.
 */
module InternalAuth {
  import opened Wrappers
  import opened Tables
  import opened WrapperResults
  import opened Results

  /** `query.token` as Express parses it: absent, one value, or repeated (an array). */
  datatype QueryToken = NoToken | Single(s: string) | Repeated

  /** A claim as `jwt.verify` decodes it. */
  datatype Claim = Missing | Text(s: string) | Number(n: int) | Structured

  /** The decoded token; `others` are the names of any further claims. */
  datatype Claims = Claims(sub: Claim, iss: Claim, aud: Claim, iat: Claim, exp: Claim, others: set<string>)

  /** The validated payload put on `req.internal`; `iat` and `exp` as the instants Joi made of them, in milliseconds. */
  datatype Payload = Payload(iss: string, aud: string, iatMs: int, expMs: int)

  const Subject := "coreservice-accounts"
  const HourMs := 3600000
  const MaxHours := 6

  /** `headers.authorization ? headers.authorization.substr(7) : query.token`, where it is a string. */
  function Token(authorization: Option<string>, query: QueryToken): (t: Option<string>)
    ensures Present(authorization) ==> t.Some? && |t.value| == if |authorization.value| < 7 then 0 else |authorization.value| - 7
    ensures !Present(authorization) ==> (t.Some? <==> query.Single?)
  {
    if Present(authorization) then Some(if |authorization.value| <= 7 then "" else authorization.value[7..])
    else match query
      case Single(s) => Some(s)
      case _ => None
  }

  /** A `Bearer` header yields exactly the token after the scheme, whatever the query holds. */
  lemma BearerToken(token: string, query: QueryToken)
    ensures Token(Some("Bearer " + token), query) == Some(token)
  {
    assert ("Bearer " + token)[7..] == token;
  }

  /** Without a header the query token is used, when it is a single string. */
  lemma QueryTokenUsed(token: string)
    ensures Token(None, Single(token)) == Some(token)
    ensures Token(Some(""), Single(token)) == Some(token)
    ensures Token(None, Repeated).None? && Token(None, NoToken).None?
  {
  }

  /** `Joi.string().required()`: present, a string, not empty. */
  function JoiText(c: Claim): (r: Option<string>)
    ensures r.Some? <==> c.Text? && c.s != ""
    ensures r.Some? ==> r.value == c.s
  {
    match c
    case Text(s) => if s == "" then None else Some(s)
    case _ => None
  }

  /** `Joi.date().timestamp().required()`: a number, read as `msPerUnit` milliseconds per unit. */
  function JoiTimestamp(c: Claim, msPerUnit: nat): (r: Option<int>)
    ensures r.Some? <==> c.Number?
    ensures r.Some? ==> r.value == c.n * msPerUnit
  {
    match c
    case Number(n) => Some(n * msPerUnit)
    case _ => None
  }

  /**
   * The claim schema: `sub` is this service, `iss` a string, `aud` an
   * e-mail address, `iat` and `exp` timestamps, and no other claim.
   */
  function Validate(c: Claims, isEmail: string -> bool, msPerUnit: nat): (p: Option<Payload>)
    ensures p.Some? <==>
              && c.sub == Text(Subject)
              && c.iss.Text? && c.iss.s != ""
              && c.aud.Text? && c.aud.s != "" && isEmail(c.aud.s)
              && c.iat.Number? && c.exp.Number?
              && c.others == {}
    ensures p.Some? ==> p.value == Payload(c.iss.s, c.aud.s, c.iat.n * msPerUnit, c.exp.n * msPerUnit)
  {
    var iss := JoiText(c.iss);
    var aud := JoiText(c.aud);
    var iat := JoiTimestamp(c.iat, msPerUnit);
    var exp := JoiTimestamp(c.exp, msPerUnit);
    if JoiText(c.sub) != Some(Subject) || c.others != {} then None
    else if iss.None? || aud.None? || !isEmail(aud.value) || iat.None? || exp.None? then None
    else Some(Payload(iss.value, aud.value, iat.value, exp.value))
  }

  /** `exp.diff(iat, 'hours')`: whole hours between the instants, truncated toward zero. */
  function HoursBetween(fromMs: int, toMs: int): (h: int)
    ensures toMs >= fromMs ==> 0 <= h && h * HourMs <= toMs - fromMs < (h + 1) * HourMs
    ensures toMs < fromMs ==> h <= 0 && (h - 1) * HourMs < toMs - fromMs <= h * HourMs
  {
    var d := toMs - fromMs;
    if d >= 0 then d / HourMs else -((-d) / HourMs)
  }

  /** The lifetime is too long exactly when it reaches seven whole hours. */
  lemma TooLongFromSevenHours(fromMs: int, toMs: int)
    ensures HoursBetween(fromMs, toMs) > MaxHours <==> toMs - fromMs >= (MaxHours + 1) * HourMs
  {
    var h := HoursBetween(fromMs, toMs);
    if toMs - fromMs >= (MaxHours + 1) * HourMs {
      assert (h + 1) * HourMs > (MaxHours + 1) * HourMs;
    }
    if h > MaxHours {
      assert h * HourMs >= (MaxHours + 1) * HourMs;
    }
  }

  /** What the middleware leaves behind: `req.internal`, and whether `next()` runs (with the payload) or it throws. */
  datatype Guarded = Guarded(internal: Option<Payload>, result: Result<Payload, Failure>)

  /**
   * The middleware, with timestamps read as `msPerUnit` milliseconds per
   * unit. `key` is the service key from the environment; `verify` is
   * `jwt.verify` (None where it throws: a bad signature, an expired token).
   */
  function Guard(authorization: Option<string>, query: QueryToken, key: Option<string>,
                 verify: (string, string) -> Option<Claims>, isEmail: string -> bool, msPerUnit: nat): (g: Guarded)
    ensures g.result.Err? ==> g.result.error == Throw(RequiredAccessKey)
    ensures g.result.Ok? ==> g.internal == Some(g.result.value)
    ensures g.internal.Some? <==>
              var token := Token(authorization, query);
              && Present(token) && Present(key)
              && verify(token.value, key.value).Some?
              && Validate(verify(token.value, key.value).value, isEmail, msPerUnit).Some?
    ensures g.internal.Some? ==>
              var token := Token(authorization, query);
              && g.internal == Validate(verify(token.value, key.value).value, isEmail, msPerUnit)
              && (g.result.Ok? <==> HoursBetween(g.internal.value.iatMs, g.internal.value.expMs) <= MaxHours)
  {
    var token := Token(authorization, query);
    if token.None? || !Present(key) || !Present(token) then Guarded(None, Err(Throw(RequiredAccessKey)))
    else match verify(token.value, key.value)
      case None => Guarded(None, Err(Throw(RequiredAccessKey)))
      case Some(claims) =>
        match Validate(claims, isEmail, msPerUnit)
        case None => Guarded(None, Err(Throw(RequiredAccessKey)))
        case Some(payload) =>
          if HoursBetween(payload.iatMs, payload.expMs) > MaxHours then Guarded(Some(payload), Err(Throw(RequiredAccessKey)))
          else Guarded(Some(payload), Ok(payload))
  }

  /** As written: `Joi.date().timestamp()` reads a number as milliseconds, while `iat` and `exp` count seconds. */
  function InternalMiddlewareAsWritten(authorization: Option<string>, query: QueryToken, key: Option<string>,
                                       verify: (string, string) -> Option<Claims>, isEmail: string -> bool): (g: Guarded)
    ensures g.result.Err? ==> g.result.error == Throw(RequiredAccessKey)
    ensures g.result.Ok? ==>
              var token := Token(authorization, query);
              && token.Some? && key.Some? && verify(token.value, key.value).Some?
              && var c := verify(token.value, key.value).value;
                 c.iat.Number? && c.exp.Number? && c.exp.n - c.iat.n < (MaxHours + 1) * HourMs
  {
    var g := Guard(authorization, query, key, verify, isEmail, 1);
    var p := if g.internal.Some? then g.internal.value else Payload("", "", 0, 0);
    TooLongFromSevenHours(p.iatMs, p.expMs);
    g
  }

  /** As evidently intended (`timestamp('unix')`): `iat` and `exp` are seconds, and the token lives under seven hours. */
  function InternalMiddleware(authorization: Option<string>, query: QueryToken, key: Option<string>,
                              verify: (string, string) -> Option<Claims>, isEmail: string -> bool): (g: Guarded)
    ensures g.result.Err? ==> g.result.error == Throw(RequiredAccessKey)
    ensures g.result.Ok? ==>
              var token := Token(authorization, query);
              && token.Some? && key.Some? && verify(token.value, key.value).Some?
              && var c := verify(token.value, key.value).value;
                 && c.sub == Text(Subject) && c.others == {}
                 && c.iat.Number? && c.exp.Number? && c.exp.n - c.iat.n < (MaxHours + 1) * 3600
    ensures g.result.Ok? ==> g.internal == Some(g.result.value)
  {
    var g := Guard(authorization, query, key, verify, isEmail, 1000);
    var p := if g.internal.Some? then g.internal.value else Payload("", "", 0, 0);
    TooLongFromSevenHours(p.iatMs, p.expMs);
    g
  }

  /** A well-formed token of the given lifetime, in seconds, that any key verifies. */
  function Issued(lifetime: int): Claims {
    Claims(Text(Subject), Text("issuer"), Text("service@example.com"), Number(1700000000), Number(1700000000 + lifetime), {})
  }

  function AnyKey(lifetime: int): (string, string) -> Option<Claims> {
    (token: string, key: string) => Some(Issued(lifetime))
  }

  predicate AnyEmail(s: string) {
    true
  }

  /** As written, a token living 30 days passes the six-hour check; as intended it is refused. */
  lemma MonthLongTokenAccepted()
    ensures InternalMiddlewareAsWritten(Some("Bearer t"), NoToken, Some("k"), AnyKey(30 * 86400), AnyEmail).result.Ok?
    ensures InternalMiddleware(Some("Bearer t"), NoToken, Some("k"), AnyKey(30 * 86400), AnyEmail).result.Err?
  {
    assert Token(Some("Bearer t"), NoToken) == Some("t") by { BearerToken("t", NoToken); }
    assert HoursBetween(1700000000, 1700000000 + 30 * 86400) == 0;
    assert HoursBetween(1700000000000, (1700000000 + 30 * 86400) * 1000) == 720;
  }

  /** As intended, a six-hour token passes: the check refuses only longer lifetimes. */
  lemma SixHourTokenAccepted()
    ensures InternalMiddleware(Some("Bearer t"), NoToken, Some("k"), AnyKey(6 * 3600), AnyEmail).result.Ok?
  {
    assert Token(Some("Bearer t"), NoToken) == Some("t") by { BearerToken("t", NoToken); }
    assert HoursBetween(1700000000000, (1700000000 + 6 * 3600) * 1000) == 6;
  }

  /** No token, or no service key, is always refused. */
  lemma MissingKeyRefused(authorization: Option<string>, query: QueryToken, verify: (string, string) -> Option<Claims>,
                          isEmail: string -> bool)
    ensures InternalMiddleware(authorization, query, None, verify, isEmail).result == Err(Throw(RequiredAccessKey))
    ensures InternalMiddleware(None, NoToken, Some("k"), verify, isEmail).result == Err(Throw(RequiredAccessKey))
  {
  }
}
