/**
 * The route guards (backend/middleware/auth.go): `Protected` finds the
 * session token (cookie first, then the Authorization header), has it
 * parsed, and passes the `user_id` and `role` claims on to the handler;
 * `AdminOnly` lets only the role "admin" through. Parsing and checking the
 * signed token is a parameter `parse`.
 */
module AuthMiddleware {
  import opened Wrappers
  import opened Strings
  import opened Http

  /** A claim value as the handlers receive it: a string, absent (nil), or some other JSON value. */
  datatype Value = Nil | Str(s: string) | OtherValue

  /** What token parsing yields: whether the token is valid, and its claims when they are a JSON object. */
  datatype Token = Token(valid: bool, claims: Option<map<string, Value>>)

  /** What the guard does with the request: answer it, or hand it on with the values stored in the context. */
  datatype Decision = Deny(status: int, message: string) | Next(userId: Value, role: Value)

  const BearerPrefix := "Bearer "

  /** The claim stored under `key`, nil when the claims have no such key. */
  function Claim(claims: map<string, Value>, key: string): (v: Value)
    ensures key !in claims ==> v == Nil
    ensures key in claims ==> v == claims[key]
  {
    if key in claims then claims[key] else Nil
  }

  /**
   * The token the guard reads: the `token` cookie when it is set, otherwise
   * the Authorization header with its first "Bearer " removed.
   */
  function TokenOf(cookie: string, header: string): (token: string)
    ensures cookie != "" ==> token == cookie
    ensures cookie == "" ==> token == RemoveFirst(header, BearerPrefix)
  {
    if cookie != "" then cookie
    else if header != "" then RemoveFirst(header, BearerPrefix)
    else ""
  }

  /** The decision of `Protected`; `parse` is None where parsing fails with an error. */
  function Guard(cookie: string, header: string, parse: string -> Option<Token>): (d: Decision)
    ensures d.Deny? ==> d.status == Unauthorized
    ensures TokenOf(cookie, header) == "" ==> d == Deny(Unauthorized, "Unauthorized")
    ensures d.Next? <==>
      TokenOf(cookie, header) != ""
      && var tok := parse(TokenOf(cookie, header));
         tok.Some? && tok.value.valid && tok.value.claims.Some?
    ensures d.Next? ==>
      var claims := parse(TokenOf(cookie, header)).value.claims.value;
      d.userId == Claim(claims, "user_id") && d.role == Claim(claims, "role")
  {
    var token := TokenOf(cookie, header);
    if token == "" then Deny(Unauthorized, "Unauthorized")
    else match parse(token)
      case None => Deny(Unauthorized, "Invalid or expired token")
      case Some(tok) =>
        if !tok.valid then Deny(Unauthorized, "Invalid or expired token")
        else match tok.claims
          case None => Deny(Unauthorized, "Invalid token claims")
          case Some(claims) => Next(Claim(claims, "user_id"), Claim(claims, "role"))
  }

  /** `Protected()`: the token variable is rebound step by step, as the handler does. */
  method Protected(cookie: string, header: string, parse: string -> Option<Token>) returns (d: Decision)
    ensures d == Guard(cookie, header, parse)
  {
    var tokenString := cookie;
    if tokenString == "" {
      var authHeader := header;
      if authHeader != "" {
        tokenString := RemoveFirst(authHeader, BearerPrefix);
      }
    }
    if tokenString == "" {
      return Deny(Unauthorized, "Unauthorized");
    }
    var token := parse(tokenString);
    if token.None? || !token.value.valid {
      return Deny(Unauthorized, "Invalid or expired token");
    }
    var claims := token.value.claims;
    if claims.None? {
      return Deny(Unauthorized, "Invalid token claims");
    }
    d := Next(Claim(claims.value, "user_id"), Claim(claims.value, "role"));
  }

  /** `AdminOnly()`: 403 unless the stored role is the string "admin"; None means the request goes on. */
  function AdminOnly(role: Value): (r: Option<Decision>)
    ensures r.None? <==> role == Str("admin")
    ensures r.Some? ==> r.value == Deny(Forbidden, "Forbidden: Admin access required")
  {
    if role != Str("admin") then Some(Deny(Forbidden, "Forbidden: Admin access required")) else None
  }

  /** A set cookie wins: the header is not read at all. */
  lemma CookieWins(cookie: string, header: string, header': string, parse: string -> Option<Token>)
    requires cookie != ""
    ensures Guard(cookie, header, parse) == Guard(cookie, header', parse)
  {
  }

  /** Without a cookie, "Bearer " followed by the token gives the token. */
  lemma BearerHeaderGivesToken(t: string)
    ensures TokenOf("", BearerPrefix + t) == t
  {
    RemoveFirstOfPrefix(BearerPrefix, t);
  }

  /** Only the first "Bearer " goes: a doubled prefix leaves one in the token. */
  lemma OnlyFirstBearerRemoved(t: string)
    ensures TokenOf("", BearerPrefix + BearerPrefix + t) == BearerPrefix + t
  {
    assert BearerPrefix + BearerPrefix + t == BearerPrefix + (BearerPrefix + t);
    RemoveFirstOfPrefix(BearerPrefix, BearerPrefix + t);
  }

  /** A header without "Bearer " anywhere is taken whole as the token. */
  lemma HeaderWithoutBearerIsToken(header: string)
    requires header != ""
    requires forall j :: 0 <= j ==> !OccursAt(header, BearerPrefix, j)
    ensures TokenOf("", header) == header
  {
    RemoveFirstAbsent(header, BearerPrefix);
  }

  /**
   * Behind `Protected` and `AdminOnly` a request reaches the handler exactly
   * when it carries a valid token whose claims are an object with role "admin".
   */
  lemma AdminRouteNeedsAdminClaim(cookie: string, header: string, parse: string -> Option<Token>)
    ensures var d := Guard(cookie, header, parse);
      (d.Next? && AdminOnly(d.role).None?) <==>
        TokenOf(cookie, header) != ""
        && var tok := parse(TokenOf(cookie, header));
           tok.Some? && tok.value.valid && tok.value.claims.Some?
           && Claim(tok.value.claims.value, "role") == Str("admin")
  {
  }
}
