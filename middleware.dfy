/** The two Gin middlewares of the Go API: `AuthMiddleware`, which checks the
    `Authorization` header and puts the token's claims into the request context, and
    `RBACMiddleware`, which lets a request through only when the role in the context is
    one of the allowed roles.

    The request context is the map of keys set with `c.Set`; token validation (JWT
    signature and expiry) is the parameter `validate`, which gives the claims of a valid
    token and None otherwise. */
module Middleware {
  import opened Options
  import opened Text

  /** The claims of a valid token. */
  datatype Claims = Claims(id: string, role: string)

  /** What a middleware does with the request: abort it with a status and an error
      message, or pass it on with the context it has built. */
  datatype Verdict = Abort(status: nat, error: string) | Next(ctx: map<string, string>)

  const UserIdKey := "userID"
  const UserRoleKey := "userRole"

  /** The token of an `Authorization` header: the header must split on single spaces into
      exactly two parts, the first of which lower-cases to `bearer`. */
  function BearerToken(header: string): (token: Option<string>)
    ensures token.Some? <==>
      ' ' in header && ' ' !in header[IndexOf(header, ' ') + 1..]
      && GoLower(header[..IndexOf(header, ' ')]) == "bearer"
    ensures token.Some? ==> header == header[..IndexOf(header, ' ')] + " " + token.value && ' ' !in token.value
  {
    var parts := Split(header, ' ');
    SplitAtFirstSpace(header);
    if |parts| != 2 || GoLower(parts[0]) != "bearer" then None else Some(parts[1])
  }

  lemma SplitAtFirstSpace(header: string)
    ensures ' ' in header ==>
      var i := IndexOf(header, ' ');
      Split(header, ' ') == [header[..i]] + Split(header[i + 1..], ' ')
      && header == header[..i] + " " + header[i + 1..]
    ensures ' ' !in header ==> Split(header, ' ') == [header]
  {
  }

  /** A header with a first space: the word before it must lower-case to `bearer`, and
      what follows it must hold no further space, for it to be the token. */
  lemma BearerOf(word: string, rest: string)
    requires ' ' !in word
    ensures BearerToken(word + " " + rest) == if ' ' !in rest && GoLower(word) == "bearer" then Some(rest) else None
  {
    var h := word + " " + rest;
    assert h[|word|] == ' ';
    var i := IndexOf(h, ' ');
    assert h[..i] == word && h[i + 1..] == rest;
  }

  /** The scheme word in lower case is accepted ... */
  lemma BearerLowerCase(token: string)
    requires ' ' !in token
    ensures BearerToken("bearer " + token) == Some(token)
  {
    BearerOf("bearer", token);
    assert "bearer " + token == "bearer" + " " + token;
  }

  /** ... and so it is in upper case: the comparison ignores case. */
  lemma BearerUpperCase(token: string)
    requires ' ' !in token
    ensures BearerToken("BEARER " + token) == Some(token)
  {
    BearerOf("BEARER", token);
    assert "BEARER " + token == "BEARER" + " " + token;
    assert GoLower("BEARER") == "bearer";
  }

  /** The scheme word alone has no token. */
  lemma BearerNeedsToken()
    ensures BearerToken("Bearer") == None
  {
    SplitAtFirstSpace("Bearer");
  }

  /** A second space anywhere after the first rejects the header, even a doubled one. */
  lemma BearerOneSpace(token: string)
    requires ' ' !in token
    ensures BearerToken("Bearer " + token + " b") == None
    ensures BearerToken("Bearer  " + token) == None
  {
    var extra := token + " b";
    BearerOf("Bearer", extra);
    assert "Bearer " + token + " b" == "Bearer" + " " + extra;
    assert extra[|token|] == ' ';
    var spaced := " " + token;
    BearerOf("Bearer", spaced);
    assert "Bearer  " + token == "Bearer" + " " + spaced;
    assert spaced[0] == ' ';
  }

  /** Another scheme is rejected. */
  lemma BearerOnlyScheme(token: string)
    requires ' ' !in token
    ensures BearerToken("Basic " + token) == None
  {
    BearerOf("Basic", token);
    assert "Basic " + token == "Basic" + " " + token;
    assert |GoLower("Basic")| == 5;
  }

  /** `AuthMiddleware`: 401 for an empty header, a malformed header or a token that does
      not validate; otherwise exactly the claims' id and role are set, as `userID` and
      `userRole`. */
  function Authenticate(ctx: map<string, string>, header: string, validate: string -> Option<Claims>): (v: Verdict)
    ensures header == "" ==> v == Abort(401, "Authorization header required")
    ensures v.Next? <==> BearerToken(header).Some? && validate(BearerToken(header).value).Some?
    ensures v.Next? ==>
      var claims := validate(BearerToken(header).value).value;
      v.ctx == ctx[UserIdKey := claims.id][UserRoleKey := claims.role]
    ensures v.Abort? ==> v.status == 401
  {
    if header == "" then Abort(401, "Authorization header required")
    else match BearerToken(header)
      case None => Abort(401, "Invalid Authorization format. Expected 'Bearer [token]'")
      case Some(token) =>
        match validate(token)
        case None => Abort(401, "Invalid or expired token")
        case Some(claims) => Next(ctx[UserIdKey := claims.id][UserRoleKey := claims.role])
  }

  /** What `RBACMiddleware(allowed...)` decides: 403 when the context has no role, 403 when
      the role is not exactly (case-sensitively) one of `allowed`, and otherwise the
      request passes on unchanged. An empty `allowed` admits nobody. */
  function RbacVerdict(ctx: map<string, string>, allowed: seq<string>): (v: Verdict)
    ensures UserRoleKey !in ctx ==> v == Abort(403, "Role information missing")
    ensures UserRoleKey in ctx ==> (v.Next? <==> exists i :: 0 <= i < |allowed| && allowed[i] == ctx[UserRoleKey])
    ensures v.Next? ==> v.ctx == ctx
    ensures allowed == [] ==> v.Abort?
  {
    if UserRoleKey !in ctx then Abort(403, "Role information missing")
    else if ctx[UserRoleKey] in allowed then Next(ctx)
    else Abort(403, "Access denied. Insufficient role privileges.")
  }

  /** The middleware itself, with its search loop over the allowed roles. */
  method RbacMiddleware(ctx: map<string, string>, allowed: seq<string>) returns (v: Verdict)
    ensures v == RbacVerdict(ctx, allowed)
  {
    if UserRoleKey !in ctx {
      return Abort(403, "Role information missing");
    }
    var role := ctx[UserRoleKey];
    var isAllowed := false;
    var i := 0;
    while i < |allowed|
      invariant 0 <= i <= |allowed|
      invariant isAllowed ==> role in allowed
      invariant !isAllowed ==> role !in allowed[..i]
      decreases |allowed| - i
    {
      if role == allowed[i] {
        isAllowed := true;
        break;
      }
      assert allowed[..i + 1] == allowed[..i] + [allowed[i]];
      i := i + 1;
    }
    assert allowed[..|allowed|] == allowed;
    if !isAllowed {
      return Abort(403, "Access denied. Insufficient role privileges.");
    }
    v := Next(ctx);
  }
}
