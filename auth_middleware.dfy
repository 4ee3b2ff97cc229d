/**
 * The Express middleware in front of the controllers: `authenticateToken` reads the
 * bearer token from the Authorization header and turns it into a principal,
 * `authorizeRole` and `authorizeTenant` are gates over that principal.
 * Token verification (signature, expiry) is an opaque `verify` function.
 */
module AuthMiddleware {
  import opened Wrappers
  import opened Domain

  predicate NoSpace(s: string) {
    ' ' !in s
  }

  /** `s.split(' ')`: the pieces between single spaces, empty pieces included. */
  function Split(s: string): (parts: seq<string>)
    ensures |parts| >= 1
  {
    if s == [] then [""]
    else
      var rest := Split(s[1..]);
      if s[0] == ' ' then [""] + rest else [[s[0]] + rest[0]] + rest[1..]
  }

  /** `parts.join(' ')`. */
  function Join(parts: seq<string>): string
    requires |parts| >= 1
  {
    if |parts| == 1 then parts[0] else parts[0] + " " + Join(parts[1..])
  }

  /** Splitting loses nothing: the pieces hold no space and join back to `s`. */
  lemma {:induction false} SplitJoin(s: string)
    ensures Join(Split(s)) == s
    ensures forall i :: 0 <= i < |Split(s)| ==> NoSpace(Split(s)[i])
  {
    if s != [] {
      var rest := Split(s[1..]);
      SplitJoin(s[1..]);
      if s[0] == ' ' {
        assert Split(s)[1..] == rest;
        assert Join(Split(s)) == "" + " " + Join(rest);
        assert s == [s[0]] + s[1..];
      } else {
        var parts := Split(s);
        assert parts[0] == [s[0]] + rest[0];
        assert parts[1..] == rest[1..];
        if |rest| == 1 {
          assert Join(parts) == [s[0]] + Join(rest);
        } else {
          assert Join(rest) == rest[0] + " " + Join(rest[1..]);
          assert Join(parts) == [s[0]] + Join(rest);
        }
        assert s == [s[0]] + s[1..];
        forall i | 0 <= i < |parts| ensures NoSpace(parts[i]) {
          if i > 0 {
            assert parts[i] == rest[i];
          }
        }
      }
    }
  }

  /** A word without spaces followed by a space splits off as the first piece. */
  lemma {:induction false} SplitAfterWord(w: string, x: string)
    requires NoSpace(w)
    ensures Split(w + " " + x) == [w] + Split(x)
  {
    if w == [] {
      assert (w + " " + x)[1..] == x;
    } else {
      assert (w + " " + x)[1..] == w[1..] + " " + x;
      SplitAfterWord(w[1..], x);
      assert [w[0]] + w[1..] == w;
    }
  }

  /** A word without spaces that ends the string or a space is the first piece. */
  lemma {:induction false} SplitWordHead(t: string, rest: string)
    requires NoSpace(t)
    requires rest == [] || rest[0] == ' '
    ensures Split(t + rest)[0] == t
  {
    if t != [] {
      assert (t + rest)[1..] == t[1..] + rest;
      SplitWordHead(t[1..], rest);
      assert [t[0]] + t[1..] == t;
    } else {
      assert t + rest == rest;
    }
  }

  /** `header` is a first word, one space, then the word `token`, ended by the end of
      the header or by another space. */
  predicate TokenAt(header: string, first: string, token: string, rest: string) {
    && NoSpace(first)
    && NoSpace(token)
    && token != ""
    && (rest == [] || rest[0] == ' ')
    && header == first + " " + token + rest
  }

  /** `authHeader && authHeader.split(' ')[1]`, kept only when it is truthy. */
  function ExtractToken(header: Option<string>): (token: Option<string>)
    ensures token.Some? ==> token.value != "" && NoSpace(token.value)
  {
    match header
    case None => None
    case Some(h) =>
      var parts := Split(h);
      SplitJoin(h);
      if |parts| >= 2 && parts[1] != "" then Some(parts[1]) else None
  }

  /** The token is the second space-separated word of the header, and nothing else. */
  lemma ExtractTokenSpec(h: string, token: string)
    ensures ExtractToken(Some(h)) == Some(token) <==> exists first, rest :: TokenAt(h, first, token, rest)
  {
    var parts := Split(h);
    if ExtractToken(Some(h)) == Some(token) {
      SplitJoin(h);
      assert token == parts[1];
      var rest: string := if |parts| == 2 then "" else " " + Join(parts[2..]);
      assert parts[1..][0] == parts[1];
      if |parts| > 2 {
        assert parts[1..][1..] == parts[2..];
      }
      assert Join(parts[1..]) == token + rest;
      assert h == parts[0] + " " + (token + rest);
      assert TokenAt(h, parts[0], token, rest);
    }
    if exists first, rest :: TokenAt(h, first, token, rest) {
      var first, rest :| TokenAt(h, first, token, rest);
      assert h == first + " " + (token + rest);
      SplitAfterWord(first, token + rest);
      SplitWordHead(token, rest);
      assert parts[1] == token;
    }
  }

  /** `authenticateToken`: 401 without a token or when verification fails; otherwise
      the principal is exactly the verified claims. */
  function Authenticate(header: Option<string>, verify: string -> Option<Principal>): (r: Result<Principal>)
    ensures r.Fail? ==> r.err == Unauthorized
    ensures r.Ok? <==> ExtractToken(header).Some? && verify(ExtractToken(header).value).Some?
    ensures r.Ok? ==> r.value == verify(ExtractToken(header).value).value
  {
    match ExtractToken(header)
    case None => Fail(Unauthorized)
    case Some(token) =>
      match verify(token)
      case None => Fail(Unauthorized)
      case Some(claims) => Ok(claims)
  }

  /** `authorizeRole(allowed)`: 401 without a principal, 403 for a role outside `allowed`. */
  function AuthorizeRole(user: Option<Principal>, allowed: seq<Role>): (v: Verdict)
    ensures v == Allow <==> user.Some? && user.value.role in allowed
    ensures user.None? ==> v == Deny(Unauthorized)
    ensures user.Some? && user.value.role !in allowed ==> v == Deny(Forbidden)
  {
    if user.None? then Deny(Unauthorized)
    else if user.value.role !in allowed then Deny(Forbidden)
    else Allow
  }

  /** `req.params.tenantId || req.body.tenantId`, when truthy. */
  function RequestedTenant(params: Option<string>, body: Option<string>): Option<string> {
    if Truthy(params) then params else if Truthy(body) then body else None
  }

  /** `authorizeTenant`: a super_admin always passes; anyone else passes when no tenant
      is requested (route parameter first, then body) or it is their own tenant. */
  function AuthorizeTenant(p: Principal, params: Option<string>, body: Option<string>): (v: Verdict)
    ensures p.role == SuperAdmin ==> v == Allow
    ensures p.role != SuperAdmin && Truthy(params) ==> (v == Allow <==> p.tenantId == params)
    ensures p.role != SuperAdmin && !Truthy(params) && Truthy(body) ==> (v == Allow <==> p.tenantId == body)
    ensures !Truthy(params) && !Truthy(body) ==> v == Allow
    ensures v != Allow ==> v == Deny(Forbidden)
  {
    if p.role == SuperAdmin then Allow
    else
      var requested := RequestedTenant(params, body);
      if requested.Some? && p.tenantId != requested then Deny(Forbidden) else Allow
  }

  /** On the tenant routes (`/:tenantId`, a non-empty path segment) the gate passes exactly
      the principals the tenant controller's own first check passes. */
  lemma TenantRouteGate(p: Principal, tenantId: Id, body: Option<string>)
    requires tenantId != ""
    ensures AuthorizeTenant(p, Some(tenantId), body) == Allow <==> p.role == SuperAdmin || p.tenantId == Some(tenantId)
  {
  }
}
