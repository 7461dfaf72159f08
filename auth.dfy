/** Authentication: the bearer-token middleware, the admin middleware, and the
    two cryptographic libraries they rest on (password hashing and signed tokens),
    which are foreign code and appear here only through the properties the
    model relies on. */
module Auth {
  import opened Base
  import opened Text
  import opened Schema

  /** The payload of a signed token: `{ id, email, role }`. */
  datatype Claims = Claims(id: int, email: string, role: string)

  /** The password-hashing and token-signing libraries, as function values. */
  datatype Crypto = Crypto(
    hash: string -> string,
    compare: (string, string) -> bool,
    sign: Claims -> string,
    verify: string -> Option<Claims>)

  /** What the libraries promise: a password matches its own hash, and a token
      verifies to the payload it was signed with. */
  ghost predicate Sound(c: Crypto) {
    (forall p :: c.compare(p, c.hash(p))) &&
    (forall cl :: c.verify(c.sign(cl)) == Some(cl))
  }

  /** The outcome of a middleware: let the request through with the caller's
      claims, or answer with a bare status code. */
  datatype Gate = Pass(claims: Claims) | Reject(status: int)

  /** `authHeader && authHeader.split(' ')[1]`, kept only when it is a non-empty
      string: the second space-separated piece of the header. The first piece,
      the authentication scheme, is never looked at. */
  function BearerToken(header: Option<string>): (t: Option<string>)
    ensures t.Some? ==> t.value != "" && !Contains(t.value, " ")
    ensures header.None? || header == Some("") ==> t.None?
  {
    match header
    case None => None
    case Some(h) =>
      if h == "" then None
      else
        var pieces := Split(h, " ");
        if |pieces| < 2 || pieces[1] == "" then None else Some(pieces[1])
  }

  /** Whatever word stands before the first space is accepted as the scheme:
      `Bearer`, `Basic` or anything else. */
  lemma BearerTokenAnyScheme(scheme: string, token: string)
    requires !Contains(scheme, " ") && !Contains(token, " ") && token != ""
    ensures BearerToken(Some(scheme + " " + token)) == Some(token)
  {
    var h := scheme + " " + token;
    assert IndexOf(h, " ") == Some(|scheme|) by {
      assert OccursAt(h, " ", |scheme|) by { assert h[|scheme|..|scheme| + 1] == " "; }
      forall j | 0 <= j < |scheme| ensures !OccursAt(h, " ", j) {
        if OccursAt(h, " ", j) {
          assert h[j..j + 1] == scheme[j..j + 1];
          assert OccursAt(scheme, " ", j);
          assert false;
        }
      }
    }
    assert h[..|scheme|] == scheme;
    assert h[|scheme| + 1..] == token;
    SplitUnfold(h, " ");
    assert Split(token, " ") == [token];
  }

  /** A header without a space carries no token. */
  lemma BearerTokenNeedsSpace(h: string)
    requires !Contains(h, " ")
    ensures BearerToken(Some(h)).None?
  {
  }

  /** `authenticateToken`: 401 when there is no token, 403 when the token does
      not verify, and otherwise the verified payload. */
  function Authenticate(header: Option<string>, crypto: Crypto): (g: Gate)
    ensures g.Reject? ==> g.status == 401 || g.status == 403
    ensures g == Reject(401) <==> BearerToken(header).None?
    ensures g == Reject(403) <==> BearerToken(header).Some? && crypto.verify(BearerToken(header).value).None?
    ensures g.Pass? ==> crypto.verify(BearerToken(header).value) == Some(g.claims)
  {
    match BearerToken(header)
    case None => Reject(401)
    case Some(token) =>
      match crypto.verify(token)
      case None => Reject(403)
      case Some(claims) => Pass(claims)
  }

  /** A token issued by the server, sent as `Bearer <token>`, lets its payload in. */
  lemma IssuedTokenPasses(crypto: Crypto, claims: Claims)
    requires Sound(crypto)
    requires crypto.sign(claims) != "" && !Contains(crypto.sign(claims), " ")
    ensures Authenticate(Some("Bearer " + crypto.sign(claims)), crypto) == Pass(claims)
  {
    ContainsChar("Bearer", ' ');
    var token := crypto.sign(claims);
    BearerTokenAnyScheme("Bearer", token);
    assert "Bearer " + token == "Bearer" + " " + token;
    assert crypto.verify(token) == Some(claims);
  }

  /** `isAdmin`: judged on the role carried by the token, not on the stored row. */
  function AdminGate(claims: Claims): (g: Gate)
    ensures g.Pass? <==> claims.role == RoleAdmin
    ensures g.Pass? ==> g.claims == claims
    ensures g.Reject? ==> g.status == 403
  {
    if claims.role != RoleAdmin then Reject(403) else Pass(claims)
  }
}
