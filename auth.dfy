/**
 * The authorization middleware `authenticateToken` (server.js:23-38): it takes the second
 * space-separated word of the `Authorization` header as the token, answers 401 when there
 * is none, asks the token service to verify it, answers 403 when that fails, and otherwise
 * hands the decoded identity to the route handler.
 */
module Auth {
  import opened Wrappers
  import opened Strings

  /** The identity a signed token carries (`{ id, email }`, signed at login). */
  datatype Identity = Identity(id: nat, email: string)

  /** What the middleware decides before any handler runs. */
  datatype AuthResult = Authorized(user: Identity) | Rejected(status: nat, error: string)

  const NoTokenProvided := "No token provided"
  const InvalidToken := "Invalid token"

  /**
   * `authHeader && authHeader.split(' ')[1]`, read as a token only when it is truthy:
   * a missing header, a header without a second word and an empty second word all give no token.
   * The first word (normally `Bearer`) is never looked at.
   */
  function BearerToken(header: Option<string>): (token: Option<string>)
    ensures token.Some? ==> token.value != "" && ' ' !in token.value
    ensures header.None? ==> token.None?
  {
    match header
    case None => None
    case Some(h) =>
      var parts := Split(h, ' ');
      if |parts| >= 2 && parts[1] != "" then Some(parts[1]) else None
  }

  /** The middleware, with the token service's `verify` as a parameter (JWT signature and expiry checks). */
  function Authenticate(header: Option<string>, verify: string -> Option<Identity>): (r: AuthResult)
    ensures r.Rejected? ==> r.status == 401 || r.status == 403
    ensures r.Rejected? ==> r.error == if r.status == 401 then NoTokenProvided else InvalidToken
    ensures r.Rejected? && r.status == 401 <==> BearerToken(header).None?
    ensures r.Rejected? && r.status == 403 <==> BearerToken(header).Some? && verify(BearerToken(header).value).None?
    ensures r.Authorized? ==> BearerToken(header).Some? && verify(BearerToken(header).value) == Some(r.user)
  {
    match BearerToken(header)
    case None => Rejected(401, NoTokenProvided)
    case Some(token) =>
      match verify(token)
      case None => Rejected(403, InvalidToken)
      case Some(user) => Authorized(user)
  }

  /**
   * The token is the first word after the first space: the longest space-free prefix of
   * what follows, and no token when that prefix is empty.
   */
  lemma TokenAfterScheme(scheme: string, rest: string)
    requires ' ' !in scheme
    ensures var word := Split(rest, ' ')[0];
            BearerToken(Some(scheme + " " + rest)) == if word == "" then None else Some(word)
  {
    SplitAfterFirst(scheme, ' ', rest);
  }

  /** A header with no space at all carries no token. */
  lemma NoSpaceNoToken(h: string)
    requires ' ' !in h
    ensures BearerToken(Some(h)) == None
  {
    SplitAbsent(h, ' ');
  }

  /** `<scheme> <token>` yields exactly `<token>` when the token is a non-empty space-free word. */
  lemma WellFormedHeader(scheme: string, token: string, tail: string)
    requires ' ' !in scheme && ' ' !in token && token != ""
    requires tail == "" || tail[0] == ' '
    ensures BearerToken(Some(scheme + " " + token + tail)) == Some(token)
  {
    assert scheme + " " + token + tail == scheme + " " + (token + tail);
    TokenAfterScheme(scheme, token + tail);
    if tail == "" {
      assert token + tail == token;
      SplitAbsent(token, ' ');
    } else {
      assert token + tail == token + [' '] + tail[1..];
      SplitAfterFirst(token, ' ', tail[1..]);
    }
  }

  /** The scheme word is never checked: any two space-free first words give the same token. */
  lemma SchemeIgnored(a: string, b: string, rest: string)
    requires ' ' !in a && ' ' !in b
    ensures BearerToken(Some(a + " " + rest)) == BearerToken(Some(b + " " + rest))
  {
    TokenAfterScheme(a, rest);
    TokenAfterScheme(b, rest);
  }

  /**
   * An empty second word (`"Bearer"` followed by a single trailing space, or by two spaces)
   * is rejected with 401 before the token service is consulted.
   */
  lemma EmptySecondWordRejected(scheme: string, rest: string, verify: string -> Option<Identity>)
    requires ' ' !in scheme
    requires rest == "" || rest[0] == ' '
    ensures Authenticate(Some(scheme + " " + rest), verify) == Rejected(401, NoTokenProvided)
  {
    TokenAfterScheme(scheme, rest);
    if rest == "" {
      SplitAbsent(rest, ' ');
    } else {
      assert rest == [] + [' '] + rest[1..];
      SplitAfterFirst([], ' ', rest[1..]);
    }
  }
}
