/** The JWT middleware (src/middleware/auth.ts): take the token out of the
    `Authorization` header, verify it, and attach the decoded claims to the
    request. */
module Auth {
  import opened Common
  import opened Models
  import opened Library
  import opened Http

  const BEARER: string := "Bearer "
  const NO_TOKEN: string := "No token, authorization denied"
  const BAD_TOKEN: string := "Token is not valid"

  /** `req.header('Authorization')?.replace('Bearer ', '')`: no header gives
      no token; otherwise the first occurrence of "Bearer ", wherever it
      stands, is removed. */
  function Token(header: Option<string>): (t: Option<string>)
    ensures header.None? <==> t.None?
    ensures header.Some? && HasPrefix(header.value, BEARER) ==> t == Some(header.value[|BEARER|..])
    ensures header.Some? && (forall j :: 0 <= j <= |header.value| ==> !OccursAt(header.value, BEARER, j)) ==>
              t == header
  {
    match header
    case None => None
    case Some(h) =>
      var r := ReplaceFirst(h, BEARER, "");
      assert HasPrefix(h, BEARER) ==> r == "" + h[|BEARER|..] == h[|BEARER|..];
      Some(r)
  }

  /** What the middleware decides: a 401 response, or the claims to attach. */
  datatype Verdict = Reject(response: Response) | Accept(claims: Claims)

  function Authenticate(header: Option<string>, lib: Primitives): (v: Verdict)
    ensures !Filled(Token(header)) <==> v == Reject(Response(401, Msg(NO_TOKEN)))
    ensures Filled(Token(header)) && lib.verify(Token(header).value).None? ==>
              v == Reject(Response(401, Msg(BAD_TOKEN)))
    ensures v.Accept? <==> Filled(Token(header)) && lib.verify(Token(header).value).Some?
    ensures v.Accept? ==> v.claims == lib.verify(Token(header).value).value
  {
    var token := Token(header);
    if !Filled(token) then Reject(Response(401, Msg(NO_TOKEN)))
    else match lib.verify(token.value)
      case None => Reject(Response(401, Msg(BAD_TOKEN)))
      case Some(c) => Accept(c)
  }

  /** A header that is exactly "Bearer " leaves an empty token and is
      refused as if there were no header at all. */
  lemma BareBearerRefused(lib: Primitives)
    ensures Token(Some(BEARER)) == Some("")
    ensures Authenticate(Some(BEARER), lib) == Authenticate(None, lib) == Reject(Response(401, Msg(NO_TOKEN)))
  {
    assert HasPrefix(BEARER, BEARER);
  }

  /** The prefix is not anchored: "Bearer " is cut out of the middle of a
      header too. */
  lemma InnerBearerRemoved()
    ensures Token(Some("xBearer y")) == Some("xy")
  {
    var h := "xBearer y";
    assert OccursAt(h, BEARER, 1);
    assert !OccursAt(h, BEARER, 0) by { assert h[0] != BEARER[0]; }
    assert IndexFrom(h, BEARER, 1) == Some(1);
    assert IndexFrom(h, BEARER, 0) == Some(1);
    assert h[..1] + "" + h[8..] == "xy";
  }

  /** A header that is "Bearer " followed by the signed token authenticates
      as the claims the token was signed with, when verification undoes
      signing. */
  lemma SignedTokenAccepted(c: Claims, lib: Primitives)
    requires lib.sign(c) != "" && lib.verify(lib.sign(c)) == Some(c)
    ensures Authenticate(Some(BEARER + lib.sign(c)), lib) == Accept(c)
  {
    var h := BEARER + lib.sign(c);
    assert HasPrefix(h, BEARER);
    assert h[|BEARER|..] == lib.sign(c);
  }

  /** The parts of the Express request the middleware reads and writes:
      `req.user`, and the response sent, if any. */
  class RequestContext {
    var user: Option<Claims>
    var sent: Option<Response>

    constructor ()
      ensures user == None && sent == None
    {
      user := None;
      sent := None;
    }

    /** Runs `auth`; `next` is true exactly when the middleware calls `next()`.
        `req.user` is assigned only then, and a response is sent only otherwise. */
    method Run(header: Option<string>, lib: Primitives) returns (next: bool)
      modifies this
      ensures next <==> Authenticate(header, lib).Accept?
      ensures next ==> user == Some(Authenticate(header, lib).claims) && sent == old(sent)
      ensures !next ==> user == old(user) && sent == Some(Authenticate(header, lib).response)
    {
      var token := Token(header);
      if !Filled(token) {
        sent := Some(Response(401, Msg(NO_TOKEN)));
        return false;
      }
      var decoded := lib.verify(token.value);
      if decoded.None? {
        sent := Some(Response(401, Msg(BAD_TOKEN)));
        return false;
      }
      user := decoded;
      next := true;
    }
  }
}
