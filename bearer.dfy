/** The `checkToken` middleware guarding the private route: token extraction
    from the `Authorization` header and the three-way gate. */
module Bearer {
  import opened Data
  import opened Crypto

  /** The pieces joined with single spaces; the inverse of Split. */
  function Join(pieces: seq<string>): string
    requires |pieces| >= 1
  {
    if |pieces| == 1 then pieces[0] else pieces[0] + " " + Join(pieces[1..])
  }

  /** JavaScript `s.split(" ")`: the pieces between single spaces, in order,
      empty pieces included; the empty string splits into one empty piece. */
  function Split(s: string): (pieces: seq<string>)
    ensures |pieces| >= 1
    ensures forall i :: 0 <= i < |pieces| ==> ' ' !in pieces[i]
    ensures Join(pieces) == s
  {
    if s == [] then [""]
    else
      var rest := Split(s[1..]);
      if s[0] == ' ' then
        assert s == " " + s[1..];
        [""] + rest
      else
        var pieces := [[s[0]] + rest[0]] + rest[1..];
        assert pieces[1..] == rest[1..];
        assert s == [s[0]] + s[1..];
        pieces
  }

  lemma {:induction false} SplitSpaceFree(p: string)
    requires ' ' !in p
    ensures Split(p) == [p]
  {
    if p != [] {
      SplitSpaceFree(p[1..]);
      assert [p[0]] + p[1..] == p;
    }
  }

  lemma {:induction false} SplitAfterPiece(p: string, tail: string)
    requires ' ' !in p
    ensures Split(p + " " + tail) == [p] + Split(tail)
  {
    var s := p + " " + tail;
    if p == [] {
      assert s[1..] == tail;
    } else {
      assert s[1..] == p[1..] + " " + tail;
      SplitAfterPiece(p[1..], tail);
      assert [p[0]] + p[1..] == p;
    }
  }

  /** Splitting undoes joining space-free pieces, so Split is the only way to
      cut a string into space-free pieces separated by single spaces. */
  lemma {:induction false} SplitJoin(pieces: seq<string>)
    requires |pieces| >= 1
    requires forall i :: 0 <= i < |pieces| ==> ' ' !in pieces[i]
    ensures Split(Join(pieces)) == pieces
  {
    if |pieces| == 1 {
      SplitSpaceFree(pieces[0]);
    } else {
      SplitJoin(pieces[1..]);
      SplitAfterPiece(pieces[0], Join(pieces[1..]));
      assert [pieces[0]] + pieces[1..] == pieces;
    }
  }

  /** `authHeader && authHeader.split(" ")[1]`, kept only when it is truthy. */
  function TokenOf(header: Option<string>): (token: Option<string>)
    ensures header.None? ==> token.None?
    ensures token.Some? ==> token.value != "" && ' ' !in token.value
  {
    if header.None? then None
    else
      var pieces := Split(header.value);
      if |pieces| >= 2 && pieces[1] != "" then Some(pieces[1]) else None
  }

  /** The token of a header is its second space-separated piece when that
      piece is non-empty; a header of one piece carries no token. */
  lemma TokenOfJoin(pieces: seq<string>)
    requires |pieces| >= 1
    requires forall i :: 0 <= i < |pieces| ==> ' ' !in pieces[i]
    ensures TokenOf(Some(Join(pieces))) ==
      if |pieces| >= 2 && pieces[1] != "" then Some(pieces[1]) else None
  {
    SplitJoin(pieces);
  }

  /** A well-formed bearer header yields exactly its token. */
  lemma BearerTokenOf(scheme: string, token: string)
    requires ' ' !in scheme && ' ' !in token && token != ""
    ensures TokenOf(Some(scheme + " " + token)) == Some(token)
  {
    TokenOfJoin([scheme, token]);
  }

  /** A header with no space ("Bearer") carries no token. */
  lemma NoSpaceNoToken(header: string)
    requires ' ' !in header
    ensures TokenOf(Some(header)) == None
  {
    SplitSpaceFree(header);
  }

  /** A header whose scheme is followed by two spaces ("Bearer  x") carries no
      token: its second piece is empty. */
  lemma DoubleSpaceNoToken(scheme: string, rest: string)
    requires ' ' !in scheme
    ensures TokenOf(Some(scheme + "  " + rest)) == None
  {
    assert scheme + "  " + rest == scheme + " " + (" " + rest);
    SplitAfterPiece(scheme, " " + rest);
    SplitAfterPiece("", rest);
    assert "" + " " + rest == " " + rest;
  }

  /** The middleware's outcome: pass the request on, or reply and stop. */
  datatype Gate = Next | Deny(status: nat, msg: Message)

  /** `checkToken`: 401 without a token, 400 when `verify` throws, otherwise
      `next()`. `verify` stands for `jwt.verify(token, secret)` and is false
      when it throws; its decoded claims are discarded, so Next carries none. */
  function CheckToken(header: Option<string>, secret: Option<string>, verify: Verifier): (g: Gate)
    ensures g.Next? <==> TokenOf(header).Some? && verify(TokenOf(header).value, secret)
    ensures g == Deny(401, AccessDenied) <==> TokenOf(header).None?
    ensures g.Deny? ==> g == Deny(401, AccessDenied) || g == Deny(400, InvalidToken)
  {
    var token := TokenOf(header);
    if token.None? then Deny(401, AccessDenied)
    else if !verify(token.value, secret) then Deny(400, InvalidToken)
    else Next
  }

  /** A request without an Authorization header never reaches the handler. */
  lemma NoHeaderDenied(secret: Option<string>, verify: Verifier)
    ensures CheckToken(None, secret, verify) == Deny(401, AccessDenied)
  {
  }

  /** A bearer header whose token verifies lets the request through. */
  lemma BearerPasses(token: string, secret: Option<string>, verify: Verifier)
    requires ' ' !in token && token != "" && verify(token, secret)
    ensures CheckToken(Some("Bearer " + token), secret, verify) == Next
  {
    assert "Bearer " + token == "Bearer" + " " + token;
    BearerTokenOf("Bearer", token);
  }
}
