/** The cron endpoint of src/app/api/cron/publish/route.ts: a request is let
    through when no secret is configured or when its `authorization` header
    is `Bearer <secret>`; a request let through runs one publishing sweep. */
module Cron {
  import opened Common
  import opened Repository
  import opened Instagram
  import opened Orchestrator

  // ---------------------------------------------------------------------
  // String.prototype.split(" ")

  predicate NoSpace(s: string) {
    forall i | 0 <= i < |s| :: s[i] != ' '
  }

  /** `s.split(" ")`: the pieces between single spaces, empty pieces
      included, so there is always one piece more than there are spaces. */
  function Split(s: string): (pieces: seq<string>)
    ensures |pieces| >= 1
  {
    if s == [] then [""]
    else if s[0] == ' ' then [""] + Split(s[1..])
    else
      var rest := Split(s[1..]);
      [[s[0]] + rest[0]] + rest[1..]
  }

  /** `pieces.join(" ")`. */
  function Join(pieces: seq<string>): string
    requires |pieces| >= 1
  {
    if |pieces| == 1 then pieces[0] else pieces[0] + " " + Join(pieces[1..])
  }

  /** No piece contains a space. */
  lemma {:induction false} SplitPiecesHaveNoSpace(s: string)
    ensures forall k | 0 <= k < |Split(s)| :: NoSpace(Split(s)[k])
  {
    if s != [] {
      SplitPiecesHaveNoSpace(s[1..]);
      if s[0] != ' ' {
        var rest := Split(s[1..]);
        assert NoSpace(rest[0]);
        assert Split(s)[1..] == rest[1..];
      }
    }
  }

  /** Splitting loses nothing: joining the pieces gives the string back. */
  lemma {:induction false} JoinSplit(s: string)
    ensures Join(Split(s)) == s
  {
    if s != [] {
      var rest := Split(s[1..]);
      JoinSplit(s[1..]);
      if s[0] == ' ' {
        assert Split(s)[1..] == rest;
      } else {
        var ps := Split(s);
        if |rest| == 1 {
          assert ps == [[s[0]] + rest[0]];
        } else {
          assert ps[1..] == rest[1..];
          assert Join(rest) == rest[0] + " " + Join(rest[1..]);
        }
      }
    }
  }

  /** A word without spaces followed by a space splits off as one piece. */
  lemma {:induction false} SplitAfterWord(w: string, tail: string)
    requires NoSpace(w)
    ensures Split(w + " " + tail) == [w] + Split(tail)
  {
    if w == [] {
      assert w + " " + tail == [' '] + tail;
      assert (w + " " + tail)[1..] == tail;
    } else {
      var s := w + " " + tail;
      assert s[0] == w[0];
      assert s[1..] == w[1..] + " " + tail;
      SplitAfterWord(w[1..], tail);
      assert [w[0]] + w[1..] == w;
    }
  }

  /** A word without spaces is a single piece. */
  lemma {:induction false} SplitWord(w: string)
    requires NoSpace(w)
    ensures Split(w) == [w]
  {
    if w != [] {
      SplitWord(w[1..]);
      assert [w[0]] + w[1..] == w;
    }
  }

  /** Joining pieces without spaces and splitting again gives the pieces
      back. */
  lemma {:induction false} SplitJoin(pieces: seq<string>)
    requires |pieces| >= 1
    requires forall k | 0 <= k < |pieces| :: NoSpace(pieces[k])
    ensures Split(Join(pieces)) == pieces
  {
    if |pieces| == 1 {
      SplitWord(pieces[0]);
    } else {
      SplitJoin(pieces[1..]);
      SplitAfterWord(pieces[0], Join(pieces[1..]));
    }
  }

  // ---------------------------------------------------------------------
  // verify

  const Scheme := "Bearer"

  /** `verify`: the configured `CRON_SECRET` and the request's
      `authorization` header decide whether the request is let through.
      The header is split on single spaces; its first piece must be the
      scheme and its second the secret, and anything after a further space
      is ignored. */
  predicate Verify(secret: Option<string>, authorization: Option<string>) {
    if !Present(secret) then true
    else if !Present(authorization) then false
    else
      var pieces := Split(authorization.value);
      pieces[0] == Scheme && |pieces| >= 2 && pieces[1] == secret.value
  }

  /** With a secret configured, a request is let through exactly when the
      secret has no space and the header is `Bearer `, the secret, and then
      nothing or a space followed by anything. */
  lemma {:induction false} VerifyIff(secret: string, authorization: Option<string>)
    requires secret != ""
    ensures Verify(Some(secret), authorization) <==>
              && NoSpace(secret)
              && authorization.Some?
              && var prefix := Scheme + " " + secret;
                 var auth := authorization.value;
                 && StartsWith(auth, prefix)
                 && (|auth| == |prefix| || auth[|prefix|] == ' ')
  {
    if authorization.Some? {
      var auth := authorization.value;
      var prefix := Scheme + " " + secret;
      var pieces := Split(auth);
      if Verify(Some(secret), authorization) {
        SplitPiecesHaveNoSpace(auth);
        assert NoSpace(pieces[1]);
        JoinSplit(auth);
        assert auth == pieces[0] + " " + Join(pieces[1..]);
        if |pieces| == 2 {
          assert auth == prefix;
        } else {
          assert Join(pieces[1..]) == pieces[1] + " " + Join(pieces[2..]);
          assert auth == prefix + " " + Join(pieces[2..]);
          assert auth[|prefix|] == ' ';
        }
      } else if NoSpace(secret) && StartsWith(auth, prefix) && (|auth| == |prefix| || auth[|prefix|] == ' ') {
        assert NoSpace(Scheme);
        SplitAfterWord(Scheme, auth[|Scheme| + 1..]);
        assert auth == Scheme + " " + auth[|Scheme| + 1..];
        if |auth| == |prefix| {
          assert auth[|Scheme| + 1..] == secret;
          SplitWord(secret);
        } else {
          var tail := auth[|prefix| + 1..];
          assert auth[|Scheme| + 1..] == secret + " " + tail;
          SplitAfterWord(secret, tail);
        }
        assert false;
      }
    }
  }

  /** Without a configured secret every request is let through; with one, a
      request without the header or with an empty one is turned away, and so
      is every request when the secret contains a space. */
  lemma VerifyCases(secret: Option<string>, authorization: Option<string>)
    ensures !Present(secret) ==> Verify(secret, authorization)
    ensures Present(secret) && !Present(authorization) ==> !Verify(secret, authorization)
    ensures Present(secret) && !NoSpace(secret.value) ==> !Verify(secret, authorization)
  {
    if Present(secret) && Present(authorization) {
      VerifyIff(secret.value, authorization);
    }
  }

  // ---------------------------------------------------------------------
  // GET and POST

  /** The JSON bodies the route answers with. */
  datatype Body = UnauthorizedBody | OkBody

  datatype Response = Json(status: nat, body: Body)

  function BodyText(b: Body): string {
    match b
    case UnauthorizedBody => "{\"error\":\"Unauthorized\"}"
    case OkBody => "{\"ok\":true}"
  }

  /** `GET`: a request that is not let through gets 401 and touches nothing;
      one that is runs one sweep of `publishDueUploads` and gets 200. */
  method Get(table: UploadTable, api: GraphApi, cfg: IgConfig, secret: Option<string>,
             authorization: Option<string>, now: Millis) returns (response: Response, ghost picked: Option<UploadRecord>)
    requires table.Valid()
    modifies table, api
    ensures table.Valid()
    ensures response == if Verify(secret, authorization) then Json(200, OkBody) else Json(401, UnauthorizedBody)
    ensures !Verify(secret, authorization) ==>
              table.rows == old(table.rows) && table.writes == old(table.writes) && api.requests == old(api.requests)
    ensures Verify(secret, authorization) ==>
              IsSweep(old(table.rows), old(table.writes), old(api.requests), table.rows, table.writes, api.requests,
                      cfg, api.replies, now, picked)
  {
    picked := None;
    if !Verify(secret, authorization) {
      return Json(401, UnauthorizedBody), picked;
    }
    picked := PublishDueUploads(table, api, cfg, now);
    response := Json(200, OkBody);
  }

  /** `POST` answers as `GET` does. */
  method Post(table: UploadTable, api: GraphApi, cfg: IgConfig, secret: Option<string>,
              authorization: Option<string>, now: Millis) returns (response: Response, ghost picked: Option<UploadRecord>)
    requires table.Valid()
    modifies table, api
    ensures table.Valid()
    ensures response == if Verify(secret, authorization) then Json(200, OkBody) else Json(401, UnauthorizedBody)
    ensures !Verify(secret, authorization) ==>
              table.rows == old(table.rows) && table.writes == old(table.writes) && api.requests == old(api.requests)
    ensures Verify(secret, authorization) ==>
              IsSweep(old(table.rows), old(table.writes), old(api.requests), table.rows, table.writes, api.requests,
                      cfg, api.replies, now, picked)
  {
    response, picked := Get(table, api, cfg, secret, authorization, now);
  }
}
