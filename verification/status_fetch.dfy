/**
  Validation of one reply from a server's `/api/get_status` endpoint into a
  game-state record, or `None` where the source returns `null`.

  The HTTP exchange and `JSON.parse` are not modelled: a reply is taken as
  already received and, when its body is JSON, already parsed.
 */
module StatusFetch {

  import opened Wrappers

  type Url = string

  /** `result.map` of the status payload. */
  datatype MapInfo = MapInfo(prettyName: Option<string>)

  /** `result` of the status payload; a field that is absent is `None`. */
  datatype StatusResult = StatusResult(
    currentPlayers: Option<nat>,
    maxPlayers: Option<nat>,
    name: Option<string>,
    mapInfo: Option<MapInfo>)

  /**
    The response body: text that `JSON.parse` rejects, or a parsed value whose
    `result` is `None` when the value itself or its `result` is missing or falsy.
   */
  datatype Body = Unparsable | Json(result: Option<StatusResult>)

  /** What the HTTP request produced: an exception from `fetch`, or a response. */
  datatype Reply =
    | Unreachable
    | Response(status: int, contentType: Option<string>, body: Body)

  /** The record `getGameState` builds; `maxPlayers` is `None` where `parseInt` would give `NaN`. */
  datatype GameState = GameState(
    numPlayers: nat,
    maxPlayers: Option<nat>,
    serverName: Option<string>,
    mapName: Option<string>)

  const JsonMediaType: string := "application/json"

  /** `response.ok`: a status in the 2xx range. */
  predicate IsOk(status: int)
  {
    200 <= status <= 299
  }

  predicate StartsWith(s: string, prefix: string)
  {
    |prefix| <= |s| && s[..|prefix|] == prefix
  }

  /** `s.includes(pattern)`. */
  predicate Includes(s: string, pattern: string)
    decreases |s|
  {
    StartsWith(s, pattern) || (s != [] && Includes(s[1..], pattern))
  }

  /** `pattern` occurs in `s` starting at position `i`. */
  predicate OccursAt(s: string, pattern: string, i: int)
  {
    0 <= i <= |s| - |pattern| && s[i..i + |pattern|] == pattern
  }

  /** `Includes` holds exactly when `pattern` occurs at some position of `s`. */
  lemma {:induction false} IncludesAt(s: string, pattern: string)
    ensures Includes(s, pattern) <==> exists i :: OccursAt(s, pattern, i)
    decreases |s|
  {
    var n := |pattern|;
    if StartsWith(s, pattern) {
      assert OccursAt(s, pattern, 0);
    } else if s != [] {
      IncludesAt(s[1..], pattern);
      if Includes(s, pattern) {
        var j :| OccursAt(s[1..], pattern, j);
        assert 0 <= j <= |s| - 1 - n && s[1..][j..j + n] == pattern;
        assert s[j + 1..j + 1 + n] == s[1..][j..j + n];
        assert OccursAt(s, pattern, j + 1);
      }
      if exists i :: OccursAt(s, pattern, i) {
        var i :| OccursAt(s, pattern, i);
        if i != 0 {
          assert s[1..][i - 1..i - 1 + n] == s[i..i + n];
          assert OccursAt(s[1..], pattern, i - 1);
        }
      }
    }
  }

  /** A string shorter than the pattern cannot contain it. */
  lemma {:induction false} ShortNeverIncludes(s: string, pattern: string)
    requires |s| < |pattern|
    ensures !Includes(s, pattern)
    decreases |s|
  {
    if s != [] {
      ShortNeverIncludes(s[1..], pattern);
    }
  }

  /** The content-type test: a header is present and mentions `application/json`. */
  predicate IsJsonContentType(contentType: Option<string>)
  {
    contentType.Some? && Includes(contentType.value, JsonMediaType)
  }

  /**
    `getGameState` after the request: every failure path (exception from
    `fetch` or `JSON.parse`, non-2xx status, wrong content type, missing
    `result` or `result.current_players`, and the `TypeError` thrown when
    `result.map` is missing) yields `None`.
   */
  function GetGameState(reply: Reply): (r: Option<GameState>)
    ensures r.Some? <==>
      && reply.Response?
      && IsOk(reply.status)
      && IsJsonContentType(reply.contentType)
      && reply.body.Json?
      && reply.body.result.Some?
      && reply.body.result.value.currentPlayers.Some?
      && reply.body.result.value.mapInfo.Some?
    ensures r.Some? ==>
      var res := reply.body.result.value;
      && r.value.numPlayers == res.currentPlayers.value
      && r.value.maxPlayers == res.maxPlayers
      && r.value.serverName == res.name
      && r.value.mapName == res.mapInfo.value.prettyName
  {
    match reply
    case Unreachable => None
    case Response(status, contentType, body) =>
      if !IsOk(status) then None
      else if !IsJsonContentType(contentType) then None
      else
        match body
        case Unparsable => None
        case Json(result) =>
          if result.None? || result.value.currentPlayers.None? then None
          else if result.value.mapInfo.None? then None
          else
            var res := result.value;
            Some(GameState(res.currentPlayers.value, res.maxPlayers, res.name, res.mapInfo.value.prettyName))
  }

  /** The reply a healthy status endpoint sends for a given game state. */
  function Serve(state: GameState, contentType: string): Reply
  {
    Response(200, Some(contentType),
      Json(Some(StatusResult(Some(state.numPlayers), state.maxPlayers, state.serverName, Some(MapInfo(state.mapName))))))
  }

  /** Any game state served with a JSON content type is read back unchanged. */
  lemma ServeRoundTrip(state: GameState, contentType: string)
    requires Includes(contentType, JsonMediaType)
    ensures GetGameState(Serve(state, contentType)) == Some(state)
  {
  }

  /** An HTML reply (an error page, a login redirect) is rejected whatever its status and body. */
  lemma HtmlReplyRejected(status: int, body: Body)
    ensures GetGameState(Response(status, Some("text/html"), body)) == None
  {
    ShortNeverIncludes("text/html", JsonMediaType);
  }
}
