/** `INRIX_Downloader` (INRIX_API.py): credentials and segment ids read once, and the token
    fields that `_load_or_refresh_token` and `_get_new_token` update in place. Each method is
    proved to do what a function of InrixApi describes: `GetNewToken` is `NewToken`,
    `ReadTokenFile` is `LoadStored`, `LoadOrRefreshToken` is `LoadOrRefresh`, `SendBatches`
    is `SpeedLoop`, and `GetSpeedData` is `Collect` over the batch requests. */
module Inrix {
  import opened Wrappers
  import Text
  import opened InrixApi

  class InrixDownloader {
    const appId: string
    const hashToken: string
    const segments: seq<string>
    const api: TokenApi
    const speed: SpeedService

    var token: Option<string>
    var tokenExpiry: Option<Stamp>
    var tokenFile: TokenFile
    var tokenRequests: nat

    ghost function Snapshot(): TokenState
      reads this
    {
      TokenState(token, tokenExpiry, tokenFile, tokenRequests)
    }

    /** The field assignments of `__init__`, from the contents of the three text files. */
    constructor (appIdFile: string, hashTokenFile: string, segmentsFile: string,
                 tokenFile: TokenFile, api: TokenApi, speed: SpeedService)
      ensures appId == Text.Strip(appIdFile) && hashToken == Text.Strip(hashTokenFile)
      ensures segments == ReadSegments(segmentsFile)
      ensures this.api == api && this.speed == speed
      ensures Snapshot() == TokenState(None, None, tokenFile, 0)
    {
      appId := Text.Strip(appIdFile);
      hashToken := Text.Strip(hashTokenFile);
      segments := ReadSegments(segmentsFile);
      this.api := api;
      this.speed := speed;
      token := None;
      tokenExpiry := None;
      this.tokenFile := tokenFile;
      tokenRequests := 0;
    }

    /** `__init__`, which ends by loading or refreshing the token and raises when that fails. */
    static method Open(appIdFile: string, hashTokenFile: string, segmentsFile: string,
                       tokenFile: TokenFile, api: TokenApi, speed: SpeedService, now: int)
      returns (res: Result<InrixDownloader, Error>)
      ensures var (t, o) := LoadOrRefresh(api, TokenState(None, None, tokenFile, 0), now);
        (res.Err? <==> o.Fail?) && (res.Err? ==> o == Fail(res.error))
        && (res.Ok? ==> fresh(res.value) && res.value.Snapshot() == t
                        && res.value.segments == ReadSegments(segmentsFile))
    {
      var d := new InrixDownloader(appIdFile, hashTokenFile, segmentsFile, tokenFile, api, speed);
      var o := d.LoadOrRefreshToken(now);
      if o.Fail? {
        return Err(o.error);
      }
      return Ok(d);
    }

    /** `_get_new_token`. */
    method GetNewToken() returns (o: Outcome<Error>)
      modifies this
      ensures (Snapshot(), o) == NewToken(api, old(Snapshot()))
    {
      var reply := api.service(tokenRequests);
      tokenRequests := tokenRequests + 1;
      if reply.None? {
        return Fail(TokenRequestFailed);
      }
      token := Some(reply.value.token);
      var parsed := api.parseIso(DropLast2(reply.value.expiry));
      if parsed.None? {
        return Fail(BadTimestamp);
      }
      // `.replace(tzinfo=timezone.utc)`
      tokenExpiry := Some(Stamp(parsed.value.wall, Some(0)));
      tokenFile := Stored(token, Some(api.formatIso(tokenExpiry.value)));
      o := Pass;
    }

    /** The `if os.path.exists(self.token_path)` block: the stored token, then its expiry. */
    method ReadTokenFile() returns (o: Outcome<Error>)
      modifies this
      ensures (Snapshot(), o) == LoadStored(api, old(Snapshot()))
    {
      match tokenFile
      case Missing =>
        o := Pass;
      case Unreadable =>
        o := Fail(TokenFileUnreadable);
      case Stored(storedToken, storedExpiry) =>
        if storedToken.None? {
          return Fail(MissingKey("token"));
        }
        token := storedToken;
        if storedExpiry.None? {
          return Fail(MissingKey("expiry"));
        }
        var parsed := api.parseIso(Text.Replace(storedExpiry.value, 'Z', "+00:00"));
        if parsed.None? {
          return Fail(BadTimestamp);
        }
        tokenExpiry := parsed;
        o := Pass;
    }

    /** `_load_or_refresh_token` at time `now`: an error anywhere in the `try` block leads to
        one more `_get_new_token`, whose error escapes. */
    method LoadOrRefreshToken(now: int) returns (o: Outcome<Error>)
      modifies this
      ensures (Snapshot(), o) == LoadOrRefresh(api, old(Snapshot()), now)
    {
      o := ReadTokenFile();
      if o.Pass? && !Truthy(token) {
        o := GetNewToken();
      } else if o.Pass? {
        var stale := TokenNeedsRefresh(tokenExpiry, now);
        if stale.Err? {
          o := Fail(stale.error);
        } else if stale.value {
          o := GetNewToken();
        }
      }
      if o.Fail? {
        // the `except` branch
        o := GetNewToken();
      }
    }

    /** `get_speed_data`: one request per slice of 500 segments, with the stripped ids of the
        slice and the current token, the rows of every answer appended in order; the first
        failed request raises. `sent` lists the requests made. */
    method GetSpeedData() returns (res: Result<seq<Record>, Error>, sent: seq<Request>)
      ensures res == Collect(speed, SpeedRequests(segments, token))
      ensures sent == SpeedRequests(segments, token)[..Sent(speed, SpeedRequests(segments, token))]
    {
      res, sent := SendBatches(speed, BatchRequest(token), segments);
      SpeedLoopCollects(speed, BatchRequest(token), segments, 0, 0);
    }

    /** The loop of `get_speed_data`, `for i in range(0, len(segments), 500)`, sending
        `build(segments[i:i+500])` and extending the rows until a request fails. */
    static method SendBatches(speed: SpeedService, build: seq<string> -> Request, segments: seq<string>)
      returns (res: Result<seq<Record>, Error>, sent: seq<Request>)
      ensures (res, sent) == SpeedLoop(speed, build, segments, 0)
    {
      ghost var whole := SpeedLoop(speed, build, segments, 0);
      var allData: seq<Record> := [];
      sent := [];
      var i := 0;
      assert whole.0.Ok? ==> [] + whole.0.value == whole.0.value;
      assert [] + whole.1 == whole.1;
      while i < |segments|
        invariant whole.0 == Appended(allData, SpeedLoop(speed, build, segments, i).0)
        invariant whole.1 == sent + SpeedLoop(speed, build, segments, i).1
        decreases |segments| - i
      {
        var batch := segments[i .. if i + BatchSize <= |segments| then i + BatchSize else |segments|];
        var request := build(batch);
        SpeedLoopAt(speed, build, segments, i, request);
        ghost var rest := SpeedLoop(speed, build, segments, i + BatchSize);
        var rows := speed(request);
        if rows.None? {
          return Err(SpeedRequestFailed), sent + [request];
        }
        AppendedAssoc(allData, rows.value, rest.0);
        assert sent + ([request] + rest.1) == (sent + [request]) + rest.1;
        sent := sent + [request];
        allData := allData + rows.value;
        i := i + BatchSize;
      }
      assert allData + [] == allData;
      assert sent + [] == sent;
      res := Ok(allData);
    }
  }
}
