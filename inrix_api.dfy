/** The INRIX client (INRIX_API.py) as functions: when the app token is refreshed, how the
    segment list is read, and how speed requests are batched. Timestamps are integer seconds;
    parsing and printing ISO 8601 text is left to the functions of a `TokenApi`. */
module InrixApi {
  import opened Wrappers
  import Text
  import opened Batching

  /** A token is refreshed when less than this many seconds remain (one hour). */
  const RefreshMargin: int := 3600
  /** Segments per speed request. */
  const BatchSize: nat := 500

  /** A `datetime`: wall-clock seconds and, when it is timezone-aware, its UTC offset. */
  datatype Stamp = Stamp(wall: int, offset: Option<int>)

  /** Seconds since the epoch of an aware stamp. */
  function Instant(s: Stamp): int
    requires s.offset.Some?
  {
    s.wall - s.offset.value
  }

  /** The token file: absent, not a JSON object, or an object whose keys may be missing. */
  datatype TokenFile = Missing | Unreadable | Stored(token: Option<string>, expiry: Option<string>)

  /** The `result` object of a successful app-token request. */
  datatype TokenReply = TokenReply(token: string, expiry: string)

  /** The token service, answering the `n`-th request (None for an HTTP error or an
      malformed body), and `datetime.fromisoformat` / `isoformat`. */
  datatype TokenApi = TokenApi(service: nat -> Option<TokenReply>,
                               parseIso: string -> Option<Stamp>,
                               formatIso: Stamp -> string)

  /** The downloader's token fields, the token file, and the number of token requests made. */
  datatype TokenState = TokenState(token: Option<string>, expiry: Option<Stamp>, file: TokenFile, requests: nat)

  datatype Error =
    | TokenFileUnreadable      // json.load fails
    | MissingKey(key: string)  // KeyError on the stored object
    | BadTimestamp             // fromisoformat raises ValueError
    | NaiveExpiry              // an aware minus a naive datetime raises TypeError
    | TokenRequestFailed       // HTTP error or malformed body from the token service
    | SpeedRequestFailed       // HTTP error or malformed body from the speed service

  /** `not self.token`: no token, or the empty one. */
  predicate Truthy(token: Option<string>) {
    token.Some? && token.value != ""
  }

  /** `_token_needs_refresh`, at time `now` (UTC seconds). */
  function TokenNeedsRefresh(expiry: Option<Stamp>, now: int): (r: Result<bool, Error>)
    ensures r.Err? <==> expiry.Some? && expiry.value.offset.None?
    ensures r.Ok? ==> (r.value <==> expiry.None? || Instant(expiry.value) - now < RefreshMargin)
  {
    if expiry.None? then Ok(true)
    else if expiry.value.offset.None? then Err(NaiveExpiry)
    else
      var left := Instant(expiry.value) - now;
      Ok(left <= 0 || left < RefreshMargin)
  }

  /** Python's `s[:-2]`. */
  function DropLast2(s: string): (r: string)
    ensures r <= s
    ensures |r| == if |s| >= 2 then |s| - 2 else 0
  {
    if |s| >= 2 then s[..|s| - 2] else ""
  }

  /** `_get_new_token`: the token is stored before its expiry is parsed, and the file is
      written only once both are known. */
  function NewToken(api: TokenApi, t: TokenState): (res: (TokenState, Outcome<Error>))
    ensures res.0.requests == t.requests + 1
    ensures res.1.Fail? ==> res.0.file == t.file && res.0.expiry == t.expiry
    ensures res.1.Pass? ==>
      res.0.token.Some? && res.0.expiry.Some? && res.0.expiry.value.offset == Some(0)
      && res.0.file == Stored(res.0.token, Some(api.formatIso(res.0.expiry.value)))
  {
    var reply := api.service(t.requests);
    var t1 := t.(requests := t.requests + 1);
    if reply.None? then (t1, Fail(TokenRequestFailed))
    else
      var t2 := t1.(token := Some(reply.value.token));
      var parsed := api.parseIso(DropLast2(reply.value.expiry));
      if parsed.None? then (t2, Fail(BadTimestamp))
      else
        var expiry := Stamp(parsed.value.wall, Some(0));
        (t2.(expiry := Some(expiry), file := Stored(Some(reply.value.token), Some(api.formatIso(expiry)))), Pass)
  }

  /** The `if os.path.exists(...)` block of `_load_or_refresh_token`. */
  function LoadStored(api: TokenApi, t: TokenState): (res: (TokenState, Outcome<Error>))
    ensures res.0.requests == t.requests && res.0.file == t.file
    ensures res.1 == Fail(TokenFileUnreadable) <==> t.file.Unreadable?
    ensures t.file.Missing? || t.file.Unreadable? ==> res.0 == t
    ensures t.file.Stored? && res.1.Pass? ==> res.0.token == t.file.token && res.0.token.Some?
  {
    match t.file
    case Missing => (t, Pass)
    case Unreadable => (t, Fail(TokenFileUnreadable))
    case Stored(token, expiry) =>
      if token.None? then (t, Fail(MissingKey("token")))
      else if expiry.None? then (t.(token := token), Fail(MissingKey("expiry")))
      else
        var parsed := api.parseIso(Text.Replace(expiry.value, 'Z', "+00:00"));
        if parsed.None? then (t.(token := token), Fail(BadTimestamp))
        else (t.(token := token, expiry := parsed), Pass)
  }

  /** `_get_new_token` inside the `try`: when it raises, the `except` branch asks once more. */
  function Refresh(api: TokenApi, t: TokenState): (TokenState, Outcome<Error>) {
    var (t1, o1) := NewToken(api, t);
    if o1.Fail? then NewToken(api, t1) else (t1, Pass)
  }

  /** `_load_or_refresh_token` at time `now`. */
  function LoadOrRefresh(api: TokenApi, t: TokenState, now: int): (res: (TokenState, Outcome<Error>))
    ensures t.requests <= res.0.requests <= t.requests + 2
    ensures res.1.Fail? ==> res.0.requests > t.requests
  {
    var (t1, o1) := LoadStored(api, t);
    if o1.Fail? then NewToken(api, t1)
    else if !Truthy(t1.token) then Refresh(api, t1)
    else match TokenNeedsRefresh(t1.expiry, now)
      case Err(_) => NewToken(api, t1)
      case Ok(stale) => if stale then Refresh(api, t1) else (t1, Pass)
  }

  /** `_read_segments`: the whole content is stripped, then split on commas; the pieces
      themselves are not stripped. */
  function ReadSegments(content: string): (ids: seq<string>)
    ensures |ids| == Text.Count(Text.Strip(content), ',') + 1
    ensures Text.Join(ids, ',') == Text.Strip(content)
    ensures forall id :: id in ids ==> ',' !in id
  {
    var s := Text.Strip(content);
    Text.SplitCount(s, ',');
    Text.JoinSplit(s, ',');
    Text.SplitPiecesFree(s, ',');
    Text.Split(s, ',')
  }

  function StripAll(xs: seq<string>): seq<string> {
    seq(|xs|, k requires 0 <= k < |xs| => Text.Strip(xs[k]))
  }

  /** One speed request: the `ids` and `accesstoken` query parameters. */
  datatype Request = Request(ids: string, token: Option<string>)

  /** One JSON object of a speed response, its values carried as text. */
  type Record = map<string, string>

  /** The speed service: the rows for a request, or None for an HTTP error or a body
      without `result.segmentspeeds[0].segments`. */
  type SpeedService = Request -> Option<seq<Record>>

  /** `','.join(segment.strip() for segment in batch)`. */
  function BatchIds(batch: seq<string>): string {
    Text.Join(StripAll(batch), ',')
  }

  /** The request `get_speed_data` builds for one batch. */
  function BatchRequest(token: Option<string>): seq<string> -> Request {
    batch => Request(BatchIds(batch), token)
  }

  /** One request, built by `build`, per consecutive batch of 500 segments. */
  function BatchRequests(build: seq<string> -> Request, segments: seq<string>): seq<Request> {
    var batches := Chunks(segments, BatchSize);
    seq(|batches|, k requires 0 <= k < |batches| => build(batches[k]))
  }

  /** The requests `get_speed_data` sends when none fails. */
  function SpeedRequests(segments: seq<string>, token: Option<string>): seq<Request> {
    BatchRequests(BatchRequest(token), segments)
  }

  /** Sending `reqs` in order: the concatenated rows, or the first failure. */
  function Collect(service: SpeedService, reqs: seq<Request>): (r: Result<seq<Record>, Error>)
    ensures r.Ok? <==> forall k :: 0 <= k < |reqs| ==> service(reqs[k]).Some?
    ensures r.Err? ==> r.error == SpeedRequestFailed
    decreases |reqs|
  {
    if reqs == [] then Ok([])
    else
      assert forall k :: 1 <= k < |reqs| ==> reqs[k] == reqs[1..][k - 1];
      match service(reqs[0])
      case None => Err(SpeedRequestFailed)
      case Some(rows) =>
        match Collect(service, reqs[1..])
        case Ok(more) => Ok(rows + more)
        case Err(e) => Err(e)
  }

  /** How many of `reqs` are sent: all of them, or up to and including the first that fails. */
  function Sent(service: SpeedService, reqs: seq<Request>): (n: nat)
    ensures n <= |reqs|
    decreases |reqs|
  {
    if reqs == [] then 0
    else if service(reqs[0]).None? then 1
    else 1 + Sent(service, reqs[1..])
  }

  // ---------------------------------------------------------------- properties

  /** No token request is made exactly when the stored token loads, is non-empty and has at
      least an hour left; then the loaded values are kept. */
  lemma NoRequestIffFresh(api: TokenApi, t: TokenState, now: int)
    ensures var (t1, o1) := LoadStored(api, t);
      var (t2, o2) := LoadOrRefresh(api, t, now);
      (t2.requests == t.requests <==>
        o1.Pass? && Truthy(t1.token) && TokenNeedsRefresh(t1.expiry, now) == Ok(false))
      && (t2.requests == t.requests ==> (t2, o2) == (t1, Pass))
  {
  }

  /** Loading makes at most two token requests, the second only after the first failed; an
      error escapes only from a failed request. */
  lemma LoadRequests(api: TokenApi, t: TokenState, now: int)
    ensures var (t2, o2) := LoadOrRefresh(api, t, now);
      t.requests <= t2.requests <= t.requests + 2
      && (t2.requests == t.requests + 2 ==> NewToken(api, LoadStored(api, t).0).1.Fail?)
      && (o2.Fail? ==> t2.requests > t.requests)
  {
  }

  /** Whatever goes wrong while reading the stored token, exactly one new token is asked for
      and its outcome is the outcome of loading. */
  lemma LoadFailureFallsBack(api: TokenApi, t: TokenState, now: int)
    requires LoadStored(api, t).1.Fail?
    ensures var (t2, o2) := LoadOrRefresh(api, t, now);
      t2.requests == t.requests + 1
      && (o2.Pass? <==> api.service(t.requests).Some?
                        && api.parseIso(DropLast2(api.service(t.requests).value.expiry)).Some?)
  {
  }

  /** After a successful load the expiry is aware: either it came from the file with at least
      an hour left, or a new token was fetched, its expiry read as UTC and both written back. */
  lemma LoadedTokenUsable(api: TokenApi, t: TokenState, now: int)
    requires LoadOrRefresh(api, t, now).1.Pass?
    ensures var t2 := LoadOrRefresh(api, t, now).0;
      t2.expiry.Some? && t2.expiry.value.offset.Some?
      && (t2.requests == t.requests ==> Truthy(t2.token) && Instant(t2.expiry.value) - now >= RefreshMargin)
      && (t2.requests > t.requests ==>
            t2.expiry.value.offset == Some(0)
            && t2.file == Stored(t2.token, Some(api.formatIso(t2.expiry.value))))
  {
  }

  /** A token saved by `_get_new_token` is loaded back unchanged by the next downloader, as
      long as `fromisoformat` reads back what `isoformat` wrote, and is reused without any
      request while it has an hour left. */
  lemma {:induction false} SavedTokenReloads(api: TokenApi, t: TokenState, requests: nat, now: int)
    requires NewToken(api, t).1.Pass?
    requires var e := NewToken(api, t).0.expiry.value;
      api.parseIso(Text.Replace(api.formatIso(e), 'Z', "+00:00")) == Some(e)
    ensures var saved := NewToken(api, t).0;
      var next := TokenState(None, None, saved.file, requests);
      LoadStored(api, next) == (next.(token := saved.token, expiry := saved.expiry), Pass)
      && (Truthy(saved.token) && Instant(saved.expiry.value) - now >= RefreshMargin ==>
            LoadOrRefresh(api, next, now) == (next.(token := saved.token, expiry := saved.expiry), Pass))
  {
  }

  /** `"a, b"` holds the ids `"a"` and `" b"`: only the ends of the whole content are stripped. */
  lemma SegmentIdsKeepInnerSpaces()
    ensures ReadSegments(" a, b\n") == ["a", " b"]
  {
    ExampleTrimmed();
    ExampleSplit();
  }

  lemma ExampleSplit()
    ensures Text.Split("a, b", ',') == ["a", " b"]
  {
    assert "a, b" == "a" + [','] + " b";
    Text.SplitOfFree("a", ',');
    Text.SplitPrefix("a", " b", ',');
    Text.SplitOfFree(" b", ',');
  }

  lemma ExampleTrimmed()
    ensures Text.Strip(" a, b\n") == "a, b"
  {
    var c := " a, b\n";
    assert Text.IsSpace(c[0]) && !Text.IsSpace(c[1]);
    assert Text.SkipSpace(c, 0) == 1;
    assert Text.IsSpace(c[5]) && !Text.IsSpace(c[4]);
    assert Text.SkipSpaceBack(c, 1, 6) == 5;
    assert c[1..5] == "a, b";
  }

  /** `get_speed_data` makes ceil(n / 500) requests when none fails. */
  lemma RequestCount(segments: seq<string>, token: Option<string>)
    ensures |SpeedRequests(segments, token)| == (|segments| + BatchSize - 1) / BatchSize
  {
    ChunkCount(segments, BatchSize);
  }

  /** Request `k` names the stripped ids of the `k`-th consecutive slice of 500 segments. */
  lemma {:induction false} RequestAt(segments: seq<string>, token: Option<string>, k: nat)
    requires forall s :: s in segments ==> ',' !in s
    requires k < |SpeedRequests(segments, token)|
    ensures k * BatchSize < |segments|
    ensures SpeedRequests(segments, token)[k].token == token
    ensures Text.Split(SpeedRequests(segments, token)[k].ids, ',')
         == StripAll(segments[k * BatchSize .. if (k + 1) * BatchSize <= |segments| then (k + 1) * BatchSize else |segments|])
  {
    var batches := Chunks(segments, BatchSize);
    ChunkAt(segments, BatchSize, k);
    BatchSplits(batches[k]);
  }

  /** Taken together, the requests name every segment once, in order. */
  lemma {:induction false} RequestsCoverSegments(segments: seq<string>, token: Option<string>)
    requires forall s :: s in segments ==> ',' !in s
    ensures var reqs := SpeedRequests(segments, token);
      Flatten(seq(|reqs|, k requires 0 <= k < |reqs| => Text.Split(reqs[k].ids, ','))) == StripAll(segments)
  {
    var reqs := SpeedRequests(segments, token);
    var batches := Chunks(segments, BatchSize);
    forall k | 0 <= k < |batches|
      ensures Text.Split(reqs[k].ids, ',') == StripAll(batches[k])
    {
      ChunkAt(segments, BatchSize, k);
      BatchSplits(batches[k]);
    }
    assert seq(|reqs|, k requires 0 <= k < |reqs| => Text.Split(reqs[k].ids, ','))
        == seq(|batches|, k requires 0 <= k < |batches| => StripAll(batches[k]));
    FlattenStripAll(batches);
    FlattenChunks(segments, BatchSize);
  }

  /** The `ids` of a non-empty batch of comma-free segments split back into its stripped ids. */
  lemma BatchSplits(batch: seq<string>)
    requires batch != []
    requires forall s :: s in batch ==> ',' !in s
    ensures Text.Split(BatchIds(batch), ',') == StripAll(batch)
  {
    var parts := StripAll(batch);
    forall p | p in parts
      ensures ',' !in p
    {
      var k :| 0 <= k < |parts| && parts[k] == p;
      assert batch[k] in batch;
    }
    Text.SplitJoin(parts, ',');
  }

  lemma {:induction false} FlattenStripAll(xss: seq<seq<string>>)
    ensures Flatten(seq(|xss|, k requires 0 <= k < |xss| => StripAll(xss[k]))) == StripAll(Flatten(xss))
  {
    if xss != [] {
      var mapped := seq(|xss|, k requires 0 <= k < |xss| => StripAll(xss[k]));
      FlattenStripAll(xss[1..]);
      assert mapped[1..] == seq(|xss[1..]|, k requires 0 <= k < |xss[1..]| => StripAll(xss[1..][k]));
      assert StripAll(xss[0] + Flatten(xss[1..])) == StripAll(xss[0]) + StripAll(Flatten(xss[1..]));
    }
  }

  /** The speed data is complete exactly when every request is answered, and is then the
      answers concatenated in request order. */
  lemma {:induction false} CollectOk(service: SpeedService, reqs: seq<Request>)
    ensures Collect(service, reqs).Ok? <==> forall k :: 0 <= k < |reqs| ==> service(reqs[k]).Some?
    ensures Collect(service, reqs).Ok? ==>
      Collect(service, reqs).value
        == Flatten(seq(|reqs|, k requires 0 <= k < |reqs| && service(reqs[k]).Some? => service(reqs[k]).value))
    decreases |reqs|
  {
    if reqs != [] {
      CollectOk(service, reqs[1..]);
      if Collect(service, reqs).Ok? {
        var answers := seq(|reqs|, k requires 0 <= k < |reqs| && service(reqs[k]).Some? => service(reqs[k]).value);
        assert answers[1..] == seq(|reqs[1..]|, k requires 0 <= k < |reqs[1..]| && service(reqs[1..][k]).Some?
                                                  => service(reqs[1..][k]).value);
      } else if service(reqs[0]).Some? {
        var k :| 0 <= k < |reqs[1..]| && service(reqs[1..][k]).None?;
        assert service(reqs[k + 1]).None?;
      }
    }
  }

  /** The requests sent are answered up to the last one; that one failed unless all were sent
      and the data is complete. */
  lemma {:induction false} SentPrefix(service: SpeedService, reqs: seq<Request>)
    ensures forall k :: 0 <= k < Sent(service, reqs) - 1 ==> service(reqs[k]).Some?
    ensures Collect(service, reqs).Ok? <==> Sent(service, reqs) == |reqs| && (reqs == [] || service(reqs[|reqs| - 1]).Some?)
    ensures Collect(service, reqs).Err? ==> Sent(service, reqs) >= 1 && service(reqs[Sent(service, reqs) - 1]).None?
    decreases |reqs|
  {
    if reqs != [] {
      SentPrefix(service, reqs[1..]);
      if service(reqs[0]).Some? {
        forall k | 0 <= k < Sent(service, reqs) - 1
          ensures service(reqs[k]).Some?
        {
          if k > 0 {
            assert reqs[k] == reqs[1..][k - 1];
          }
        }
      }
    }
  }

  /** `rows` followed by the rows of `r`, or `r`'s error. */
  function Appended(rows: seq<Record>, r: Result<seq<Record>, Error>): Result<seq<Record>, Error> {
    if r.Ok? then Ok(rows + r.value) else r
  }

  /** The loop of `get_speed_data` from index `i` on: the rows, or the first failure, and
      the requests sent. */
  function SpeedLoop(speed: SpeedService, build: seq<string> -> Request, segments: seq<string>, i: nat)
    : (res: (Result<seq<Record>, Error>, seq<Request>))
    ensures res.0.Err? ==> res.0 == Err(SpeedRequestFailed) && res.1 != [] && speed(res.1[|res.1| - 1]).None?
    ensures forall k :: 0 <= k < |res.1| - 1 ==> speed(res.1[k]).Some?
    ensures res.0.Ok? ==> forall k :: 0 <= k < |res.1| ==> speed(res.1[k]).Some?
    decreases |segments| - i
  {
    if i >= |segments| then (Ok([]), [])
    else
      var request := build(segments[i .. if i + BatchSize <= |segments| then i + BatchSize else |segments|]);
      match speed(request)
      case None => (Err(SpeedRequestFailed), [request])
      case Some(rows) =>
        var (rest, sent) := SpeedLoop(speed, build, segments, i + BatchSize);
        assert forall k :: 1 <= k < |sent| + 1 ==> ([request] + sent)[k] == sent[k - 1];
        (Appended(rows, rest), [request] + sent)
  }

  /** From pass `k` on, the loop sends the remaining batch requests up to the first failure
      and collects their rows. */
  lemma {:induction false} SpeedLoopCollects(speed: SpeedService, build: seq<string> -> Request, segments: seq<string>, k: nat, i: nat)
    requires i == BatchSize * k && k <= |BatchRequests(build, segments)|
    ensures var reqs := BatchRequests(build, segments)[k..];
      SpeedLoop(speed, build, segments, i) == (Collect(speed, reqs), reqs[..Sent(speed, reqs)])
    decreases |segments| - i
  {
    var reqs := BatchRequests(build, segments);
    if k < |reqs| && speed(reqs[k]).Some? {
      SpeedLoopPass(speed, build, segments, k, i);
      SpeedLoopCollects(speed, build, segments, k + 1, i + BatchSize);
      var n := Sent(speed, reqs[k + 1..]);
      TakeAfter(reqs, k, n);
      var tail := SpeedLoop(speed, build, segments, i + BatchSize);
      assert tail == (Collect(speed, reqs[k + 1..]), reqs[k + 1..][..n]);
    } else {
      SpeedLoopLast(speed, build, segments, k, i);
    }
  }

  /** Pass `k` of the loop when its request is answered: its rows, then the later passes'. */
  lemma SpeedLoopPass(speed: SpeedService, build: seq<string> -> Request, segments: seq<string>, k: nat, i: nat)
    requires i == BatchSize * k && k < |BatchRequests(build, segments)|
    requires speed(BatchRequests(build, segments)[k]).Some?
    ensures var reqs := BatchRequests(build, segments);
      var tail := SpeedLoop(speed, build, segments, i + BatchSize);
      && SpeedLoop(speed, build, segments, i) == (Appended(speed(reqs[k]).value, tail.0), [reqs[k]] + tail.1)
      && Collect(speed, reqs[k..]) == Appended(speed(reqs[k]).value, Collect(speed, reqs[k + 1..]))
      && Sent(speed, reqs[k..]) == 1 + Sent(speed, reqs[k + 1..])
  {
    var reqs := BatchRequests(build, segments);
    RequestOfSlice(build, segments, k, i);
    SpeedLoopAt(speed, build, segments, i, reqs[k]);
    CollectStep(speed, reqs, k);
  }

  /** The loop stops at pass `k` when there is no such pass or its request fails. */
  lemma SpeedLoopLast(speed: SpeedService, build: seq<string> -> Request, segments: seq<string>, k: nat, i: nat)
    requires i == BatchSize * k && k <= |BatchRequests(build, segments)|
    requires k < |BatchRequests(build, segments)| ==> speed(BatchRequests(build, segments)[k]).None?
    ensures var reqs := BatchRequests(build, segments)[k..];
      SpeedLoop(speed, build, segments, i) == (Collect(speed, reqs), reqs[..Sent(speed, reqs)])
  {
    var reqs := BatchRequests(build, segments);
    if k < |reqs| {
      RequestOfSlice(build, segments, k, i);
      SpeedLoopAt(speed, build, segments, i, reqs[k]);
      CollectStep(speed, reqs, k);
      assert reqs[k..][..1] == [reqs[k]];
    } else {
      assert i >= |segments| by {
        ChunkIndex(segments, BatchSize, k);
      }
      assert reqs[k..] == [];
    }
  }

  /** One pass of the loop at `i`, whose request is `request`. */
  lemma SpeedLoopAt(speed: SpeedService, build: seq<string> -> Request, segments: seq<string>, i: nat, request: Request)
    requires i < |segments|
    requires request == build(segments[i .. if i + BatchSize <= |segments| then i + BatchSize else |segments|])
    ensures speed(request).None? ==> SpeedLoop(speed, build, segments, i) == (Err(SpeedRequestFailed), [request])
    ensures speed(request).Some? ==>
      SpeedLoop(speed, build, segments, i)
      == (Appended(speed(request).value, SpeedLoop(speed, build, segments, i + BatchSize).0),
          [request] + SpeedLoop(speed, build, segments, i + BatchSize).1)
  {
  }

  lemma TakeAfter<T>(xs: seq<T>, k: nat, n: nat)
    requires k < |xs| && n <= |xs| - k - 1
    ensures xs[k..][..n + 1] == [xs[k]] + xs[k + 1..][..n]
  {
  }

  /** Sending request `j` first: its rows come before the rest, or it is the last one sent. */
  lemma CollectStep(speed: SpeedService, reqs: seq<Request>, j: nat)
    requires j < |reqs|
    ensures speed(reqs[j]).None? ==>
      Collect(speed, reqs[j..]) == Err(SpeedRequestFailed) && Sent(speed, reqs[j..]) == 1
    ensures speed(reqs[j]).Some? ==>
      Collect(speed, reqs[j..]) == Appended(speed(reqs[j]).value, Collect(speed, reqs[j + 1..]))
      && Sent(speed, reqs[j..]) == 1 + Sent(speed, reqs[j + 1..])
  {
    assert reqs[j..][0] == reqs[j];
    assert reqs[j..][1..] == reqs[j + 1..];
  }

  lemma AppendedAssoc(a: seq<Record>, b: seq<Record>, r: Result<seq<Record>, Error>)
    ensures Appended(a, Appended(b, r)) == Appended(a + b, r)
  {
    if r.Ok? {
      assert a + (b + r.value) == (a + b) + r.value;
    }
  }

  /** Pass `k` of the loop, at `i == 500 * k`, builds request `k`. */
  lemma RequestOfSlice(build: seq<string> -> Request, segments: seq<string>, k: nat, i: nat)
    requires k < |BatchRequests(build, segments)| && i == BatchSize * k
    ensures i < |segments|
    ensures BatchRequests(build, segments)[k]
         == build(segments[i .. if i + BatchSize <= |segments| then i + BatchSize else |segments|])
  {
    ChunkAt(segments, BatchSize, k);
  }
}
