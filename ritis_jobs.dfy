/** The decision logic of `RITIS_Downloader` (RITIS_API.py) as functions over a snapshot of
    everything the downloader changes: the clock, the watermark file, how far it has read
    each remote reply stream, and the log of its observable effects. The class in module
    Ritis runs the same logic with loops and fields, and is proved to agree with these
    functions; the lemmas here state what the lifecycle guarantees. */
module RitisJobs {
  import opened Wrappers
  import Text

  /** Default number of submission attempts of `_submit_job`. */
  const SubmitAttempts: nat := 3
  /** The fixed nap after a rate-limited status check, in seconds. */
  const RateLimitNap: nat := 300

  const Succeeded := "SUCCEEDED"
  const Failed := "FAILED"
  const Killed := "KILLED"
  /** Synthesised by the client on HTTP 429; never sent by the remote service as such. */
  const RateLimited := "RATE_LIMITED"

  /** Time one status request takes; positive, so polling always moves the clock. */
  type Latency = n: nat | n > 0 witness 1

  datatype SubmitReply = SubmitReply(code: int, jobId: string, text: string)
  datatype StatusReply = StatusReply(code: int, state: string, progress: int, text: string, latency: Latency)

  /** The remote service and the process environment, as streams of answers: the n-th
      submission POST, the n-th status GET, whether the n-th results download produced a
      parquet file, and the n-th `uuid4()`. */
  datatype Remote = Remote(
    submit: nat -> SubmitReply,
    status: nat -> StatusReply,
    download: nat -> bool,
    uuid: nat -> string)

  /** Constructor settings of the downloader (times in the units the source uses). */
  datatype Config = Config(
    segments: seq<string>,
    startTime: string,
    endTime: string,
    binSize: int,
    units: string,
    columns: seq<string>,
    thresholds: seq<int>,
    sleepTime: nat,
    timeoutMinutes: int)

  /** The JSON body posted to the submit endpoint; dates are day numbers. */
  datatype Payload = Payload(
    uuid: string,
    segments: seq<string>,
    start: int,
    end: int,
    startTime: string,
    endTime: string,
    dow: seq<int>,
    columns: seq<string>,
    thresholds: seq<int>,
    binSize: int,
    units: string)

  /** The name a parquet file is saved under: a date for daily jobs, free text otherwise. */
  datatype JobName = DayName(day: int) | TextName(text: string)

  datatype Handle = Handle(jobId: string, uuid: string)

  datatype Error =
    | UnboundResponse            // `_submit_job` with attempts == 0 reads an unassigned `response`
    | SubmissionFailed(text: string)
    | StatusFailed(text: string)
    | StateNotIndexable          // `status['state']` on a str raises TypeError
    | TimedOut(jobId: string, minutes: int)
    | DatesUnavailable           // watermark file missing or unparseable

  /** Observable effects, in the order they happen. */
  datatype Event =
    | Slept(seconds: nat)
    | Posted(payload: Payload)
    | Polled(jobId: string, at: int, seen: Result<string, Error>)
    | Fetched(uuid: string)
    | Saved(name: JobName)
    | WroteWatermark(day: int)

  /** Everything the downloader changes: the clock (seconds), the watermark file (a day
      number, None when the file cannot be read), cursors into the Remote streams, the log. */
  datatype Sys = Sys(
    clock: int,
    lastRun: Option<int>,
    posts: nat,
    polls: nat,
    fetches: nat,
    uuids: nat,
    log: seq<Event>)

  function MaxTime(cfg: Config): int {
    cfg.timeoutMinutes * 60
  }

  /** Segment ids from the segments file: split on commas, each id stripped. */
  function ParseSegments(content: string): (ids: seq<string>)
    ensures |ids| == |Text.Split(content, ',')| == Text.Count(content, ',') + 1
    ensures forall k :: 0 <= k < |ids| ==>
      ids[k] == Text.Strip(Text.Split(content, ',')[k]) && ',' !in ids[k]
  {
    var pieces := Text.Split(content, ',');
    Text.SplitCount(content, ',');
    Text.SplitPiecesFree(content, ',');
    seq(|pieces|, k requires 0 <= k < |pieces| => Text.Strip(pieces[k]))
  }

  /** `single_download`'s job name: spaces become underscores, colons are deleted. */
  function Sanitise(name: string): (r: string)
    ensures ' ' !in r && ':' !in r
  {
    Text.Replace(Text.Replace(name, ' ', "_"), ':', "")
  }

  /** Sanitising shortens the name by its colons, leaves a clean name alone, and so is idempotent. */
  lemma SanitiseProperties(name: string)
    ensures |Sanitise(name)| == |name| - Text.Count(name, ':')
    ensures ' ' !in name && ':' !in name ==> Sanitise(name) == name
    ensures Sanitise(Sanitise(name)) == Sanitise(name)
  {
    var t := Text.Replace(name, ' ', "_");
    ReplaceKeepsCount(name, ' ', "_", ':');
    if ' ' !in name && ':' !in name {
      Text.ReplaceAbsent(name, ' ', "_");
      Text.ReplaceAbsent(name, ':', "");
    }
    var r := Sanitise(name);
    Text.ReplaceAbsent(r, ' ', "_");
    Text.ReplaceAbsent(r, ':', "");
  }

  /** Sanitising is character-wise: each space becomes `_`, each colon is deleted, and every
      other character is kept, in order. */
  lemma SanitiseChars(a: string, b: string, c: char)
    ensures Sanitise(a + b) == Sanitise(a) + Sanitise(b)
    ensures Sanitise([' ']) == "_"
    ensures Sanitise([':']) == ""
    ensures c != ' ' && c != ':' ==> Sanitise([c]) == [c]
  {
    Text.ReplaceAppend(a, b, ' ', "_");
    Text.ReplaceAppend(Text.Replace(a, ' ', "_"), Text.Replace(b, ' ', "_"), ':', "");
    assert [' '][1..] == [] && [':'][1..] == [] && [c][1..] == [];
    assert Text.Replace("_", ':', "") == "_" by {
      assert "_"[1..] == [];
    }
  }

  lemma {:induction false} ReplaceKeepsCount(s: string, c: char, t: string, d: char)
    requires c != d && d !in t
    ensures Text.Count(Text.Replace(s, c, t), d) == Text.Count(s, d)
    decreases |s|
  {
    if s != [] {
      ReplaceKeepsCount(s[1..], c, t, d);
      var head := if s[0] == c then t else [s[0]];
      Text.CountAppend(head, Text.Replace(s[1..], c, t), d);
      if s[0] == c {
        Text.CountZero(t, d);
      }
    }
  }

  function MakePayload(cfg: Config, uuid: string, start: int, end: int): Payload {
    Payload(uuid, cfg.segments, start, end, cfg.startTime, cfg.endTime,
            [0, 1, 2, 3, 4, 5, 6], cfg.columns, cfg.thresholds, cfg.binSize, cfg.units)
  }

  /** Delay before submission attempt `i` (attempts count from 0). */
  function Backoff(i: nat): nat {
    10 * i * i
  }

  function Sleep(s: Sys, seconds: nat): Sys {
    s.(clock := s.clock + seconds, log := s.log + [Slept(seconds)])
  }

  /** Attempts `i`, `i+1`, ... of the submission loop: sleep, post, stop at the first 200 or
      after the last attempt. */
  function SubmitLoop(r: Remote, s: Sys, p: Payload, i: nat, attempts: nat): (res: (Sys, SubmitReply))
    requires i < attempts
    ensures res.0.clock >= s.clock
    ensures res.0.lastRun == s.lastRun
    ensures res.0.uuids == s.uuids && res.0.polls == s.polls && res.0.fetches == s.fetches
    decreases attempts - i
  {
    var s1 := Sleep(s, Backoff(i));
    var reply := r.submit(s1.posts);
    var s2 := s1.(posts := s1.posts + 1, log := s1.log + [Posted(p)]);
    if reply.code == 200 || i == attempts - 1 then (s2, reply)
    else SubmitLoop(r, s2, p, i + 1, attempts)
  }

  /** `_submit_job`: a fresh uuid, then the retry loop; the job handle on a final 200. */
  function SubmitJob(r: Remote, cfg: Config, s: Sys, start: int, end: int, attempts: nat)
    : (res: (Sys, Result<Handle, Error>))
    ensures res.0.clock >= s.clock
    ensures res.0.lastRun == s.lastRun
    ensures res.0.uuids == s.uuids + 1 && res.0.polls == s.polls && res.0.fetches == s.fetches
  {
    var uuid := r.uuid(s.uuids);
    var s0 := s.(uuids := s.uuids + 1);
    if attempts == 0 then (s0, Err(UnboundResponse))
    else
      var (s1, reply) := SubmitLoop(r, s0, MakePayload(cfg, uuid, start, end), 0, attempts);
      if reply.code == 200 then (s1, Ok(Handle(reply.jobId, uuid)))
      else (s1, Err(SubmissionFailed(reply.text)))
  }

  /** `_check_job_status` on one reply: the reported state on 200, the synthetic
      rate-limited state on 429, an error carrying the body otherwise. */
  function StatusOf(reply: StatusReply): (res: Result<string, Error>)
    ensures res.Ok? <==> reply.code == 200 || reply.code == 429
    ensures reply.code == 200 ==> res == Ok(reply.state)
    ensures reply.code == 429 ==> res == Ok(RateLimited)
    ensures res.Err? ==> res.error == StatusFailed(reply.text)
  {
    if reply.code == 200 then Ok(reply.state)
    else if reply.code == 429 then Ok(RateLimited)
    else Err(StatusFailed(reply.text))
  }

  /** `_check_job_status`: one status request, answered by the next status reply; nothing
      but the clock, the poll count and the log changes. */
  function CheckStatus(r: Remote, s: Sys, jobId: string): (res: (Sys, Result<string, Error>))
    ensures res.0.polls == s.polls + 1 && res.0.clock > s.clock
    ensures res.0.lastRun == s.lastRun && res.0.fetches == s.fetches && res.0.uuids == s.uuids
    ensures res.0.log == s.log + [Polled(jobId, s.clock, res.1)]
    ensures res.1 == StatusOf(r.status(s.polls))
  {
    var reply := r.status(s.polls);
    (s.(polls := s.polls + 1, clock := s.clock + reply.latency,
        log := s.log + [Polled(jobId, s.clock, StatusOf(reply))]),
     StatusOf(reply))
  }

  /** `_download_and_process_job_results`: whether a parquet file named `name` was saved. */
  function Download(r: Remote, s: Sys, uuid: string, name: JobName): (res: (Sys, bool))
    ensures res.0 == s.(fetches := s.fetches + 1, log := res.0.log)
    ensures |s.log| < |res.0.log| && res.0.log[..|s.log|] == s.log
    ensures res.1 <==> Saved(name) in res.0.log[|s.log|..]
    ensures res.1 == r.download(s.fetches)
  {
    var ok := r.download(s.fetches);
    var added := [Fetched(uuid)] + (if ok then [Saved(name)] else []);
    var s' := s.(fetches := s.fetches + 1, log := s.log + added);
    assert s'.log[|s.log|..] == added;
    (s', ok)
  }

  function WriteWatermark(s: Sys, day: int): Sys {
    s.(lastRun := Some(day), log := s.log + [WroteWatermark(day)])
  }

  /** Where one pass of the polling loop leaves the downloader: finished (by `break`, or by
      raising), or ready for the next pass with the current job and failure count. */
  datatype Step = Done(s: Sys, outcome: Outcome<Error>) | Again(s: Sys, h: Handle, failed: nat)

  /** One pass of `daily_download`'s polling loop for `date`, job `h`, after `failed`
      terminal failures: check the status and act on it. */
  function PollStep(r: Remote, cfg: Config, s: Sys, date: int, h: Handle, failed: nat): (step: Step)
    ensures step.s.clock >= s.clock
    ensures step.Again? ==> step.s.clock > s.clock
    ensures step.s.uuids >= s.uuids
    ensures step.s.lastRun == s.lastRun || (step == Done(step.s, Pass) && step.s.lastRun == Some(date))
  {
    var (s1, st) := CheckStatus(r, s, h.jobId);
    if st.Err? then Done(s1, Fail(st.error))
    else if st.value == Succeeded then
      var (s2, ok) := Download(r, s1, h.uuid, DayName(date));
      Done(if ok then WriteWatermark(s2, date) else s2, Pass)
    else if st.value == Killed || st.value == Failed then
      if failed + 1 <= 1 then
        var (s2, sub) := SubmitJob(r, cfg, s1, date, date + 1, SubmitAttempts);
        if sub.Err? then Done(s2, Fail(sub.error))
        else Again(Sleep(s2, cfg.sleepTime), sub.value, failed + 1)
      else Done(s1, Fail(StateNotIndexable))
    else if st.value == RateLimited then
      Again(Sleep(Sleep(s1, RateLimitNap), cfg.sleepTime), h, failed)
    else
      Again(Sleep(s1, cfg.sleepTime), h, failed)
  }

  /** The polling loop of `daily_download` for one date, from the top of a pass; `start` is
      the clock reading the timeout runs from. */
  function Poll(r: Remote, cfg: Config, s: Sys, date: int, h: Handle, failed: nat, start: int)
    : (res: (Sys, Outcome<Error>))
    ensures res.0.clock >= s.clock && res.0.uuids >= s.uuids
    ensures res.0.lastRun == s.lastRun || (res.1 == Pass && res.0.lastRun == Some(date))
    decreases start + MaxTime(cfg) - s.clock
  {
    if s.clock - start >= MaxTime(cfg) then (s, Fail(TimedOut(h.jobId, cfg.timeoutMinutes)))
    else
      match PollStep(r, cfg, s, date, h, failed)
      case Done(s1, o) => (s1, o)
      case Again(s1, h1, failed1) => Poll(r, cfg, s1, date, h1, failed1, start)
  }

  /** One iteration of `daily_download`'s date loop: the job covers [date, date + 1). */
  function RunDate(r: Remote, cfg: Config, s: Sys, date: int): (res: (Sys, Outcome<Error>))
    ensures res.0.uuids > s.uuids && res.0.clock >= s.clock
    ensures res.0.lastRun == s.lastRun || (res.1 == Pass && res.0.lastRun == Some(date))
  {
    var (s1, sub) := SubmitJob(r, cfg, s, date, date + 1, SubmitAttempts);
    if sub.Err? then (s1, Fail(sub.error))
    else if sub.value.jobId == "" then (s1, Pass)
    else Poll(r, cfg, s1, date, sub.value, 0, s1.clock)
  }

  /** The date loop: dates in order, stopping at the first raised error. */
  function RunDates(r: Remote, cfg: Config, s: Sys, dates: seq<int>): (res: (Sys, Outcome<Error>))
    ensures res.0.lastRun == s.lastRun || (res.0.lastRun.Some? && res.0.lastRun.value in dates)
    ensures dates != [] ==> res.0.uuids > s.uuids
    decreases |dates|
  {
    if dates == [] then (s, Pass)
    else
      var (s1, o) := RunDate(r, cfg, s, dates[0]);
      if o.Fail? then (s1, o) else RunDates(r, cfg, s1, dates[1..])
  }

  /** `_get_dates`: the stored day itself and every later day up to yesterday, ascending. */
  function PendingDates(last: int, yesterday: int): (dates: seq<int>)
    ensures |dates| == if last <= yesterday then yesterday - last + 1 else 0
    ensures forall k :: 0 <= k < |dates| ==> dates[k] == last + k
    decreases yesterday - last + 1
  {
    if last > yesterday then [] else [last] + PendingDates(last + 1, yesterday)
  }

  /** `daily_download` with `today` the current date. */
  function Daily(r: Remote, cfg: Config, s: Sys, today: int): (res: (Sys, Outcome<Error>))
    ensures s.lastRun.None? ==> res == (s, Fail(DatesUnavailable))
    ensures s.lastRun.Some? && s.lastRun.value >= today ==> res == (s, Pass)
    ensures s.lastRun.Some? && s.lastRun.value < today ==>
      res.0.uuids > s.uuids && res.0.lastRun.Some? && s.lastRun.value <= res.0.lastRun.value < today
  {
    match s.lastRun
    case None => (s, Fail(DatesUnavailable))
    case Some(last) =>
      var dates := PendingDates(last, today - 1);
      if dates == [] then (s, Pass) else RunDates(r, cfg, s, dates)
  }

  /** `single_download`: its first successful status check indexes a str and raises. */
  function SingleDownload(r: Remote, cfg: Config, s: Sys, start: int, end: int): (res: (Sys, Outcome<Error>))
    ensures res.0.lastRun == s.lastRun && res.0.fetches == s.fetches
    ensures res.0.polls <= s.polls + 1
    ensures res.1.Pass? ==> res.0.polls == s.polls
  {
    var (s1, sub) := SubmitJob(r, cfg, s, start, end, SubmitAttempts);
    if sub.Err? then (s1, Fail(sub.error))
    else if sub.value.jobId == "" then (s1, Pass)
    else
      var (s2, st) := CheckStatus(r, s1, sub.value.jobId);
      if st.Err? then (s2, Fail(st.error)) else (s2, Fail(StateNotIndexable))
  }
}
