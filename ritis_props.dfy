/** What the RITIS job lifecycle guarantees, proved about the functions of RitisJobs. */
module RitisProps {
  import opened Wrappers
  import opened RitisJobs

  // ---------------------------------------------------------------------------------------
  // Submission retry (`_submit_job`)
  // ---------------------------------------------------------------------------------------

  /** The effects of attempts `i` .. `k - 1`: each sleeps its backoff, then posts `p`. */
  function Attempts(p: Payload, i: nat, k: nat): seq<Event>
    decreases k - i
  {
    if i >= k then [] else [Slept(Backoff(i)), Posted(p)] + Attempts(p, i + 1, k)
  }

  /** Total backoff of attempts `i` .. `k - 1`. */
  function BackoffTotal(i: nat, k: nat): nat
    decreases k - i
  {
    if i >= k then 0 else Backoff(i) + BackoffTotal(i + 1, k)
  }

  /** How many posts the loop makes from attempt `i` on, reading replies from `from` on:
      up to and including the first 200, and never past the last attempt. */
  function AttemptsUsed(r: Remote, from: nat, i: nat, attempts: nat): (k: nat)
    requires i < attempts
    ensures 1 <= k <= attempts - i
    decreases attempts - i
  {
    if r.submit(from).code == 200 || i == attempts - 1 then 1
    else 1 + AttemptsUsed(r, from + 1, i + 1, attempts)
  }

  lemma {:induction false} AttemptsLength(p: Payload, i: nat, k: nat)
    requires i <= k
    ensures |Attempts(p, i, k)| == 2 * (k - i)
    decreases k - i
  {
    if i < k { AttemptsLength(p, i + 1, k); }
  }

  /** Attempt `i + j` sleeps `10 * (i + j)^2` seconds and then posts the same payload. */
  lemma {:induction false} AttemptsAt(p: Payload, i: nat, k: nat, j: nat)
    requires i + j < k
    ensures |Attempts(p, i, k)| == 2 * (k - i)
    ensures Attempts(p, i, k)[2 * j] == Slept(10 * (i + j) * (i + j))
    ensures Attempts(p, i, k)[2 * j + 1] == Posted(p)
    decreases k - i
  {
    AttemptsLength(p, i, k);
    if j > 0 {
      AttemptsAt(p, i + 1, k, j - 1);
      assert i + 1 + (j - 1) == i + j;
    }
  }

  /** With the default three attempts that all fail, the delays are 0, 10 and 40 seconds. */
  lemma DefaultSchedule(p: Payload)
    ensures Attempts(p, 0, SubmitAttempts)
      == [Slept(0), Posted(p), Slept(10), Posted(p), Slept(40), Posted(p)]
    ensures BackoffTotal(0, SubmitAttempts) == 50
  {
    assert Attempts(p, 3, 3) == [];
    assert Attempts(p, 2, 3) == [Slept(40), Posted(p)];
    assert BackoffTotal(2, 3) == 40;
  }

  /** The retry loop posts the same payload after each backoff until the first 200, or until
      the attempts run out, and hands back the last reply. */
  lemma {:induction false} SubmitLoopEffect(r: Remote, s: Sys, p: Payload, i: nat, attempts: nat)
    requires i < attempts
    ensures var k := AttemptsUsed(r, s.posts, i, attempts);
      SubmitLoop(r, s, p, i, attempts) ==
        (s.(clock := s.clock + BackoffTotal(i, i + k), posts := s.posts + k,
            log := s.log + Attempts(p, i, i + k)),
         r.submit(s.posts + k - 1))
    ensures var k := AttemptsUsed(r, s.posts, i, attempts);
      (forall n :: s.posts <= n < s.posts + k - 1 ==> r.submit(n).code != 200)
      && (r.submit(s.posts + k - 1).code == 200 || i + k == attempts)
    decreases attempts - i
  {
    var k := AttemptsUsed(r, s.posts, i, attempts);
    var s1 := Sleep(s, Backoff(i));
    var s2 := s1.(posts := s1.posts + 1, log := s1.log + [Posted(p)]);
    if r.submit(s.posts).code == 200 || i == attempts - 1 {
      assert k == 1;
      assert Attempts(p, i + 1, i + 1) == [];
      assert Attempts(p, i, i + 1) == [Slept(Backoff(i)), Posted(p)];
      assert s2.log == s.log + Attempts(p, i, i + 1);
      assert BackoffTotal(i + 1, i + 1) == 0;
    } else {
      SubmitLoopEffect(r, s2, p, i + 1, attempts);
      var k' := AttemptsUsed(r, s.posts + 1, i + 1, attempts);
      assert k == k' + 1;
      assert i + 1 + k' == i + k;
      assert Attempts(p, i, i + k) == [Slept(Backoff(i)), Posted(p)] + Attempts(p, i + 1, i + k);
      assert s2.log + Attempts(p, i + 1, i + k) == s.log + Attempts(p, i, i + k);
    }
  }

  /** `_submit_job` draws one uuid, posts at most `attempts` times, and returns the job
      handle exactly when the last reply is a 200; otherwise it raises with the reply text. */
  lemma SubmitJobEffect(r: Remote, cfg: Config, s: Sys, start: int, end: int, attempts: nat)
    ensures attempts == 0 ==>
      SubmitJob(r, cfg, s, start, end, attempts) == (s.(uuids := s.uuids + 1), Err(UnboundResponse))
    ensures attempts > 0 ==>
      var k := AttemptsUsed(r, s.posts, 0, attempts);
      var reply := r.submit(s.posts + k - 1);
      var p := MakePayload(cfg, r.uuid(s.uuids), start, end);
      && SubmitJob(r, cfg, s, start, end, attempts).0
        == s.(uuids := s.uuids + 1, clock := s.clock + BackoffTotal(0, k),
              posts := s.posts + k, log := s.log + Attempts(p, 0, k))
      && SubmitJob(r, cfg, s, start, end, attempts).1
        == (if reply.code == 200 then Ok(Handle(reply.jobId, r.uuid(s.uuids)))
            else Err(SubmissionFailed(reply.text)))
  {
    if attempts > 0 {
      var p := MakePayload(cfg, r.uuid(s.uuids), start, end);
      SubmitLoopEffect(r, s.(uuids := s.uuids + 1), p, 0, attempts);
    }
  }

  /** The events a submission appends: sleeps, and posts of a payload for the given dates. */
  ghost predicate SubmitEvent(cfg: Config, start: int, end: int, e: Event) {
    e.Slept? || (e.Posted? && e.payload.segments == cfg.segments
                 && e.payload.start == start && e.payload.end == end)
  }

  lemma SubmitJobEvents(r: Remote, cfg: Config, s: Sys, start: int, end: int, attempts: nat)
    ensures var s' := SubmitJob(r, cfg, s, start, end, attempts).0;
      && |s.log| <= |s'.log| && s'.log[..|s.log|] == s.log
      && (forall n :: |s.log| <= n < |s'.log| ==> SubmitEvent(cfg, start, end, s'.log[n]))
      && s'.uuids == s.uuids + 1 && s'.polls == s.polls && s'.fetches == s.fetches
      && s'.lastRun == s.lastRun && s'.clock >= s.clock
  {
    SubmitJobEffect(r, cfg, s, start, end, attempts);
    if attempts > 0 {
      var k := AttemptsUsed(r, s.posts, 0, attempts);
      var p := MakePayload(cfg, r.uuid(s.uuids), start, end);
      var s' := SubmitJob(r, cfg, s, start, end, attempts).0;
      AttemptsLength(p, 0, k);
      forall n | |s.log| <= n < |s'.log|
        ensures SubmitEvent(cfg, start, end, s'.log[n])
      {
        var j := (n - |s.log|) / 2;
        AttemptsAt(p, 0, k, j);
        assert s'.log[n] == Attempts(p, 0, k)[n - |s.log|];
      }
    }
  }

  // ---------------------------------------------------------------------------------------
  // One date of `daily_download`
  // ---------------------------------------------------------------------------------------

  /** What an event appended while processing `date` may be, when the timeout clock was
      started at `start`: posts are for [date, date + 1), every status check happens before
      the deadline, and files and watermarks are for `date`. */
  ghost predicate DateEvent(cfg: Config, date: int, start: int, e: Event) {
    match e
    case Slept(_) => true
    case Posted(p) => p.segments == cfg.segments && p.start == date && p.end == date + 1
    case Polled(_, at, _) => start <= at < start + MaxTime(cfg)
    case Fetched(_) => true
    case Saved(name) => name == DayName(date)
    case WroteWatermark(day) => day == date
  }

  /** `b` extends `a` with events allowed while processing `date`. */
  ghost predicate DateSuffix(cfg: Config, date: int, start: int, a: seq<Event>, b: seq<Event>) {
    |a| <= |b| && b[..|a|] == a
    && forall n :: |a| <= n < |b| ==> DateEvent(cfg, date, start, b[n])
  }

  /** A watermark is only ever written right after a status check that reported SUCCEEDED,
      the results download, and the parquet file saved for that same day. */
  ghost predicate WatermarkJustified(log: seq<Event>) {
    forall n :: 0 <= n < |log| && log[n].WroteWatermark? ==>
      3 <= n && log[n - 1] == Saved(DayName(log[n].day)) && log[n - 2].Fetched?
      && log[n - 3].Polled? && log[n - 3].seen == Ok(Succeeded)
  }

  lemma PollStepEvents(r: Remote, cfg: Config, s: Sys, date: int, h: Handle, failed: nat, start: int)
    requires start <= s.clock < start + MaxTime(cfg)
    ensures DateSuffix(cfg, date, start, s.log, PollStep(r, cfg, s, date, h, failed).s.log)
  {
    var (s1, st) := CheckStatus(r, s, h.jobId);
    assert DateSuffix(cfg, date, start, s.log, s1.log);
    if st.Ok? && (st.value == Killed || st.value == Failed) && failed + 1 <= 1 {
      var (s2, sub) := SubmitJob(r, cfg, s1, date, date + 1, SubmitAttempts);
      SubmitJobEvents(r, cfg, s1, date, date + 1, SubmitAttempts);
      DateSuffixTrans(cfg, date, start, s.log, s1.log, s2.log);
      assert DateSuffix(cfg, date, start, s2.log, Sleep(s2, cfg.sleepTime).log);
      DateSuffixTrans(cfg, date, start, s.log, s2.log, Sleep(s2, cfg.sleepTime).log);
    }
  }

  /** Every event of a date's polling loop belongs to that date, and every status check is
      made before the deadline `start + timeout`. */
  lemma {:induction false} PollEvents(r: Remote, cfg: Config, s: Sys, date: int, h: Handle, failed: nat, start: int)
    requires start <= s.clock
    ensures DateSuffix(cfg, date, start, s.log, Poll(r, cfg, s, date, h, failed, start).0.log)
    decreases start + MaxTime(cfg) - s.clock
  {
    if s.clock - start < MaxTime(cfg) {
      var step := PollStep(r, cfg, s, date, h, failed);
      PollStepEvents(r, cfg, s, date, h, failed, start);
      if step.Again? {
        PollEvents(r, cfg, step.s, date, step.h, step.failed, start);
        DateSuffixTrans(cfg, date, start, s.log, step.s.log,
                        Poll(r, cfg, step.s, date, step.h, step.failed, start).0.log);
      }
    }
  }

  lemma DateSuffixTrans(cfg: Config, date: int, start: int, a: seq<Event>, b: seq<Event>, c: seq<Event>)
    requires DateSuffix(cfg, date, start, a, b) && DateSuffix(cfg, date, start, b, c)
    ensures DateSuffix(cfg, date, start, a, c)
  {
    assert c[..|a|] == c[..|b|][..|a|];
    forall n | |a| <= n < |c|
      ensures DateEvent(cfg, date, start, c[n])
    {
      if n < |b| {
        assert c[n] == c[..|b|][n];
      }
    }
  }

  /** No watermark write among the events `b` adds to `a`. */
  ghost predicate NoWatermark(a: seq<Event>, b: seq<Event>) {
    forall n :: |a| <= n < |b| ==> !b[n].WroteWatermark?
  }

  /** Over one date, the watermark either stays as it was with no write, or the last event is
      the single write of `date`, and the date's outcome is success. */
  ghost predicate WatermarkStep(s: Sys, s': Sys, date: int, o: Outcome<Error>) {
    |s.log| <= |s'.log| && s'.log[..|s.log|] == s.log && WatermarkJustified(s'.log)
    && ((s'.lastRun == s.lastRun && NoWatermark(s.log, s'.log))
        || (o == Pass && s'.lastRun == Some(date) && |s.log| < |s'.log|
            && s'.log[|s'.log| - 1] == WroteWatermark(date)
            && NoWatermark(s.log, s'.log[..|s'.log| - 1])))
  }

  /** No file is saved among the events `b` adds to `a`. */
  ghost predicate NoSave(a: seq<Event>, b: seq<Event>) {
    forall n :: |a| <= n < |b| ==> !b[n].Saved?
  }

  /** The converse of `WatermarkStep`: a date that saved a file succeeded, and its last act was
      to write the watermark for it. */
  ghost predicate SavedStep(s: Sys, s': Sys, date: int, o: Outcome<Error>) {
    NoSave(s.log, s'.log)
    || (o == Pass && s'.lastRun == Some(date) && |s.log| < |s'.log|
        && s'.log[|s'.log| - 1] == WroteWatermark(date))
  }

  /** A file saved among the new events rules out `NoSave`. */
  lemma SavedIn(a: seq<Event>, b: seq<Event>, name: JobName)
    requires |a| <= |b| && Saved(name) in b[|a|..]
    ensures !NoSave(a, b)
  {
    var i :| 0 <= i < |b[|a|..]| && b[|a|..][i] == Saved(name);
    assert b[|a| + i] == Saved(name);
  }

  lemma SavedStepTrans(s: Sys, s1: Sys, s2: Sys, date: int, o: Outcome<Error>)
    requires Extends(s.log, s1.log) && Extends(s1.log, s2.log)
    requires NoSave(s.log, s1.log) && SavedStep(s1, s2, date, o)
    ensures SavedStep(s, s2, date, o)
  {
    if NoSave(s1.log, s2.log) {
      forall n | |s.log| <= n < |s2.log| ensures !s2.log[n].Saved? {
        if n < |s1.log| { assert s2.log[n] == s2.log[..|s1.log|][n]; }
      }
    }
  }

  /** Sleeping saves nothing. */
  lemma SleepNoSave(s: Sys, s1: Sys, seconds: nat)
    requires Extends(s.log, s1.log) && NoSave(s.log, s1.log)
    ensures Extends(s.log, Sleep(s1, seconds).log) && NoSave(s.log, Sleep(s1, seconds).log)
  {
    var s2 := Sleep(s1, seconds);
    assert s2.log[..|s.log|] == s2.log[..|s1.log|][..|s.log|];
    forall n | |s.log| <= n < |s2.log| ensures !s2.log[n].Saved? {
      if n < |s1.log| { assert s2.log[n] == s1.log[n]; }
    }
  }

  lemma JustifiedExtend(a: seq<Event>, b: seq<Event>)
    requires WatermarkJustified(a) && |a| <= |b| && b[..|a|] == a && NoWatermark(a, b)
    ensures WatermarkJustified(b)
  {
    forall n | 0 <= n < |b| && b[n].WroteWatermark?
      ensures 3 <= n && b[n - 1] == Saved(DayName(b[n].day)) && b[n - 2].Fetched?
        && b[n - 3].Polled? && b[n - 3].seen == Ok(Succeeded)
    {
      assert n < |a| && b[n] == a[n];
      assert b[n - 1] == a[n - 1] && b[n - 2] == a[n - 2] && b[n - 3] == a[n - 3];
    }
  }

  lemma WatermarkStepTrans(s: Sys, s1: Sys, s2: Sys, date: int, o: Outcome<Error>)
    requires WatermarkStep(s, s1, date, Fail(StateNotIndexable)) && s1.lastRun == s.lastRun
    requires NoWatermark(s.log, s1.log)
    requires WatermarkStep(s1, s2, date, o)
    ensures WatermarkStep(s, s2, date, o)
  {
    assert s2.log[..|s.log|] == s2.log[..|s1.log|][..|s.log|];
    if NoWatermark(s1.log, s2.log) {
      forall n | |s.log| <= n < |s2.log| ensures !s2.log[n].WroteWatermark? {
        if n < |s1.log| { assert s2.log[n] == s2.log[..|s1.log|][n]; }
      }
    } else {
      var m := |s2.log| - 1;
      forall n | |s.log| <= n < m ensures !s2.log[..m][n].WroteWatermark? {
        if n < |s1.log| { assert s2.log[..m][n] == s2.log[..|s1.log|][n]; }
        else { assert s2.log[..m][n] == s2.log[..|s2.log| - 1][n]; }
      }
    }
  }

  /** A watermark-free extension keeps the watermark and its justification. */
  lemma QuietStep(s: Sys, s': Sys, date: int, o: Outcome<Error>)
    requires WatermarkJustified(s.log) && |s.log| <= |s'.log| && s'.log[..|s.log|] == s.log
    requires NoWatermark(s.log, s'.log) && s'.lastRun == s.lastRun
    ensures WatermarkStep(s, s', date, o)
  {
    JustifiedExtend(s.log, s'.log);
  }

  lemma SucceededStep(r: Remote, s: Sys, date: int, h: Handle)
    requires WatermarkJustified(s.log)
    ensures var (s1, st) := CheckStatus(r, s, h.jobId);
      var (s2, ok) := Download(r, s1, h.uuid, DayName(date));
      st == Ok(Succeeded) ==> WatermarkStep(s, if ok then WriteWatermark(s2, date) else s2, date, Pass)
  {
    var (s1, st) := CheckStatus(r, s, h.jobId);
    var (s2, ok) := Download(r, s1, h.uuid, DayName(date));
    if st == Ok(Succeeded) {
      var added := [Polled(h.jobId, s.clock, Ok(Succeeded)), Fetched(h.uuid)]
                   + (if ok then [Saved(DayName(date))] else []);
      assert s2.log == s.log + added;
      assert Extends(s.log, s2.log);
      assert NoWatermark(s.log, s2.log) by {
        forall n | |s.log| <= n < |s2.log| ensures !s2.log[n].WroteWatermark? {
          assert s2.log[n] == added[n - |s.log|];
        }
      }
      QuietStep(s, s2, date, Pass);
      if ok {
        var s3 := WriteWatermark(s2, date);
        assert s3.log[..|s3.log| - 1] == s2.log;
        forall n | 0 <= n < |s3.log| && s3.log[n].WroteWatermark?
          ensures 3 <= n && s3.log[n - 1] == Saved(DayName(s3.log[n].day)) && s3.log[n - 2].Fetched?
            && s3.log[n - 3].Polled? && s3.log[n - 3].seen == Ok(Succeeded)
        {
          if n < |s2.log| { assert s3.log[n] == s2.log[n]; }
        }
      }
    }
  }

  /** After SUCCEEDED, a saved file is always followed by the watermark write. */
  lemma SucceededSaved(r: Remote, s: Sys, date: int, h: Handle)
    ensures var (s1, st) := CheckStatus(r, s, h.jobId);
      var (s2, ok) := Download(r, s1, h.uuid, DayName(date));
      st == Ok(Succeeded) ==> SavedStep(s, if ok then WriteWatermark(s2, date) else s2, date, Pass)
  {
    var (s1, st) := CheckStatus(r, s, h.jobId);
    var (s2, ok) := Download(r, s1, h.uuid, DayName(date));
    if st == Ok(Succeeded) && !ok {
      var added := [Polled(h.jobId, s.clock, Ok(Succeeded)), Fetched(h.uuid)];
      assert s2.log == s.log + added;
      forall n | |s.log| <= n < |s2.log| ensures !s2.log[n].Saved? {
        assert s2.log[n] == added[n - |s.log|];
      }
    }
  }

  lemma ResubmitStep(r: Remote, cfg: Config, s: Sys, date: int, h: Handle)
    requires WatermarkJustified(s.log)
    ensures var (s1, _) := CheckStatus(r, s, h.jobId);
      var (s2, _) := SubmitJob(r, cfg, s1, date, date + 1, SubmitAttempts);
      && WatermarkStep(s, s2, date, Fail(StateNotIndexable)) && s2.lastRun == s.lastRun
      && NoWatermark(s.log, s2.log)
      && WatermarkStep(s, Sleep(s2, cfg.sleepTime), date, Fail(StateNotIndexable))
      && NoWatermark(s.log, Sleep(s2, cfg.sleepTime).log)
      && NoSave(s.log, Sleep(s2, cfg.sleepTime).log)
  {
    var (s1, _) := CheckStatus(r, s, h.jobId);
    var (s2, _) := SubmitJob(r, cfg, s1, date, date + 1, SubmitAttempts);
    SubmitJobEvents(r, cfg, s1, date, date + 1, SubmitAttempts);
    assert s2.log[..|s.log|] == s.log by {
      assert s2.log[..|s.log|] == s2.log[..|s1.log|][..|s.log|];
    }
    forall n | |s.log| <= n < |s2.log| ensures !s2.log[n].WroteWatermark? && !s2.log[n].Saved? {
      if n >= |s1.log| { assert SubmitEvent(cfg, date, date + 1, s2.log[n]); }
      else { assert s2.log[n] == s2.log[..|s1.log|][n]; }
    }
    QuietStep(s, s2, date, Fail(StateNotIndexable));
    SleepNoSave(s, s2, cfg.sleepTime);
    var s3 := Sleep(s2, cfg.sleepTime);
    assert s3.log[..|s.log|] == s.log by {
      assert s3.log[..|s.log|] == s3.log[..|s2.log|][..|s.log|];
    }
    assert NoWatermark(s.log, s3.log) by {
      forall n | |s.log| <= n < |s3.log| ensures !s3.log[n].WroteWatermark? {
        if n < |s2.log| { assert s3.log[n] == s2.log[n]; }
      }
    }
    QuietStep(s, s3, date, Fail(StateNotIndexable));
  }

  lemma PollStepWatermark(r: Remote, cfg: Config, s: Sys, date: int, h: Handle, failed: nat)
    requires WatermarkJustified(s.log)
    ensures var step := PollStep(r, cfg, s, date, h, failed);
      && WatermarkStep(s, step.s, date, if step.Done? then step.outcome else Fail(StateNotIndexable))
      && (step.Again? ==> step.s.lastRun == s.lastRun && NoWatermark(s.log, step.s.log))
  {
    var step := PollStep(r, cfg, s, date, h, failed);
    var (s1, st) := CheckStatus(r, s, h.jobId);
    if st == Ok(Succeeded) {
      SucceededStep(r, s, date, h);
    } else if st.Ok? && (st.value == Killed || st.value == Failed) && failed + 1 <= 1 {
      ResubmitStep(r, cfg, s, date, h);
    } else {
      var s2 := if st.Ok? && st.value == RateLimited then Sleep(Sleep(s1, RateLimitNap), cfg.sleepTime)
                else if st.Ok? && st.value != Killed && st.value != Failed then Sleep(s1, cfg.sleepTime)
                else s1;
      assert step.s == s2;
      QuietStep(s, s2, date, if step.Done? then step.outcome else Fail(StateNotIndexable));
    }
  }

  /** One pass saves a file only when it ends the loop in success with the watermark write. */
  lemma PollStepSaved(r: Remote, cfg: Config, s: Sys, date: int, h: Handle, failed: nat)
    requires WatermarkJustified(s.log)
    ensures var step := PollStep(r, cfg, s, date, h, failed);
      && SavedStep(s, step.s, date, if step.Done? then step.outcome else Fail(StateNotIndexable))
      && (step.Again? ==> NoSave(s.log, step.s.log))
  {
    var step := PollStep(r, cfg, s, date, h, failed);
    var (s1, st) := CheckStatus(r, s, h.jobId);
    assert Extends(s.log, s1.log) && NoSave(s.log, s1.log) by {
      forall n | |s.log| <= n < |s1.log| ensures !s1.log[n].Saved? {
        assert s1.log[n] == Polled(h.jobId, s.clock, st);
      }
    }
    if st == Ok(Succeeded) {
      SucceededSaved(r, s, date, h);
    } else if st.Ok? && (st.value == Killed || st.value == Failed) && failed + 1 <= 1 {
      ResubmitStep(r, cfg, s, date, h);
    } else if st.Ok? && st.value == RateLimited {
      SleepNoSave(s, s1, RateLimitNap);
      SleepNoSave(s, Sleep(s1, RateLimitNap), cfg.sleepTime);
    } else if st.Ok? && st.value != Killed && st.value != Failed {
      SleepNoSave(s, s1, cfg.sleepTime);
    }
  }

  /** Over a date's polling loop the watermark is written at most once, as the very last act,
      only on success, and only right after the status said SUCCEEDED and the file was saved;
      conversely, once the file is saved the loop ends in success with that write. */
  lemma {:induction false} PollWatermark(r: Remote, cfg: Config, s: Sys, date: int, h: Handle, failed: nat, start: int)
    requires WatermarkJustified(s.log)
    ensures var (s', o) := Poll(r, cfg, s, date, h, failed, start);
      WatermarkStep(s, s', date, o) && SavedStep(s, s', date, o)
    decreases start + MaxTime(cfg) - s.clock
  {
    if s.clock - start < MaxTime(cfg) {
      var step := PollStep(r, cfg, s, date, h, failed);
      PollStepWatermark(r, cfg, s, date, h, failed);
      PollStepSaved(r, cfg, s, date, h, failed);
      if step.Again? {
        PollWatermark(r, cfg, step.s, date, step.h, step.failed, start);
        var (s', o) := Poll(r, cfg, step.s, date, step.h, step.failed, start);
        WatermarkStepTrans(s, step.s, s', date, o);
        SavedStepTrans(s, step.s, s', date, o);
      }
    } else {
      assert Poll(r, cfg, s, date, h, failed, start).0 == s;
    }
  }

  /** A rate-limited status check consumes no part of the resubmission budget: the loop goes
      round with the same job and failure count after napping 300 s and then `sleep_time`. */
  lemma RateLimitedStep(r: Remote, cfg: Config, s: Sys, date: int, h: Handle, failed: nat)
    requires r.status(s.polls).code == 429
    ensures var s1 := CheckStatus(r, s, h.jobId).0;
      PollStep(r, cfg, s, date, h, failed)
        == Again(Sleep(Sleep(s1, RateLimitNap), cfg.sleepTime), h, failed)
    ensures var s' := PollStep(r, cfg, s, date, h, failed).s;
      s'.log[|s.log| + 1..] == [Slept(300), Slept(cfg.sleepTime)]
      && s'.clock == s.clock + r.status(s.polls).latency + 300 + cfg.sleepTime
  {
  }

  /** The first FAILED or KILLED state resubmits the same date once; a submission error
      raises, otherwise polling resumes on the new job with one failure counted. */
  lemma FirstFailureResubmits(r: Remote, cfg: Config, s: Sys, date: int, h: Handle)
    requires StatusOf(r.status(s.polls)) in {Ok(Failed), Ok(Killed)}
    ensures var s1 := CheckStatus(r, s, h.jobId).0;
      var (s2, sub) := SubmitJob(r, cfg, s1, date, date + 1, SubmitAttempts);
      PollStep(r, cfg, s, date, h, 0)
        == if sub.Ok? then Again(Sleep(s2, cfg.sleepTime), sub.value, 1) else Done(s2, Fail(sub.error))
  {
  }

  /** A second FAILED or KILLED state for the same date raises (a TypeError, as written). */
  lemma SecondFailureRaises(r: Remote, cfg: Config, s: Sys, date: int, h: Handle, failed: nat)
    requires failed >= 1
    requires StatusOf(r.status(s.polls)) in {Ok(Failed), Ok(Killed)}
    ensures PollStep(r, cfg, s, date, h, failed) == Done(CheckStatus(r, s, h.jobId).0, Fail(StateNotIndexable))
  {
  }

  /** At most one resubmission per date: with `failed` terminal failures seen so far, the loop
      draws at most `1 - failed` further job uuids. */
  lemma {:induction false} PollResubmitsOnce(r: Remote, cfg: Config, s: Sys, date: int, h: Handle, failed: nat, start: int)
    requires failed <= 1
    ensures Poll(r, cfg, s, date, h, failed, start).0.uuids <= s.uuids + 1 - failed
    decreases start + MaxTime(cfg) - s.clock
  {
    if s.clock - start < MaxTime(cfg) {
      var step := PollStep(r, cfg, s, date, h, failed);
      if step.Again? {
        assert step.failed <= 1 && step.s.uuids + failed == s.uuids + step.failed;
        PollResubmitsOnce(r, cfg, step.s, date, step.h, step.failed, start);
      }
    }
  }

  /** From status request `from` on, every status check answers without error and with a
      state other than SUCCEEDED, FAILED and KILLED. */
  ghost predicate StillRunning(r: Remote, from: nat) {
    forall n :: n >= from ==>
      (StatusOf(r.status(n)).Ok? && StatusOf(r.status(n)).value !in {Succeeded, Failed, Killed})
  }

  /** The loop raises a timeout only once the clock has run out, and a job whose status
      checks keep answering with a state that is neither SUCCEEDED, FAILED nor KILLED (nor an
      error) always ends in a timeout, with no resubmission. */
  lemma {:induction false} PollTimesOut(r: Remote, cfg: Config, s: Sys, date: int, h: Handle, failed: nat, start: int)
    ensures var (s', o) := Poll(r, cfg, s, date, h, failed, start);
      o.Fail? && o.error.TimedOut? ==> s'.clock - start >= MaxTime(cfg)
    ensures StillRunning(r, s.polls) ==>
      var (s', o) := Poll(r, cfg, s, date, h, failed, start);
      o == Fail(TimedOut(h.jobId, cfg.timeoutMinutes)) && s'.uuids == s.uuids
    decreases start + MaxTime(cfg) - s.clock
  {
    if s.clock - start < MaxTime(cfg) {
      var step := PollStep(r, cfg, s, date, h, failed);
      if step.Again? {
        PollTimesOut(r, cfg, step.s, date, step.h, step.failed, start);
        var st := StatusOf(r.status(s.polls));
        if st.Ok? && st.value !in {Succeeded, Failed, Killed} {
          assert step.h == h && step.s.polls == s.polls + 1 && step.s.uuids == s.uuids;
        }
      }
    }
  }

  /** `b` starts with `a`. */
  ghost predicate Extends(a: seq<Event>, b: seq<Event>) {
    |a| <= |b| && b[..|a|] == a
  }

  /** All of a date's effects belong to that date, and the timeout clock starts once, right
      after the first submission: a resubmission does not restart it. */
  lemma RunDateEvents(r: Remote, cfg: Config, s: Sys, date: int)
    ensures var s1 := SubmitJob(r, cfg, s, date, date + 1, SubmitAttempts).0;
      DateSuffix(cfg, date, s1.clock, s.log, RunDate(r, cfg, s, date).0.log)
  {
    var (s1, sub) := SubmitJob(r, cfg, s, date, date + 1, SubmitAttempts);
    SubmitJobEvents(r, cfg, s, date, date + 1, SubmitAttempts);
    assert DateSuffix(cfg, date, s1.clock, s.log, s1.log) by {
      forall n | |s.log| <= n < |s1.log| ensures DateEvent(cfg, date, s1.clock, s1.log[n]) {
        assert SubmitEvent(cfg, date, date + 1, s1.log[n]);
      }
    }
    if sub.Ok? && sub.value.jobId != "" {
      PollEvents(r, cfg, s1, date, sub.value, 0, s1.clock);
      DateSuffixTrans(cfg, date, s1.clock, s.log, s1.log, RunDate(r, cfg, s, date).0.log);
    }
  }

  /** Per date, the watermark moves only to that date, only on success, and only after the
      file for it was saved; and a date whose file was saved succeeded and moved it there. */
  lemma RunDateWatermark(r: Remote, cfg: Config, s: Sys, date: int)
    requires WatermarkJustified(s.log)
    ensures var (s', o) := RunDate(r, cfg, s, date); WatermarkStep(s, s', date, o) && SavedStep(s, s', date, o)
  {
    var (s1, sub) := SubmitJob(r, cfg, s, date, date + 1, SubmitAttempts);
    SubmitJobEvents(r, cfg, s, date, date + 1, SubmitAttempts);
    assert NoWatermark(s.log, s1.log) && NoSave(s.log, s1.log) by {
      forall n | |s.log| <= n < |s1.log| ensures !s1.log[n].WroteWatermark? && !s1.log[n].Saved? {
        assert SubmitEvent(cfg, date, date + 1, s1.log[n]);
      }
    }
    QuietStep(s, s1, date, Fail(StateNotIndexable));
    if sub.Ok? && sub.value.jobId != "" {
      PollWatermark(r, cfg, s1, date, sub.value, 0, s1.clock);
      var (s', o) := Poll(r, cfg, s1, date, sub.value, 0, s1.clock);
      WatermarkStepTrans(s, s1, s', date, o);
      SavedStepTrans(s, s1, s', date, o);
    } else {
      QuietStep(s, s1, date, RunDate(r, cfg, s, date).1);
    }
  }

  /** At most two job submissions per date: the first and one resubmission. */
  lemma RunDateSubmitsAtMostTwice(r: Remote, cfg: Config, s: Sys, date: int)
    ensures RunDate(r, cfg, s, date).0.uuids <= s.uuids + 2
  {
    var (s1, sub) := SubmitJob(r, cfg, s, date, date + 1, SubmitAttempts);
    if sub.Ok? && sub.value.jobId != "" {
      PollResubmitsOnce(r, cfg, s1, date, sub.value, 0, s1.clock);
    }
  }

  /** Over the date loop the log only grows, every watermark write stays justified, and the
      watermark ends where it was or at one of the dates processed. */
  lemma {:induction false} RunDatesWatermark(r: Remote, cfg: Config, s: Sys, dates: seq<int>)
    requires WatermarkJustified(s.log)
    ensures var (s', o) := RunDates(r, cfg, s, dates);
      && Extends(s.log, s'.log) && WatermarkJustified(s'.log)
      && (s'.lastRun == s.lastRun || (s'.lastRun.Some? && s'.lastRun.value in dates))
    decreases |dates|
  {
    if dates != [] {
      var (s1, o) := RunDate(r, cfg, s, dates[0]);
      RunDateWatermark(r, cfg, s, dates[0]);
      if o.Pass? {
        RunDatesWatermark(r, cfg, s1, dates[1..]);
        var s' := RunDates(r, cfg, s1, dates[1..]).0;
        assert s'.log[..|s.log|] == s'.log[..|s1.log|][..|s.log|];
        if s'.lastRun.Some? && s'.lastRun.value in dates[1..] {
          assert s'.lastRun.value in dates;
        }
      }
    }
  }

  /** Over strictly ascending dates, once the last date's file is saved the loop has run every
      date without raising and the watermark is on that last date. */
  lemma {:induction false} RunDatesSaved(r: Remote, cfg: Config, s: Sys, dates: seq<int>)
    requires WatermarkJustified(s.log) && dates != []
    requires forall i, j :: 0 <= i < j < |dates| ==> dates[i] < dates[j]
    ensures var (s', o) := RunDates(r, cfg, s, dates);
      |s.log| <= |s'.log|
      && (Saved(DayName(dates[|dates| - 1])) in s'.log[|s.log|..] ==>
            o == Pass && s'.lastRun == Some(dates[|dates| - 1]))
    decreases |dates|
  {
    RunDatesExtends(r, cfg, s, dates);
    var last := dates[|dates| - 1];
    var (s1, o1) := RunDate(r, cfg, s, dates[0]);
    if |dates| == 1 {
      assert RunDates(r, cfg, s, dates) == (s1, o1) by { RunOneDate(r, cfg, s, dates[0]); }
      assert SavedStep(s, s1, last, o1) by { RunDateWatermark(r, cfg, s, dates[0]); }
      if Saved(DayName(last)) in s1.log[|s.log|..] {
        SavedIn(s.log, s1.log, DayName(last));
      }
    } else {
      assert Extends(s.log, s1.log) && Saved(DayName(last)) !in s1.log[|s.log|..] by {
        SavesOnlyItsDay(r, cfg, s, dates[0], last);
      }
      if o1.Pass? {
        var rest := dates[1..];
        assert RunDates(r, cfg, s, dates) == RunDates(r, cfg, s1, rest) by { RunDatesStep(r, cfg, s, dates); }
        assert WatermarkJustified(s1.log) by { RunDateWatermark(r, cfg, s, dates[0]); }
        assert rest[|rest| - 1] == last;
        RunDatesSaved(r, cfg, s1, rest);
        var s' := RunDates(r, cfg, s1, rest).0;
        assert Extends(s1.log, s'.log) by { RunDatesExtends(r, cfg, s1, rest); }
        if Saved(DayName(last)) !in s'.log[|s1.log|..] {
          NotSavedAcross(s.log, s1.log, s'.log, DayName(last));
        }
      }
    }
  }

  /** `daily_download` raises without doing anything when the watermark file cannot be read;
      otherwise the watermark never moves backwards nor past yesterday, and once yesterday's
      file is saved the run has completed with the watermark on yesterday. */
  lemma DailyWatermark(r: Remote, cfg: Config, s: Sys, today: int)
    requires WatermarkJustified(s.log)
    ensures var (s', o) := Daily(r, cfg, s, today);
      && Extends(s.log, s'.log) && WatermarkJustified(s'.log)
      && (s.lastRun.None? ==> s' == s && o == Fail(DatesUnavailable))
      && (s.lastRun.Some? ==>
            s'.lastRun.Some? && s.lastRun.value <= s'.lastRun.value
            && (s'.lastRun == s.lastRun || s'.lastRun.value <= today - 1))
      && (|s.log| <= |s'.log| && Saved(DayName(today - 1)) in s'.log[|s.log|..] ==>
            o == Pass && s'.lastRun == Some(today - 1))
  {
    if s.lastRun.Some? {
      var dates := PendingDates(s.lastRun.value, today - 1);
      RunDatesWatermark(r, cfg, s, dates);
      if dates != [] {
        RunDatesSaved(r, cfg, s, dates);
      }
    }
  }

  /** The first job of a daily run is for the stored date itself, so the last processed day is
      downloaded again. */
  lemma DailyRefetchesStoredDay(r: Remote, cfg: Config, s: Sys, today: int)
    requires s.lastRun.Some? && s.lastRun.value < today
    ensures var s' := Daily(r, cfg, s, today).0;
      var w := s.lastRun.value;
      |s'.log| > |s.log| + 1 && s'.log[|s.log| + 1] == Posted(MakePayload(cfg, r.uuid(s.uuids), w, w + 1))
  {
    var w := s.lastRun.value;
    var dates := PendingDates(w, today - 1);
    assert dates[0] == w;
    var s1 := SubmitJob(r, cfg, s, w, w + 1, SubmitAttempts).0;
    var p := MakePayload(cfg, r.uuid(s.uuids), w, w + 1);
    SubmitJobEffect(r, cfg, s, w, w + 1, SubmitAttempts);
    var k := AttemptsUsed(r, s.posts, 0, SubmitAttempts);
    AttemptsAt(p, 0, k, 0);
    assert s1.log[|s.log| + 1] == Posted(p);
    var (s2, o) := RunDate(r, cfg, s, w);
    RunDateExtends(r, cfg, s, w);
    assert s2.log[|s.log| + 1] == s2.log[..|s1.log|][|s.log| + 1];
    var s3 := RunDates(r, cfg, s, dates).0;
    if o.Pass? {
      RunDatesExtends(r, cfg, s2, dates[1..]);
      assert s3.log[|s.log| + 1] == s3.log[..|s2.log|][|s.log| + 1];
    }
  }

  lemma RunDateExtends(r: Remote, cfg: Config, s: Sys, date: int)
    ensures Extends(SubmitJob(r, cfg, s, date, date + 1, SubmitAttempts).0.log, RunDate(r, cfg, s, date).0.log)
  {
    var (s1, sub) := SubmitJob(r, cfg, s, date, date + 1, SubmitAttempts);
    if sub.Ok? && sub.value.jobId != "" {
      PollEvents(r, cfg, s1, date, sub.value, 0, s1.clock);
    }
  }

  lemma {:induction false} RunDatesExtends(r: Remote, cfg: Config, s: Sys, dates: seq<int>)
    ensures Extends(s.log, RunDates(r, cfg, s, dates).0.log)
    decreases |dates|
  {
    if dates != [] {
      var (s1, o) := RunDate(r, cfg, s, dates[0]);
      RunDateEvents(r, cfg, s, dates[0]);
      if o.Pass? {
        RunDatesExtends(r, cfg, s1, dates[1..]);
        var s' := RunDates(r, cfg, s1, dates[1..]).0;
        assert s'.log[..|s.log|] == s'.log[..|s1.log|][..|s.log|];
      }
    }
  }

  /** A date whose job is accepted at once and reports SUCCEEDED at the first check: the date
      counts as done whether or not the download worked, and the watermark moves to it only
      when the parquet file was saved. */
  lemma QuickDate(r: Remote, cfg: Config, s: Sys, date: int)
    requires r.submit(s.posts).code == 200 && r.submit(s.posts).jobId != ""
    requires MaxTime(cfg) > 0 && StatusOf(r.status(s.polls)) == Ok(Succeeded)
    ensures var (s', o) := RunDate(r, cfg, s, date);
      && o == Pass
      && s'.lastRun == (if r.download(s.fetches) then Some(date) else s.lastRun)
      && s'.posts == s.posts + 1 && s'.polls == s.polls + 1 && s'.fetches == s.fetches + 1
      && (Saved(DayName(date)) in s'.log[|s.log|..] <==> r.download(s.fetches))
  {
    var p := MakePayload(cfg, r.uuid(s.uuids), date, date + 1);
    SubmitJobEffect(r, cfg, s, date, date + 1, SubmitAttempts);
    assert AttemptsUsed(r, s.posts, 0, SubmitAttempts) == 1;
    assert Attempts(p, 1, 1) == [];
    var (s1, sub) := SubmitJob(r, cfg, s, date, date + 1, SubmitAttempts);
    assert s1.log == s.log + [Slept(0), Posted(p)];
    var h := sub.value;
    var ok := r.download(s.fetches);
    var s' := RunDate(r, cfg, s, date).0;
    var tail := [Slept(0), Posted(p), Polled(h.jobId, s1.clock, Ok(Succeeded)), Fetched(h.uuid)]
                + (if ok then [Saved(DayName(date)), WroteWatermark(date)] else []);
    assert s'.log == s.log + tail;
    assert s'.log[|s.log|..] == tail;
  }

  /** A failed download does not stop the batch: the next date is processed, and when it
      succeeds the watermark moves past the date that was skipped, for which no file exists. */
  lemma WatermarkPassesSkippedDate(r: Remote, cfg: Config, s: Sys, date: int)
    requires MaxTime(cfg) > 0
    requires r.submit(s.posts).code == 200 && r.submit(s.posts).jobId != ""
    requires r.submit(s.posts + 1).code == 200 && r.submit(s.posts + 1).jobId != ""
    requires StatusOf(r.status(s.polls)) == Ok(Succeeded) && StatusOf(r.status(s.polls + 1)) == Ok(Succeeded)
    requires !r.download(s.fetches) && r.download(s.fetches + 1)
    ensures var (s', o) := RunDates(r, cfg, s, [date, date + 1]);
      && o == Pass && s'.lastRun == Some(date + 1) && |s.log| <= |s'.log|
      && Saved(DayName(date)) !in s'.log[|s.log|..]
  {
    var s1 := RunDate(r, cfg, s, date).0;
    QuickDate(r, cfg, s, date);
    QuickDate(r, cfg, s1, date + 1);
    RunTwoDates(r, cfg, s, date, date + 1);
    var s2 := RunDate(r, cfg, s1, date + 1).0;
    SavesOnlyItsDay(r, cfg, s1, date + 1, date);
    SavesOnlyItsDay(r, cfg, s, date, date + 1);
    NotSavedAcross(s.log, s1.log, s2.log, DayName(date));
  }

  /** A file saved in neither of two consecutive extensions is not saved in their union. */
  lemma NotSavedAcross(a: seq<Event>, b: seq<Event>, c: seq<Event>, name: JobName)
    requires Extends(a, b) && Extends(b, c)
    requires Saved(name) !in b[|a|..] && Saved(name) !in c[|b|..]
    ensures Saved(name) !in c[|a|..]
  {
    assert c[|a|..] == b[|a|..] + c[|b|..] by {
      assert c[..|b|] == b;
    }
  }

  /** Two dates whose first completes run one after the other. */
  lemma RunTwoDates(r: Remote, cfg: Config, s: Sys, d1: int, d2: int)
    requires RunDate(r, cfg, s, d1).1.Pass?
    ensures RunDates(r, cfg, s, [d1, d2]) == RunDate(r, cfg, RunDate(r, cfg, s, d1).0, d2)
  {
    assert [d1, d2][1..] == [d2];
    RunDatesStep(r, cfg, s, [d1, d2]);
    RunOneDate(r, cfg, RunDate(r, cfg, s, d1).0, d2);
  }

  lemma RunDatesStep(r: Remote, cfg: Config, s: Sys, dates: seq<int>)
    requires dates != [] && RunDate(r, cfg, s, dates[0]).1.Pass?
    ensures RunDates(r, cfg, s, dates) == RunDates(r, cfg, RunDate(r, cfg, s, dates[0]).0, dates[1..])
  {
  }

  lemma RunOneDate(r: Remote, cfg: Config, s: Sys, d: int)
    ensures RunDates(r, cfg, s, [d]) == RunDate(r, cfg, s, d)
  {
    assert [d][1..] == [];
  }

  /** Processing `date` extends the log and saves no file for any other day. */
  lemma SavesOnlyItsDay(r: Remote, cfg: Config, s: Sys, date: int, other: int)
    requires other != date
    ensures var s' := RunDate(r, cfg, s, date).0;
      Extends(s.log, s'.log) && Saved(DayName(other)) !in s'.log[|s.log|..]
  {
    var s' := RunDate(r, cfg, s, date).0;
    var start := SubmitJob(r, cfg, s, date, date + 1, SubmitAttempts).0.clock;
    RunDateEvents(r, cfg, s, date);
    forall n | |s.log| <= n < |s'.log| ensures s'.log[n] != Saved(DayName(other)) {
      assert DateEvent(cfg, date, start, s'.log[n]);
    }
  }

  /** `single_download` never saves a file and never touches the watermark: it returns
      normally only when the job id is empty, and once a status check succeeds it raises. */
  lemma SingleDownloadNeverSaves(r: Remote, cfg: Config, s: Sys, start: int, end: int)
    ensures var (s', o) := SingleDownload(r, cfg, s, start, end);
      && s'.lastRun == s.lastRun && s'.fetches == s.fetches && Extends(s.log, s'.log)
      && (forall n :: |s.log| <= n < |s'.log| ==> !s'.log[n].Saved? && !s'.log[n].WroteWatermark?)
      && (o.Pass? ==> s'.polls == s.polls)
      && (s'.polls > s.polls ==> o == (if StatusOf(r.status(s.polls)).Ok? then Fail(StateNotIndexable)
                                      else Fail(StatusOf(r.status(s.polls)).error)))
  {
    var (s1, sub) := SubmitJob(r, cfg, s, start, end, SubmitAttempts);
    SubmitJobEvents(r, cfg, s, start, end, SubmitAttempts);
    forall n | |s.log| <= n < |s1.log| ensures !s1.log[n].Saved? && !s1.log[n].WroteWatermark? {
      assert SubmitEvent(cfg, start, end, s1.log[n]);
    }
    if sub.Ok? && sub.value.jobId != "" {
      var s2 := CheckStatus(r, s1, sub.value.jobId).0;
      assert s2.log[..|s1.log|] == s1.log;
      assert s2.log[..|s.log|] == s1.log[..|s.log|];
    }
  }
}
