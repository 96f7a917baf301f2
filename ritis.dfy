/** `RITIS_Downloader` (RITIS_API.py): the object whose methods submit export jobs, poll them
    and move the watermark. Its fields are what the source changes: the clock (advanced by
    `time.sleep` and by status requests), the watermark file, the position reached in each
    stream of remote answers, and the log of observable effects. Every method is proved to
    do exactly what a function of RitisJobs describes: `CheckJobStatus` is `CheckStatus`,
    `DownloadAndProcessJobResults` is `Download`, `WriteLastRun` is `WriteWatermark`,
    `GetDates` is `PendingDates`, `DownloadDate` is `RunDate`, `DailyDownload` is `Daily`,
    and `SubmitJob` and `SingleDownload` are the functions of the same name. */
module Ritis {
  import opened Wrappers
  import opened RitisJobs

  class RitisDownloader {
    const remote: Remote
    const cfg: Config

    var clock: int
    var lastRun: Option<int>
    var posts: nat
    var polls: nat
    var fetches: nat
    var uuids: nat
    var log: seq<Event>

    ghost function State(): Sys
      reads this
    {
      Sys(clock, lastRun, posts, polls, fetches, uuids, log)
    }

    /** `__init__`: settings, and the segment ids read from the content of the segments file. */
    constructor (remote: Remote, segmentsFile: string, startTime: string, endTime: string,
                 binSize: int, units: string, columns: seq<string>, thresholds: seq<int>,
                 sleepTime: nat, timeoutMinutes: int, lastRun: Option<int>, clock: int)
      ensures this.remote == remote
      ensures cfg == Config(ParseSegments(segmentsFile), startTime, endTime, binSize, units,
                            columns, thresholds, sleepTime, timeoutMinutes)
      ensures State() == Sys(clock, lastRun, 0, 0, 0, 0, [])
    {
      this.remote := remote;
      this.cfg := Config(ParseSegments(segmentsFile), startTime, endTime, binSize, units,
                         columns, thresholds, sleepTime, timeoutMinutes);
      this.clock := clock;
      this.lastRun := lastRun;
      posts, polls, fetches, uuids, log := 0, 0, 0, 0, [];
    }

    /** `time.sleep(seconds)`. */
    method Sleep(seconds: nat)
      modifies this
      ensures State() == RitisJobs.Sleep(old(State()), seconds)
    {
      clock := clock + seconds;
      log := log + [Slept(seconds)];
    }

    /** One POST to the submit endpoint. */
    method Post(data: Payload) returns (reply: SubmitReply)
      modifies this
      ensures reply == remote.submit(old(posts))
      ensures State() == old(State()).(posts := old(posts) + 1, log := old(log) + [Posted(data)])
    {
      reply := remote.submit(posts);
      posts := posts + 1;
      log := log + [Posted(data)];
    }

    /** `_submit_job`: post the same payload up to `attempts` times, sleeping `10 * i^2`
        seconds before attempt `i`, until a 200. */
    method SubmitJob(startDate: int, endDate: int, attempts: nat) returns (res: Result<Handle, Error>)
      modifies this
      ensures (State(), res) == RitisJobs.SubmitJob(remote, cfg, old(State()), startDate, endDate, attempts)
    {
      var jobUuid := remote.uuid(uuids);
      uuids := uuids + 1;
      var data := MakePayload(cfg, jobUuid, startDate, endDate);
      ghost var s0 := State();
      var response: Option<SubmitReply> := None;
      for i := 0 to attempts
        invariant i < attempts || attempts == 0
        invariant attempts == 0 ==> response.None? && State() == s0
        invariant i < attempts ==>
          SubmitLoop(remote, State(), data, i, attempts) == SubmitLoop(remote, s0, data, 0, attempts)
      {
        Sleep(Backoff(i));
        var reply := Post(data);
        response := Some(reply);
        if reply.code == 200 || i == attempts - 1 {
          assert (State(), reply) == SubmitLoop(remote, s0, data, 0, attempts);
          break;
        }
      }
      if response.None? {
        // `response` was never assigned: reading it raises UnboundLocalError
        return Err(UnboundResponse);
      }
      if response.value.code == 200 {
        res := Ok(Handle(response.value.jobId, jobUuid));
      } else {
        res := Err(SubmissionFailed(response.value.text));
      }
    }

    /** `_check_job_status`: one status request, which takes the time the remote needs. */
    method CheckJobStatus(jobId: string) returns (res: Result<string, Error>)
      modifies this
      ensures (State(), res) == CheckStatus(remote, old(State()), jobId)
    {
      var reply := remote.status(polls);
      polls := polls + 1;
      res := StatusOf(reply);
      log := log + [Polled(jobId, clock, res)];
      clock := clock + reply.latency;
    }

    /** `_download_and_process_job_results`: true when a parquet file named `name` was saved. */
    method DownloadAndProcessJobResults(jobUuid: string, name: JobName) returns (ok: bool)
      modifies this
      ensures (State(), ok) == Download(remote, old(State()), jobUuid, name)
    {
      ok := remote.download(fetches);
      fetches := fetches + 1;
      if ok {
        log := log + [Fetched(jobUuid), Saved(name)];
      } else {
        log := log + [Fetched(jobUuid)];
      }
      assert State() == Download(remote, old(State()), jobUuid, name).0;
      assert ok == Download(remote, old(State()), jobUuid, name).1;
    }

    /** Writing `"<date> 00:00:00"` to the watermark file. */
    method WriteLastRun(date: int)
      modifies this
      ensures State() == WriteWatermark(old(State()), date)
    {
      lastRun := Some(date);
      log := log + [WroteWatermark(date)];
    }

    /** `_get_dates`: every day from the stored one through yesterday, ascending. */
    method GetDates(today: int) returns (res: Result<seq<int>, Error>)
      ensures lastRun.None? ==> res == Err(DatesUnavailable)
      ensures lastRun.Some? ==> res == Ok(PendingDates(lastRun.value, today - 1))
    {
      if lastRun.None? {
        return Err(DatesUnavailable);
      }
      var yesterday := today - 1;
      var dateList: seq<int> := [];
      var day := lastRun.value;
      while day <= yesterday
        invariant lastRun.value <= day
        invariant day <= yesterday + 1 || day == lastRun.value
        invariant |dateList| == day - lastRun.value
        invariant forall k :: 0 <= k < |dateList| ==> dateList[k] == lastRun.value + k
        decreases yesterday - day
      {
        dateList := dateList + [day];
        day := day + 1;
      }
      res := Ok(dateList);
      assert dateList == PendingDates(lastRun.value, yesterday);
    }

    /** The body of `daily_download`'s date loop for `date`: submit, then poll until the job
        is done, failed twice, or the timeout runs out. */
    method DownloadDate(date: int) returns (o: Outcome<Error>)
      modifies this
      ensures (State(), o) == RunDate(remote, cfg, old(State()), date)
    {
      var jobName := DayName(date);
      var startDate, endDate := date, date + 1;
      var failedAttempts: nat := 0;
      var sub := SubmitJob(startDate, endDate, SubmitAttempts);
      if sub.Err? {
        return Fail(sub.error);
      }
      var jobId, jobUuid := sub.value.jobId, sub.value.uuid;
      if jobId == "" {
        return Pass;
      }
      var startTime := clock;
      var maxTime := cfg.timeoutMinutes * 60;
      ghost var goal := Poll(remote, cfg, State(), date, sub.value, 0, startTime);
      while clock - startTime < maxTime
        invariant Poll(remote, cfg, State(), date, Handle(jobId, jobUuid), failedAttempts, startTime) == goal
        decreases startTime + maxTime - clock
      {
        ghost var step := PollStep(remote, cfg, State(), date, Handle(jobId, jobUuid), failedAttempts);
        var status := CheckJobStatus(jobId);
        if status.Err? {
          return Fail(status.error);
        }
        if status.value == Succeeded {
          var ok := DownloadAndProcessJobResults(jobUuid, jobName);
          if ok {
            WriteLastRun(date);
          }
          // `break`: the loop ends without the timeout
          return Pass;
        } else if status.value == Killed || status.value == Failed {
          failedAttempts := failedAttempts + 1;
          if failedAttempts <= 1 {
            sub := SubmitJob(startDate, endDate, SubmitAttempts);
            if sub.Err? {
              return Fail(sub.error);
            }
            jobId, jobUuid := sub.value.jobId, sub.value.uuid;
          } else {
            // formatting `status['state']` on a str raises TypeError
            return Fail(StateNotIndexable);
          }
        } else if status.value == RateLimited {
          Sleep(RateLimitNap);
        }
        Sleep(cfg.sleepTime);
        assert step == Again(State(), Handle(jobId, jobUuid), failedAttempts);
      }
      return Fail(TimedOut(jobId, cfg.timeoutMinutes));
    }

    /** `daily_download`: every pending date in order, stopping at the first raised error. */
    method DailyDownload(today: int) returns (o: Outcome<Error>)
      modifies this
      ensures (State(), o) == Daily(remote, cfg, old(State()), today)
    {
      var dates := GetDates(today);
      if dates.Err? {
        return Fail(dates.error);
      }
      var dateList := dates.value;
      if dateList == [] {
        return Pass;
      }
      for k := 0 to |dateList|
        invariant RunDates(remote, cfg, State(), dateList[k..]) == RunDates(remote, cfg, old(State()), dateList)
      {
        assert dateList[k..][1..] == dateList[k + 1..];
        o := DownloadDate(dateList[k]);
        if o.Fail? {
          return o;
        }
      }
      return Pass;
    }

    /** `single_download`: sanitise the name, submit, and check the status once; the first
        successful check is followed by `status['state']` on a str, which raises. */
    method SingleDownload(startDate: int, endDate: int, name: string) returns (o: Outcome<Error>)
      modifies this
      ensures (State(), o) == RitisJobs.SingleDownload(remote, cfg, old(State()), startDate, endDate)
    {
      var jobName := TextName(Sanitise(name));
      var sub := SubmitJob(startDate, endDate, SubmitAttempts);
      if sub.Err? {
        return Fail(sub.error);
      }
      if sub.value.jobId == "" {
        return Pass;
      }
      var status := CheckJobStatus(sub.value.jobId);
      if status.Err? {
        return Fail(status.error);
      }
      return Fail(StateNotIndexable);
    }
  }
}
