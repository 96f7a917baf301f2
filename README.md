# Traffic data downloaders, modelled in Dafny

This project models the decision logic of three Python clients for traffic-data services:

- `RITIS_Downloader` (RITIS_API.py) runs the asynchronous export-job lifecycle: submit a
  job with backed-off retries, poll its status under rate limiting, resubmit once after a
  terminal failure, give up after a timeout, download and convert the result, and advance
  the `last_run` watermark file one day at a time.
- `INRIX_Downloader` (INRIX_API.py) covers:
  - loading an access token from its token file, or fetching and saving a new one, with
    the one-hour refresh margin;
  - reading the segment ids;
  - sending them to the speed service in batches of 500.
- `GeometryScraper` (Geometry_Scraper.py) sends locations in batches of 500 as circles and
  looks up the segments they intersect and those segments' geometry. It attaches each
  feature's first coordinate ring to the row of its segment, then concatenates the batch
  tables.

Modules:

- `Wrappers` holds `Option`, `Result` and `Outcome`.
- `Text` holds Python's `str.strip`, `str.split`, `str.join` and `str.replace` on
  `seq<char>`.
- `Batching` holds the slices `xs[i:i+n]` for `i in range(0, len(xs), n)`.
- `RitisJobs` describes the whole RITIS lifecycle as functions over `Sys`, a snapshot of
  everything the downloader changes:
  - the clock;
  - the watermark;
  - how far each stream of remote answers has been read;
  - a log of observable effects: sleeps, posts, status checks, downloads, saved files and
    watermark writes.
- `RitisProps` proves what the lifecycle guarantees about that log.
- `Ritis` is the class `RitisDownloader`. Its fields are the ones the source updates, and
  its methods use the source's loops. Each method is proved equal to a `RitisJobs`
  function:
  - `SubmitJob` to `SubmitJob`;
  - `CheckJobStatus` to `CheckStatus`;
  - `DownloadAndProcessJobResults` to `Download`;
  - `WriteLastRun` to `WriteWatermark`;
  - `GetDates` to `PendingDates`;
  - `DownloadDate` to `RunDate`;
  - `DailyDownload` to `Daily`;
  - `SingleDownload` to `SingleDownload`.
- `InrixApi` holds the same kind of specification for the token and the speed requests.
- `Inrix` is the class `InrixDownloader`. Its methods are proved equal to `InrixApi`
  functions:
  - `GetNewToken` to `NewToken`;
  - `ReadTokenFile` to `LoadStored`;
  - `LoadOrRefreshToken` to `LoadOrRefresh`;
  - `SendBatches` to `SpeedLoop`;
  - `GetSpeedData` to `Collect` over the batch requests.
- `Geometry` holds the scraper, which keeps no mutable state.
  - It is written as functions, plus two methods:
    - `ExtractDataToDataFrame` updates the table in place, in an `array`;
    - `ProcessAllLocations` runs the batch loop.
  - Both methods are proved equal to the functions.

Remote services are oracles:

- RITIS: the `n`-th submit, status or download answer, and the `n`-th `uuid4()`.
- INRIX: a function from request to answer, for both the token service and the speed
  service.
- Geometry: a function from request to answer for each endpoint; the `k`-th batch's uuid
  is `uuids(k)`.

Dates are day numbers. Times are integer seconds.

Quirks of the code that the model keeps as written:

- The first date of a daily run is the stored watermark day itself, not the day after it
  (`RitisProps.DailyRefetchesStoredDay`).
- A failed results download does not stop the batch. The next date is still processed,
  and its success moves the watermark past the day that has no file
  (`RitisProps.WatermarkPassesSkippedDate`).
- A second FAILED/KILLED state for a date raises a TypeError from `status['state']` on a
  str, not a job-failed error. Any status check that is neither 200 nor 429 raises at
  once.
- `single_download` indexes the str returned by `_check_job_status`, so it raises as soon
  as a status check succeeds. It never downloads anything
  (`RitisProps.SingleDownloadNeverSaves`).

## Model

| member | source | states |
|---|---|---|
| Text.Strip | INRIX_API.py:27 | the result is the input with leading and trailing whitespace removed: a contiguous slice, only whitespace cut, no whitespace left at either end |
| Text.StripIdempotent | RITIS_API.py:57 | stripping twice is stripping once |
| Text.SplitCount | INRIX_API.py:37 | `split(',')` gives one piece more than there are commas |
| Text.JoinSplit | INRIX_API.py:37 | joining the pieces of a split with the separator gives back the text |
| Text.SplitJoin | INRIX_API.py:106 | splitting a join of separator-free pieces gives back the pieces |
| Text.Replace | INRIX_API.py:51 | replacing a character changes the length by one replacement per occurrence and removes the character when the replacement lacks it |
| Batching.ChunkCount | INRIX_API.py:100-101 | `range(0, n, 500)` gives ceil(n / 500) slices |
| Batching.FlattenChunks | Geometry_Scraper.py:82-83 | the slices, concatenated, are the input: nothing lost, duplicated or reordered |
| Batching.ChunkAt | Geometry_Scraper.py:82-83 | slice `k` is `xs[500k : min(500k + 500, n)]` and starts inside the input |
| Batching.ChunkIndex | INRIX_API.py:100 | there is a slice `k` exactly when `500k < n` |
| RitisJobs.ParseSegments | RITIS_API.py:57 | one id per comma-separated piece, each stripped and comma-free |
| RitisJobs.Sanitise | RITIS_API.py:233 | the job name has no spaces and no colons |
| RitisJobs.SanitiseChars | RITIS_API.py:233 | sanitising works character by character: it distributes over concatenation, a space becomes `_`, a colon is deleted, and any other character is kept |
| Text.ReplaceAppend | RITIS_API.py:233 | `str.replace` of one character distributes over concatenation |
| RitisJobs.SanitiseProperties | RITIS_API.py:233 | sanitising shortens the name by its colons, leaves a clean name unchanged, and is idempotent |
| RitisJobs.SubmitLoop | RITIS_API.py:111-116 | the retry loop never moves the clock back and touches neither the watermark nor the other streams |
| RitisJobs.SubmitJob | RITIS_API.py:76-127 | a submission draws exactly one uuid and leaves the watermark, polls and downloads alone |
| RitisJobs.StatusOf | RITIS_API.py:129-140 | the status is the reported state on 200 and RATE_LIMITED on 429; any other code raises with the body |
| RitisJobs.CheckStatus | RITIS_API.py:129-140 | a status check reads the next status reply through `StatusOf`, always takes time, and changes nothing but the clock, the poll count and the log |
| RitisJobs.Download | RITIS_API.py:142-163 | a download reads the next download answer; it returns true exactly when the parquet file was saved, and leaves the watermark alone |
| RitisJobs.PollStep | RITIS_API.py:206-224 | a pass that goes round again has moved the clock forward; a pass moves the watermark only by ending the loop in success on its own date |
| RitisJobs.Poll | RITIS_API.py:206-226 | polling never moves the clock back, and moves the watermark only to its date and only on success |
| RitisJobs.RunDate | RITIS_API.py:192-226 | one date draws at least one uuid, and moves the watermark only to that date and only on success |
| RitisJobs.RunDates | RITIS_API.py:192-226 | the date loop leaves the watermark where it was or on one of its dates |
| RitisJobs.Daily | RITIS_API.py:184-228 | an unreadable watermark raises with nothing done; an up-to-date one returns with nothing done; otherwise jobs are run and the watermark ends between the stored day and yesterday |
| RitisJobs.SingleDownload | RITIS_API.py:231-245 | an ad-hoc download never downloads or moves the watermark, checks the status at most once, and returns normally only without checking it |
| RitisJobs.PendingDates | RITIS_API.py:165-180 | the dates are the stored day and every following day through yesterday, ascending, none when the stored day is after yesterday |
| RitisProps.AttemptsUsed | RITIS_API.py:111-116 | the loop posts at least once and at most `attempts` times |
| RitisProps.AttemptsAt | RITIS_API.py:111-114 | attempt `i` sleeps `10 * i^2` seconds and then posts the same payload |
| RitisProps.DefaultSchedule | RITIS_API.py:111-113 | with three failing attempts the sleeps are 0, 10 and 40 seconds, 50 in all |
| RitisProps.SubmitLoopEffect | RITIS_API.py:111-118 | the loop appends sleep-then-post pairs up to and including the first 200 or the last attempt, and returns that reply |
| RitisProps.SubmitJobEffect | RITIS_API.py:76-127 | zero attempts raise UnboundLocalError; otherwise a handle is returned exactly when the last reply is 200, else the error carries its text |
| RitisProps.SubmitJobEvents | RITIS_API.py:79-114 | a submission only sleeps and posts payloads for the requested dates |
| RitisProps.PollEvents | RITIS_API.py:206-226 | every effect of a date's polling loop is for that date, and every status check happens before the deadline |
| RitisProps.PollWatermark | RITIS_API.py:206-224 | while polling, the watermark is written at most once, last, on success, right after SUCCEEDED, the download and the saved file of that day; conversely, once the file is saved the loop ends in success with that write |
| RitisProps.PollStepSaved | RITIS_API.py:208-213 | a pass saves a file only when it ends the loop in success with the watermark write for its date |
| RitisProps.RateLimitedStep | RITIS_API.py:221-224 | a rate-limited check keeps the job and the failure count, and naps 300 s and then the poll interval |
| RitisProps.FirstFailureResubmits | RITIS_API.py:214-218 | the first FAILED/KILLED resubmits the same date; a submission error raises, otherwise polling goes on with the new job |
| RitisProps.SecondFailureRaises | RITIS_API.py:219-220 | a second FAILED/KILLED raises |
| RitisProps.PollResubmitsOnce | RITIS_API.py:214-220 | a date's polling loop resubmits at most once |
| RitisProps.PollTimesOut | RITIS_API.py:206-226 | a timeout is raised only once the clock has run out, and a job that keeps running always times out |
| RitisProps.RunDateEvents | RITIS_API.py:192-226 | all of a date's effects are for that date; the timeout clock starts after the first submission and a resubmission does not restart it |
| RitisProps.RunDateWatermark | RITIS_API.py:200-213 | per date, the watermark moves only to that date, only on success, only after its file was saved; and a date whose file was saved succeeded and moved the watermark to it |
| RitisProps.RunDateSubmitsAtMostTwice | RITIS_API.py:200-220 | at most two jobs are submitted per date |
| RitisProps.RunDatesWatermark | RITIS_API.py:192-226 | over the date loop the log only grows, every watermark write stays justified, and the watermark ends unchanged or at a processed date |
| RitisProps.RunDatesExtends | RITIS_API.py:192-226 | the date loop only appends to the log |
| RitisProps.RunDatesSaved | RITIS_API.py:192-213 | over ascending dates, once the last date's file is saved, the loop has completed and the watermark is on that date |
| RitisProps.DailyWatermark | RITIS_API.py:184-226 | an unreadable watermark raises with nothing done; otherwise the watermark never moves backwards nor past yesterday; once yesterday's file is saved the run completed with the watermark on yesterday |
| RitisProps.DailyRefetchesStoredDay | RITIS_API.py:172-177 | the first job of a daily run is for the stored day itself |
| RitisProps.QuickDate | RITIS_API.py:200-213 | a job that succeeds at once completes its date either way, and the watermark moves to it only when the file was saved |
| RitisProps.WatermarkPassesSkippedDate | RITIS_API.py:206-213 | after a failed download the next date still runs, and its success moves the watermark past the day without a file |
| RitisProps.SingleDownloadNeverSaves | RITIS_API.py:231-245 | an ad-hoc download never saves a file or writes the watermark; it returns normally only for an empty job id |
| Ritis.RitisDownloader.constructor | RITIS_API.py:14-57 | settings and stripped segment ids are stored; no request made, nothing logged |
| Ritis.RitisDownloader.Sleep | RITIS_API.py:113 | the clock advances by the sleep |
| Ritis.RitisDownloader.Post | RITIS_API.py:114 | one submit request is read and the post is logged |
| Ritis.RitisDownloader.SubmitJob | RITIS_API.py:76-127 | the for loop with break does what `RitisJobs.SubmitJob` describes |
| Ritis.RitisDownloader.CheckJobStatus | RITIS_API.py:129-140 | one status request, as `RitisJobs.CheckStatus` |
| Ritis.RitisDownloader.DownloadAndProcessJobResults | RITIS_API.py:142-163 | one results download; the file is saved exactly when it succeeds |
| Ritis.RitisDownloader.WriteLastRun | RITIS_API.py:211-212 | the watermark becomes the date |
| Ritis.RitisDownloader.GetDates | RITIS_API.py:165-182 | the while loop yields `RitisJobs.PendingDates`; an unreadable watermark raises |
| Ritis.RitisDownloader.DownloadDate | RITIS_API.py:193-226 | the polling while loop does what `RitisJobs.RunDate` describes |
| Ritis.RitisDownloader.DailyDownload | RITIS_API.py:184-228 | the date loop does what `RitisJobs.Daily` describes |
| Ritis.RitisDownloader.SingleDownload | RITIS_API.py:231-245 | as `RitisJobs.SingleDownload` |
| InrixApi.TokenNeedsRefresh | INRIX_API.py:61-70 | a refresh is due exactly when there is no expiry or less than an hour is left; a naive stored expiry raises TypeError |
| InrixApi.DropLast2 | INRIX_API.py:82 | `s[:-2]` is the prefix two characters shorter, or empty |
| InrixApi.ReadSegments | INRIX_API.py:32-42 | one id per comma of the stripped content plus one; the ids joined by commas are the stripped content |
| InrixApi.NewToken | INRIX_API.py:72-92 | one token request; on failure the file and expiry are untouched; on success the expiry is UTC and the file holds exactly the token and that expiry |
| InrixApi.LoadStored | INRIX_API.py:44-52 | reading the file makes no request and writes nothing; it fails with the JSON error exactly when the file is unreadable; a missing file changes nothing; a successful read takes the stored token |
| InrixApi.LoadOrRefresh | INRIX_API.py:44-59 | at most two token requests, and an error escapes only after a request was made |
| InrixApi.NoRequestIffFresh | INRIX_API.py:44-59 | no token is requested exactly when the stored token loads, is non-empty, and has at least an hour left; then it is kept |
| InrixApi.LoadRequests | INRIX_API.py:44-59 | loading makes at most two token requests, the second only after the first failed; an error escapes only from a failed request |
| InrixApi.LoadFailureFallsBack | INRIX_API.py:57-59 | whatever goes wrong reading the file, exactly one new token is requested, and its outcome is the outcome |
| InrixApi.LoadedTokenUsable | INRIX_API.py:44-92 | after a successful load the expiry is aware: from the file with an hour left, or newly fetched as UTC and saved |
| InrixApi.SavedTokenReloads | INRIX_API.py:44-92 | a saved token is read back unchanged and reused without a request while it has an hour left |
| InrixApi.SegmentIdsKeepInnerSpaces | INRIX_API.py:36-37 | `" a, b\n"` gives the ids `"a"` and `" b"`: the pieces are not stripped |
| InrixApi.RequestCount | INRIX_API.py:100-101 | ceil(n / 500) speed requests when none fails |
| InrixApi.RequestAt | INRIX_API.py:100-108 | request `k` carries the token and the stripped ids of slice `k` |
| InrixApi.RequestsCoverSegments | INRIX_API.py:100-106 | the requests together name every segment once, in order |
| InrixApi.BatchSplits | INRIX_API.py:106 | a batch's `ids` parameter splits back into its stripped ids |
| InrixApi.Collect | INRIX_API.py:99-122 | the rows are collected exactly when every request is answered; the only error is a failed request |
| InrixApi.SpeedLoop | INRIX_API.py:100-115 | every request sent but the last was answered; a failure is reported only for the last request sent, which got no answer |
| InrixApi.CollectOk | INRIX_API.py:99-122 | the data is complete exactly when every request is answered, and is then the answers in request order |
| InrixApi.SentPrefix | INRIX_API.py:110-115 | requests stop at the first failure: all earlier ones were answered |
| InrixApi.SpeedLoopCollects | INRIX_API.py:100-115 | the index loop from slice `k` sends the remaining requests up to the first failure and collects their rows |
| Inrix.InrixDownloader.constructor | INRIX_API.py:8-16 | stripped credentials, segment ids, and no token yet |
| Inrix.InrixDownloader.Open | INRIX_API.py:8-17 | construction fails exactly when loading the token fails |
| Inrix.InrixDownloader.GetNewToken | INRIX_API.py:72-92 | as `InrixApi.NewToken` |
| Inrix.InrixDownloader.ReadTokenFile | INRIX_API.py:47-52 | as `InrixApi.LoadStored` |
| Inrix.InrixDownloader.LoadOrRefreshToken | INRIX_API.py:44-59 | as `InrixApi.LoadOrRefresh` |
| Inrix.InrixDownloader.GetSpeedData | INRIX_API.py:94-122 | the rows of all batch requests in order, or the first failure; the requests sent are those up to the failure |
| Inrix.InrixDownloader.SendBatches | INRIX_API.py:100-115 | the index loop does what `InrixApi.SpeedLoop` describes |
| Geometry.Circles | Geometry_Scraper.py:21-30 | one circle per location with the buffer radius, `leafletID` its position |
| Geometry.CirclesCentredOnLocations | Geometry_Scraper.py:21-30 | the circles are centred on the locations, in order |
| Geometry.LeafletIdsRestart | Geometry_Scraper.py:82-86 | circle `m` of batch `j` is location `500j + m` with `leafletID` `m` |
| Geometry.GetSegments | Geometry_Scraper.py:17-45 | one request holding the circles of the locations with the batch uuid; its answer is the segment list, and an HTTP failure is the only error |
| Geometry.GetGeometry | Geometry_Scraper.py:47-61 | one request for the whole segment list; its answer is the data, and an HTTP failure is the only error |
| Geometry.Matches | Geometry_Scraper.py:70 | exactly the rows whose `segID` is the id, ascending |
| Geometry.FirstMatch | Geometry_Scraper.py:70-72 | `idx[0]` is the first row carrying the id |
| Geometry.AttachChangesFirstMatchOnly | Geometry_Scraper.py:70-72 | a feature changes only the coordinates of the first row with its id, and nothing when no row has it |
| Geometry.ApplyFeaturesOk | Geometry_Scraper.py:67-72 | the loop succeeds exactly when every feature has a ring and, if there are features, the table has a `segID` column |
| Geometry.ApplyFeaturesRows | Geometry_Scraper.py:67-72 | rows are neither added, removed nor reordered; each keeps its own coordinates or gets those of the last feature that claimed it |
| Geometry.LastFeatureWins | Geometry_Scraper.py:67-72 | among features sharing an id, the last one's first ring stays on the row |
| Geometry.ApplyFeatures | Geometry_Scraper.py:67-72 | the feature loop keeps the number of rows and fails only with IndexError or KeyError('segID') |
| Geometry.Extract | Geometry_Scraper.py:63-74 | the table comes back row for row, unchanged when there are no features; the only errors are IndexError and KeyError('segID') |
| Geometry.ApplyFeaturesErrors | Geometry_Scraper.py:67-72 | the loop fails only with IndexError or KeyError('segID') |
| Geometry.ExtractDataToDataFrame | Geometry_Scraper.py:63-74 | the in-place loop over a table array gives `Geometry.Extract` |
| Geometry.ProcessAllLocations | Geometry_Scraper.py:76-94 | the batch loop gives `Geometry.ProcessLocations` |
| Geometry.BatchesInOrder | Geometry_Scraper.py:82-89 | the batch loop succeeds exactly when every batch does, giving one table per batch, in order |
| Geometry.ProcessLocations | Geometry_Scraper.py:76-94 | `pd.concat`'s error arises exactly when there are no locations |
| Geometry.ProcessLocationsResult | Geometry_Scraper.py:76-94 | `pd.concat` fails exactly when there are no locations; otherwise the result is the batch tables concatenated |
| Geometry.NoConcatErrorFromBatches | Geometry_Scraper.py:82-92 | no batch fails with the concatenation error |

## Left out

- HTTP requests are oracles. No URL, query string, header, API key, TLS-verification
  switch or `warnings.filterwarnings` call is modelled.
- For INRIX and Geometry, a missing key in a JSON answer counts as a failed request.
- Printing and the `verbose` levels are left out.
- The clock: `time.sleep` and `datetime.now` are a clock in seconds. Sleeps advance it,
  and each RITIS status request takes a positive time the oracle chooses. No other request
  takes time.
- `today` and the INRIX `now` are parameters.
- Files are given by their contents. The segments files and credential files are strings.
  The RITIS watermark file is a day number, or None when it is missing or unparseable.
- The INRIX token file is missing, unreadable, or a record with optional `token` and
  `expiry` keys. JSON null or non-string values in it are not modelled.
- Date and time text: `strftime`/`strptime` and `fromisoformat`/`isoformat` are not
  modelled as text. RITIS dates are day numbers. An INRIX stamp is a wall-clock reading
  with an optional UTC offset. `fromisoformat` and `isoformat` are parameters of the token
  API.
- Ritis.RitisDownloader.DownloadAndProcessJobResults: the zip, CSV and DuckDB steps are
  one boolean per download: whether a parquet file was saved. Exceptions raised while
  unpacking or converting are not modelled.
- Ritis.RitisDownloader.SubmitJob: a 200 answer whose JSON lacks `id` (a KeyError) is not
  modelled. The same goes for a status answer without `progress` or `state`.
- The constant fields of the RITIS, segment and geometry requests are not carried: `dow`
  is, the others are not.
- Creating the download directory is not modelled.
- `pd.DataFrame` is a sequence of records or rows. Column order and NaN filling are not
  modelled. A table "has a `segID` column" when some record has that key.
- Geometry coordinate rings are the text `str()` gives for them. Latitudes and longitudes
  are reals carried through unchanged; no floating-point arithmetic is done on them.
- `GeometryScraper.__init__` (cookie prompt, headers, warning filter) is not part of this
  model: it only prepares request headers.
- Concurrency and crashes mid-write are not modelled.
