# AppSpeedTest: the measurement engine and the test task, in Dafny

This project models the two parts of the AppSpeedTest Android app that carry
logic:

- The measurement engine (`SpeedTestManager`). It covers:
  - the host normalisation shared by the two latency probes;
  - the quick ping (`getPing`);
  - the latency and jitter test (`testLatency` with `LatencyResult`);
  - the three time-capped download probes;
  - the three upload probes with their synthetic payload.
- The result screen (`ResultActivity`). It covers:
  - the background task `SpeedTestTask.doInBackground`, which runs ping, then download, then upload, and falls back to the second HTTP client in a content test;
  - the progress records it publishes (`TestProgress`);
  - the result record it fills (`TestResult`);
  - `onProgressUpdate`, `onPostExecute` and `getQualityRating`.

Everything the network, the clock and the platform supply is an input:

- each reachability attempt: its reply and whether the pause after it was interrupted;
- each HTTP exchange: its response code, every read of the body with the clock reading at that read, and the clock readings around it;
- whether building an OkHttp client throws;
- which of the task's half-second pauses, if any, is interrupted;
- the network type shown on screen.

Modules:

- `Numbers` holds `Option`, Java's `long` division (truncating toward zero), and a `Double`. The `Double` is a finite real or the positive infinity that an upload timed at zero milliseconds yields.
- `HostName` models `host.replace("https://", "").replace("http://", "").split("/")[0]`, including the case where `split` yields an empty array and indexing it throws.
- `Latency` models `getPing` and `testLatency` as methods with loops. They are proved against reference functions over the attempt list.
- `Throughput` models the shared capped read loop, the rate formulas and gates, the payload fill, and the six probes. `testDownloadSpeed` and `testDownloadSpeedOkHttp` take a `url` and ignore it: they always fetch the fixed 10 MB file. The model keeps that.
- `Quality` models `getQualityRating`.
- `SpeedTestTask` models:
  - the `TestResult` class, updated in place stage by stage;
  - `DoInBackground`, which returns the progress records in publication order and the probe calls in call order;
  - a reference definition of a whole run (`RunOf`).
- `ResultScreen` models the screen as a class over its views and proves what a run leaves on it.

Only the Excellent tier of the rating excludes the ping sentinel -1 (ResultActivity.java:255), so a 20 Mbps download with ping -1 rates Good (`Quality.SentinelPing`).

## Model

| member | source | states |
|---|---|---|
| Numbers.JavaDiv | app/src/main/java/com/example/appspeedtest/SpeedTestManager.java:70 | `long` division by a positive count truncates toward zero: for a non-negative dividend q*b <= a < q*b+b, for a negative one q*b-b < a <= q*b |
| Numbers.JavaDivBetween | app/src/main/java/com/example/appspeedtest/SpeedTestManager.java:319 | a truncated mean lies between any bounds that the sum, spread over the count, lies between |
| HostName.Without | app/src/main/java/com/example/appspeedtest/SpeedTestManager.java:41 | `replace(pat, "")` never lengthens the text; what it removes is stated by the three lemmas below |
| HostName.WithoutLeading | app/src/main/java/com/example/appspeedtest/SpeedTestManager.java:41 | an occurrence at the start of the text is removed |
| HostName.WithoutKeepsPrefix | app/src/main/java/com/example/appspeedtest/SpeedTestManager.java:41 | a prefix inside which no occurrence starts is kept, and removal goes on in the rest |
| HostName.WithoutNoOccurrence | app/src/main/java/com/example/appspeedtest/SpeedTestManager.java:41 | a text in which the pattern does not occur is returned unchanged |
| HostName.FirstSegment | app/src/main/java/com/example/appspeedtest/SpeedTestManager.java:41 | `split("/")[0]` throws exactly on a non-empty text made only of '/'; otherwise it is the longest '/'-free prefix, followed by '/' or the end |
| HostName.Normalise | app/src/main/java/com/example/appspeedtest/SpeedTestManager.java:41 | the probed host is the text before the first '/' of the input with both schemes removed; it is absent exactly when that text is all slashes |
| HostName.NormalisedHasNoScheme | app/src/main/java/com/example/appspeedtest/SpeedTestManager.java:282 | a normalised host contains neither "https://" nor "http://" |
| HostName.LeadingSchemeIgnored | app/src/main/java/com/example/appspeedtest/SpeedTestManager.java:41 | a leading "https://" or "http://" makes no difference to the stripped text |
| HostName.NormaliseRoundTrip | app/src/main/java/com/example/appspeedtest/SpeedTestManager.java:41 | a bare host (no '/', no ':'), with no scheme, "http://" or "https://" and any path, normalises to itself |
| Latency.GetPing | app/src/main/java/com/example/appspeedtest/SpeedTestManager.java:38-79 | the three-attempt loop answers the quick ping of the attempts: the truncated mean of the successful round trips, or -1 |
| Latency.QuickPingMeaning | app/src/main/java/com/example/appspeedtest/SpeedTestManager.java:46-78 | -1 when the host throws, a pause is interrupted or no attempt succeeds; otherwise between the smallest and the largest round trip (running extremes started at the first sample), and non-negative when every round trip is |
| Latency.InterruptedAt | app/src/main/java/com/example/appspeedtest/SpeedTestManager.java:66 | an interrupted pause after any attempt makes the quick ping -1 and the latency test the all -1 sentinel |
| Latency.TestLatency | app/src/main/java/com/example/appspeedtest/SpeedTestManager.java:280-328 | the ten-slot array writes stay in bounds, the array holds exactly the successful round trips, and the result is the aggregation of those samples or the all -1 sentinel |
| Latency.AggregatePings | app/src/main/java/com/example/appspeedtest/SpeedTestManager.java:307-322 | the sum/min/max pass over the first n stored samples gives the reference aggregation of those samples |
| Latency.SamplesAreReachableRtts | app/src/main/java/com/example/appspeedtest/SpeedTestManager.java:289-302 | the stored samples are, in order, the round trips of the successful attempts and of no others |
| Latency.MinFromIsMinimum | app/src/main/java/com/example/appspeedtest/SpeedTestManager.java:315 | the running minimum is at most its start and every sample, and equals one of them |
| Latency.MaxFromIsMaximum | app/src/main/java/com/example/appspeedtest/SpeedTestManager.java:316 | the running maximum is at least its start and every sample, and equals one of them |
| Latency.AggregateOrdered | app/src/main/java/com/example/appspeedtest/SpeedTestManager.java:307-322 | with at least one sample, min <= average <= max and jitter = max - min >= 0 |
| Latency.AggregateExact | app/src/main/java/com/example/appspeedtest/SpeedTestManager.java:311-317 | for samples in [0, Long.MAX_VALUE], min and max are the smallest and largest sample |
| Latency.TestLatencyMeaning | app/src/main/java/com/example/appspeedtest/SpeedTestManager.java:307-327 | the all -1 sentinel when the host throws, a pause is interrupted or nothing succeeded; ordered statistics otherwise |
| Throughput.ReadCapped | app/src/main/java/com/example/appspeedtest/SpeedTestManager.java:112-120 | the read loop's byte count equals the reference count of the stream, or failure when a read throws first |
| Throughput.DrainCountsUpToCap | app/src/main/java/com/example/appspeedtest/SpeedTestManager.java:180-194 | the count is the sum of the chunks up to the end of stream, or through the first chunk read after the cap (its bytes included); every earlier chunk was read within the cap; it fails exactly when the stopping read throws |
| Throughput.DrainIgnoresLaterReads | app/src/main/java/com/example/appspeedtest/SpeedTestManager.java:373-380 | reads after the stopping read never change the count |
| Throughput.DownloadRateFormula | app/src/main/java/com/example/appspeedtest/SpeedTestManager.java:123-129 | over a positive interval with some bytes, the rate is bytes*8 over elapsed microseconds, and positive |
| Throughput.DownloadGate | app/src/main/java/com/example/appspeedtest/SpeedTestManager.java:104-144 | a download is never negative, and is non-zero exactly when the response is accepted, the body is read without an exception, the clock advanced and some bytes arrived |
| Throughput.UploadGate | app/src/main/java/com/example/appspeedtest/SpeedTestManager.java:436-457 | an upload is non-zero only for an accepted response; accepted over a positive interval it is the exact positive rate; over a zero interval it is +Infinity |
| Throughput.AcceptanceNesting | app/src/main/java/com/example/appspeedtest/SpeedTestManager.java:365 | OkHttp's `isSuccessful` accepts every code `HttpURLConnection` accepts, and more (204) |
| Throughput.Probe | app/src/main/java/com/example/appspeedtest/SpeedTestManager.java:101-144 | the body shared by the three downloads (also :168-218, :364-400): gate on the response, read under the cap, gate on duration and byte count; its value is the reference download result |
| Throughput.TestDownloadSpeed | app/src/main/java/com/example/appspeedtest/SpeedTestManager.java:84-145 | the `HttpURLConnection` probe, 8-second cap, whatever the url: its result is the download result of the exchange |
| Throughput.TestGeneralDownloadSpeed | app/src/main/java/com/example/appspeedtest/SpeedTestManager.java:151-219 | the general probe uses the 12-second cap |
| Throughput.TestDownloadSpeedOkHttp | app/src/main/java/com/example/appspeedtest/SpeedTestManager.java:350-401 | the OkHttp probe: the client setup throws to the caller, otherwise the OkHttp-accepted download result under the 8-second cap |
| Throughput.FillPayload | app/src/main/java/com/example/appspeedtest/SpeedTestManager.java:416-419 | the payload array has the requested length and byte i is i mod 256 |
| Throughput.PostPayload | app/src/main/java/com/example/appspeedtest/SpeedTestManager.java:416-457 | the body shared by the three uploads (also :233-274, :474-509): the posted body has the requested size with byte i equal to i mod 256, and the rate is the reference upload result |
| Throughput.TestUploadSpeed | app/src/main/java/com/example/appspeedtest/SpeedTestManager.java:406-458 | posts 512 KiB whose byte i is i mod 256; the rate is the upload result of the exchange |
| Throughput.TestGeneralUploadSpeed | app/src/main/java/com/example/appspeedtest/SpeedTestManager.java:224-275 | posts 1 MiB of the same pattern |
| Throughput.TestUploadSpeedOkHttp | app/src/main/java/com/example/appspeedtest/SpeedTestManager.java:463-510 | posts 512 KiB with OkHttp, or throws to the caller when the client setup throws |
| Quality.QualityRating | app/src/main/java/com/example/appspeedtest/ResultActivity.java:254-266 | Very Poor exactly below 2 Mbps; Excellent only with a measured (positive) ping and at least 25 Mbps; Fair or better only with at least 5 Mbps and a ping under 150 |
| Quality.Label | app/src/main/java/com/example/appspeedtest/ResultActivity.java:256-264 | each tier's text opens with its star count (five for Excellent down to one for Very Poor) followed by a space |
| Quality.LabelsDistinct | app/src/main/java/com/example/appspeedtest/ResultActivity.java:254-266 | distinct tiers have distinct texts |
| Quality.RatingCharacterised | app/src/main/java/com/example/appspeedtest/ResultActivity.java:254-266 | each tier is chosen exactly when its thresholds hold and those of every better tier fail |
| Quality.RatingMonotoneInDownload | app/src/main/java/com/example/appspeedtest/ResultActivity.java:254-266 | for a fixed ping a faster download never rates lower |
| Quality.RatingAntitoneInPing | app/src/main/java/com/example/appspeedtest/ResultActivity.java:254-266 | among measured pings a higher ping never rates higher |
| Quality.SentinelPing | app/src/main/java/com/example/appspeedtest/ResultActivity.java:255-260 | the sentinel -1 is kept out of Excellent only: with d >= 10 it rates Good, with 5 <= d < 10 Fair |
| Quality.RatingExamples | app/src/main/java/com/example/appspeedtest/ResultActivity.java:254-266 | sample ratings for each tier |
| SpeedTestTask.GeneralHostIsBare | app/src/main/java/com/example/appspeedtest/ResultActivity.java:129 | the general test's host normalises to itself |
| SpeedTestTask.Starting | app/src/main/java/com/example/appspeedtest/ResultActivity.java:276-280 | `new TestProgress(type, message)`: the stage, its non-empty announcement, no display text and value -1 |
| SpeedTestTask.DoneRecord | app/src/main/java/com/example/appspeedtest/ResultActivity.java:282-287 | `new TestProgress(type, display, value)` as published at :141, :144, :166 and :187: the stage, an empty message, the stage's value and its display text (milliseconds for the ping, Mbps for the transfers) |
| SpeedTestTask.TestResult.constructor | app/src/main/java/com/example/appspeedtest/ResultActivity.java:290-295 | a new result holds ping -1, download 0, upload 0, jitter -1 |
| SpeedTestTask.DoInBackground | app/src/main/java/com/example/appspeedtest/ResultActivity.java:124-194 | the filled result, the published records and the probe calls are those of the reference run, for every network and interruption point |
| SpeedTestTask.TransferStages | app/src/main/java/com/example/appspeedtest/ResultActivity.java:147-187 | the download and upload stages update only their own fields, and only when they complete; they publish their stage records |
| SpeedTestTask.MeasurePing | app/src/main/java/com/example/appspeedtest/ResultActivity.java:136-145 | the latency stage gives the reference ping and jitter and calls the mode's probe |
| SpeedTestTask.MeasureDownload | app/src/main/java/com/example/appspeedtest/ResultActivity.java:151-164 | the download stage gives the reference value and calls, fallback included |
| SpeedTestTask.MeasureUpload | app/src/main/java/com/example/appspeedtest/ResultActivity.java:172-185 | the upload stage gives the reference value and calls, fallback included |
| SpeedTestTask.ProgressAlternates | app/src/main/java/com/example/appspeedtest/ResultActivity.java:133-187 | records alternate: 2k announces stage k with value -1, 2k+1 carries stage k's value; 6 records, or 2k+1 when stage k's pause is interrupted |
| SpeedTestTask.DownloadNeverNegative | app/src/main/java/com/example/appspeedtest/ResultActivity.java:151-166 | the recorded download rate is never negative |
| SpeedTestTask.InterruptedStagesKeepDefaults | app/src/main/java/com/example/appspeedtest/ResultActivity.java:189-193 | an interrupted run still returns the result, and the fields of the stages it did not complete keep their defaults |
| SpeedTestTask.UninterruptedRunCompletes | app/src/main/java/com/example/appspeedtest/ResultActivity.java:131-187 | without an interruption every stage runs whatever the probes report, and the result holds both transfer values |
| SpeedTestTask.ModeSelectsPing | app/src/main/java/com/example/appspeedtest/ResultActivity.java:128-145 | a general test takes the latency test's average and jitter; a content test takes the quick ping of the domain and leaves jitter at -1 |
| SpeedTestTask.GeneralLatencyStage | app/src/main/java/com/example/appspeedtest/ResultActivity.java:136-141 | a general test's ping lies between the smallest and the largest round trip; its jitter is testLatency's max - min (running extremes started at Long.MAX_VALUE and 0) and is non-negative; both are -1 when nothing was measured or a pause was interrupted |
| SpeedTestTask.GeneralCallsOneProbePerStage | app/src/main/java/com/example/appspeedtest/ResultActivity.java:136-174 | a general test calls one probe per stage it completes, never a fallback |
| SpeedTestTask.ContentDownloadFallback | app/src/main/java/com/example/appspeedtest/ResultActivity.java:156-163 | the `HttpURLConnection` download is called exactly when OkHttp throws or reports 0, and its value then replaces OkHttp's |
| SpeedTestTask.ContentUploadFallback | app/src/main/java/com/example/appspeedtest/ResultActivity.java:177-184 | the same fallback for the upload |
| SpeedTestTask.UnreachableGeneralRating | app/src/main/java/com/example/appspeedtest/ResultActivity.java:234 | a general test with no reply keeps ping and jitter at -1, is never rated Excellent, and a download of at least 10 Mbps rates Good |
| ResultScreen.Shown | app/src/main/java/com/example/appspeedtest/ResultActivity.java:198-215 | a record sets the status line to its message and leaves jitter, rating and result visibility alone |
| ResultScreen.Screen.constructor | app/src/main/java/com/example/appspeedtest/ResultActivity.java:64-68 | the screen starts with "Testing on <network>", the preparing message and blank values |
| ResultScreen.Screen.OnProgressUpdate | app/src/main/java/com/example/appspeedtest/ResultActivity.java:196-217 | only the first record counts; a stage's value view is written only when the value is at least 0 |
| ResultScreen.Screen.OnPostExecute | app/src/main/java/com/example/appspeedtest/ResultActivity.java:219-252 | the final screen is the finished display of the result: "Failed" for a negative ping, jitter only in a general test with jitter >= 0, the rating of download and ping |
| ResultScreen.Screen.Retry | app/src/main/java/com/example/appspeedtest/ResultActivity.java:72-78 | retry hides the results and shows the restart message, and changes nothing else |
| ResultScreen.StartingShowsNoValue | app/src/main/java/com/example/appspeedtest/ResultActivity.java:203 | an announcement (value -1) never writes a value view |
| ResultScreen.ReplayRun | app/src/main/java/com/example/appspeedtest/ResultActivity.java:196-217 | after a run's records, each value view shows its stage's value once the stage completes, except a negative ping or upload; the status ends with the last record's message |
| ResultScreen.InterruptedRunScreen | app/src/main/java/com/example/appspeedtest/ResultActivity.java:219-252 | a run interrupted before the ping ends showing "Failed", 0 Mbps both ways and the lowest rating |
| ResultScreen.ContentShowsNoJitter | app/src/main/java/com/example/appspeedtest/ResultActivity.java:229-245 | a content test never shows a jitter, in the view or in the summary |
| ResultScreen.FailedExactlyForNegativePing | app/src/main/java/com/example/appspeedtest/ResultActivity.java:224 | the ping view reads "Failed" exactly when the ping is negative, and shows the ping otherwise |

## Left out

- Network I/O (`InetAddress`, `HttpURLConnection`, OkHttp) and the connect and read timeouts: every reply, response code, read and clock reading is an input.
- `Thread.sleep` pacing: a pause is modelled only as the point where an interruption can end a loop or the task.
- `System.currentTimeMillis`: clock readings are inputs.
- Floating point: rates are exact reals. The one non-finite value an upload can yield, +Infinity for a zero duration, is kept. NaN cannot arise, because the dividend is always positive.
- `String.format("%.2f")` and the string concatenations of the display texts: a display text is an abstract `Text` value, such as a number of milliseconds or a rate.
- All `Log` calls, including the progress log every 5 MB inside the general download loop.
- Latency.GetPing: `totalTime` is an unbounded integer, so Java `long` overflow of the sum is not modelled. A round trip is a difference of two wall-clock readings around a DNS lookup and a reachability check; the sum of three of them would overflow a `long` only beyond 2^63 ms.
- Latency.TestLatency: `sum` is an unbounded integer, for the same reason.
- Exceptions thrown by `close()` or `disconnect()` are not modelled. A failing `close()` inside the OkHttp download's handler would turn a measured rate into 0.
- AsyncTask threading: `publishProgress` records are delivered in publication order, one per `onProgressUpdate` call.
- Service icons and container visibility in `onCreate` are not modelled; the model keeps only whether the results are showing.
- `getNetworkType` is a platform query; its answer is a parameter.
- MainActivity.java and Utils.java are not part of this model.
- HostName.Without: its own contract states only that the text never grows; the removal of occurrences is stated by `WithoutNoOccurrence`, `WithoutLeading` and `WithoutKeepsPrefix`, not by one characterisation of every input.
- ResultScreen.InterruptedRunScreen: assumes `onPostExecute` runs after an interrupted run. In the app only `AsyncTask.cancel(true)` can interrupt the task's pause, and after a cancel the platform calls `onCancelled` instead of `onPostExecute`; the model does not capture cancellation.
- ResultScreen.ReplayRun: assumes every published record is delivered, including after an interruption; after `AsyncTask.cancel(true)` the platform drops later progress updates.
- ResultScreen.ContentShowsNoJitter: assumes, like `InterruptedRunScreen`, that `onPostExecute` runs after any run, interrupted or not.
- ResultScreen.Screen.OnPostExecute: assumes the jitter view exists, so the `jitterValue != null` test in `onPostExecute` (ResultActivity.java:229) is taken as true.
- ResultScreen.Screen.Retry: starting the new task is not part of the method; the new run is `DoInBackground` again.
- ResultScreen.Initial: the layout's initial texts are not part of this model and are represented as `Blank`.
- SpeedTestTask.Mode: a content test's service name is not part of the mode; the screen takes it separately.
