/** The background task of the result screen (`SpeedTestTask.doInBackground`):
    it picks the target by mode, runs ping, download and upload in that order,
    falls back to the second HTTP client in a content test, publishes a progress
    record before and after each stage, and returns the result record. */
module SpeedTestTask {
  import opened Numbers
  import HostName
  import Latency
  import Throughput
  import Quality

  /** The host probed by a general test. It is a function rather than a constant
      so that the verifier does not evaluate the host normalisation on the
      literal wherever a general test is reasoned about. */
  function GeneralHost(): string {
    "speed.cloudflare.com"
  }

  /** The reference host normalises to itself. */
  lemma GeneralHostIsBare()
    ensures HostName.Normalise(GeneralHost()) == Some(GeneralHost())
  {
    var h := GeneralHost();
    assert h == "" + h + "";
    HostName.NormaliseRoundTrip("", h, "");
  }

  /** A general test, or a content test of one service's domain. */
  datatype Mode = General | Content(domain: string)

  datatype Stage = PingStage | DownloadStage | UploadStage

  function StageIndex(s: Stage): nat {
    match s
    case PingStage => 0
    case DownloadStage => 1
    case UploadStage => 2
  }

  /** The stages in the order the task runs them. */
  function StageAt(k: nat): Stage
    requires k < 3
    ensures StageIndex(StageAt(k)) == k
  {
    if k == 0 then PingStage else if k == 1 then DownloadStage else UploadStage
  }

  /** A display text before formatting: nothing (null), a number of milliseconds
      (`ping + " ms"`), a rate (`"%.2f Mbps"`), or "Failed". */
  datatype Text = Blank | Millis(ms: int) | Megabits(rate: Double) | FailedText

  /** `TestProgress`: the stage (`testType`), the status message, the display text
      and the value; -1 marks a record announcing that a stage starts. */
  datatype TestProgress = TestProgress(testType: Stage, message: string, displayValue: Text, value: Double)

  function StartMessage(s: Stage): string {
    match s
    case PingStage => "Testing connection latency..."
    case DownloadStage => "Testing download speed..."
    case UploadStage => "Testing upload speed..."
  }

  /** `new TestProgress(stage, message)`: value -1, no display text. */
  function Starting(s: Stage): (p: TestProgress)
    ensures p.testType == s && p.message == StartMessage(s) && |p.message| > 0
    ensures p.displayValue == Blank && p.value == Finite(-1.0)
  {
    TestProgress(s, StartMessage(s), Blank, Finite(-1.0))
  }

  /** The fields of a `TestResult`. */
  datatype ResultFields = ResultFields(ping: int, download: real, upload: Double, jitter: int)

  /** A fresh `TestResult`: ping -1, download 0, upload 0, jitter -1. */
  const Defaults := ResultFields(-1, 0.0, Finite(0.0), -1)

  /** `new TestProgress(stage, display, value)` published once a stage has its
      value: empty message, the value and its display text. */
  function DoneRecord(s: Stage, f: ResultFields): (p: TestProgress)
    ensures p.testType == s && p.message == "" && p.displayValue != Blank
    ensures s == PingStage ==> p.value == Finite(f.ping as real) && p.displayValue == Millis(f.ping)
    ensures s == DownloadStage ==> p.value == Finite(f.download) && p.displayValue == Megabits(p.value)
    ensures s == UploadStage ==> p.value == f.upload && p.displayValue == Megabits(p.value)
  {
    match s
    case PingStage => TestProgress(PingStage, "", Millis(f.ping), Finite(f.ping as real))
    case DownloadStage => TestProgress(DownloadStage, "", Megabits(Finite(f.download)), Finite(f.download))
    case UploadStage => TestProgress(UploadStage, "", Megabits(f.upload), f.upload)
  }

  /** The probe methods the task calls. */
  datatype ProbeCall =
    | GetPing | TestLatency
    | DownloadOkHttp | DownloadUrlConnection | GeneralDownload
    | UploadOkHttp | UploadUrlConnection | GeneralUpload

  /** What the network and the platform do during one run: the reachability
      attempts; for each transfer, the exchange of the first (or only) probe,
      whether building the OkHttp client throws, and the exchange of the fallback
      probe; and the stage, if any, whose half-second pause is interrupted. */
  datatype Network = Network(
    attempts: seq<Latency.Attempt>,
    download: Throughput.Download,
    okHttpDownloadThrows: bool,
    fallbackDownload: Throughput.Download,
    upload: Throughput.Upload,
    okHttpUploadThrows: bool,
    fallbackUpload: Throughput.Upload,
    interruptedIn: Option<Stage>)

  /** Attempts made by the latency stage: ten in a general test, three otherwise. */
  function AttemptsFor(mode: Mode): nat {
    if mode.General? then Latency.LatencyAttempts else Latency.PingAttempts
  }

  /** The stage announces itself: no earlier pause was interrupted. */
  predicate Starts(net: Network, s: Stage) {
    net.interruptedIn.None? || StageIndex(s) <= StageIndex(net.interruptedIn.value)
  }

  /** The stage runs its probes and records its value. */
  predicate Completes(net: Network, s: Stage) {
    net.interruptedIn.None? || StageIndex(s) < StageIndex(net.interruptedIn.value)
  }

  // ---------------------------------------------------------------------------
  // The stages, as a reference definition

  /** The latency stage's ping and jitter: the latency test's average and jitter
      against the reference host in a general test; the quick ping of the domain
      and an untouched jitter in a content test. */
  function PingOutcome(mode: Mode, net: Network): (r: (int, int)) {
    match mode
    case General =>
      var l := Latency.TestLatencyResult(GeneralHost(), net.attempts);
      (l.average, l.jitter)
    case Content(domain) => (Latency.QuickPing(domain, net.attempts), Defaults.jitter)
  }

  function PingCall(mode: Mode): ProbeCall {
    if mode.General? then TestLatency else GetPing
  }

  /** The download stage's value and the probes it calls. A content test falls
      back to `HttpURLConnection` when OkHttp throws or reports 0. */
  function DownloadOutcome(mode: Mode, net: Network): (real, seq<ProbeCall>) {
    match mode
    case General =>
      (Throughput.DownloadResult(Throughput.UrlConnection, Throughput.GeneralCapMs, net.download), [GeneralDownload])
    case Content(_) =>
      var fallback := Throughput.DownloadResult(Throughput.UrlConnection, Throughput.ContentCapMs, net.fallbackDownload);
      if net.okHttpDownloadThrows then (fallback, [DownloadOkHttp, DownloadUrlConnection])
      else
        var primary := Throughput.DownloadResult(Throughput.OkHttp, Throughput.ContentCapMs, net.download);
        if primary == 0.0 then (fallback, [DownloadOkHttp, DownloadUrlConnection])
        else (primary, [DownloadOkHttp])
  }

  /** The upload stage's value and the probes it calls, with the same fallback. */
  function UploadOutcome(mode: Mode, net: Network): (Double, seq<ProbeCall>) {
    match mode
    case General =>
      (Throughput.UploadResult(Throughput.UrlConnection, Throughput.GeneralPayloadBytes, net.upload), [GeneralUpload])
    case Content(_) =>
      var fallback := Throughput.UploadResult(Throughput.UrlConnection, Throughput.ContentPayloadBytes, net.fallbackUpload);
      if net.okHttpUploadThrows then (fallback, [UploadOkHttp, UploadUrlConnection])
      else
        var primary := Throughput.UploadResult(Throughput.OkHttp, Throughput.ContentPayloadBytes, net.upload);
        if primary.IsZero() then (fallback, [UploadOkHttp, UploadUrlConnection])
        else (primary, [UploadOkHttp])
  }

  /** Everything a run produces: the result record, the progress records in
      publication order, and the probe calls in call order. */
  datatype Run = Run(fields: ResultFields, progress: seq<TestProgress>, calls: seq<ProbeCall>)

  /** A run, stage by stage: a stage that completes records its value, one that
      does not leaves the default. */
  function RunOf(mode: Mode, net: Network): Run {
    var f := FieldsOf(mode, net);
    Run(f, ProgressOf(net, f), CallsOf(mode, net))
  }

  /** The result record: a stage that completes records its value, one that does
      not leaves the default. */
  function FieldsOf(mode: Mode, net: Network): ResultFields {
    var p := PingOutcome(mode, net);
    ResultFields(
      if Completes(net, PingStage) then p.0 else Defaults.ping,
      if Completes(net, DownloadStage) then DownloadOutcome(mode, net).0 else Defaults.download,
      if Completes(net, UploadStage) then UploadOutcome(mode, net).0 else Defaults.upload,
      if Completes(net, PingStage) then p.1 else Defaults.jitter)
  }

  /** The progress records, stage by stage, given the final result record. */
  function ProgressOf(net: Network, f: ResultFields): seq<TestProgress> {
    StageLog(net, PingStage, f) + StageLog(net, DownloadStage, f) + StageLog(net, UploadStage, f)
  }

  /** The probe calls, stage by stage. */
  function CallsOf(mode: Mode, net: Network): seq<ProbeCall> {
    (if Completes(net, PingStage) then [PingCall(mode)] else [])
      + (if Completes(net, DownloadStage) then DownloadOutcome(mode, net).1 else [])
      + (if Completes(net, UploadStage) then UploadOutcome(mode, net).1 else [])
  }

  /** The records one stage publishes. */
  function StageLog(net: Network, s: Stage, f: ResultFields): seq<TestProgress> {
    (if Starts(net, s) then [Starting(s)] else []) + (if Completes(net, s) then [DoneRecord(s, f)] else [])
  }

  // ---------------------------------------------------------------------------
  // The task

  /** `TestResult`: created with its defaults, filled stage by stage. */
  class TestResult {
    var ping: int
    var download: real
    var upload: Double
    var jitter: int

    constructor ()
      ensures Fields() == Defaults
    {
      ping, download, upload, jitter := -1, 0.0, Finite(0.0), -1;
    }

    function Fields(): ResultFields
      reads this
    {
      ResultFields(ping, download, upload, jitter)
    }
  }

  /** `doInBackground`. Progress records are returned in publication order and the
      probe calls in call order. An interrupted pause ends the stage sequence, and
      the handler around it returns the record as it stands. */
  method DoInBackground(mode: Mode, net: Network)
    returns (result: TestResult, progress: seq<TestProgress>, calls: seq<ProbeCall>)
    requires |net.attempts| == AttemptsFor(mode)
    ensures fresh(result)
    ensures result.Fields() == FieldsOf(mode, net)
    ensures progress == ProgressOf(net, result.Fields())
    ensures calls == CallsOf(mode, net)
  {
    result := new TestResult();
    progress, calls := [Starting(PingStage)], [];
    if net.interruptedIn == Some(PingStage) {
      ProgressAfterPing(mode, net, result.Fields());
      return;
    }
    var ping, jitter, pingCall := MeasurePing(mode, net);
    result.ping := ping;
    if mode.General? {
      result.jitter := jitter;
    }
    calls := calls + [pingCall];
    progress := progress + [DoneRecord(PingStage, result.Fields())];
    var transferProgress, transferCalls := TransferStages(mode, net, result);
    ProgressAfterPing(mode, net, result.Fields());
    progress := progress + transferProgress;
    calls := calls + transferCalls;
  }

  /** The result, records and calls of a run, split after the latency stage. */
  lemma ProgressAfterPing(mode: Mode, net: Network, f: ResultFields)
    ensures !Completes(net, PingStage) ==> ProgressOf(net, f) == [Starting(PingStage)] && CallsOf(mode, net) == []
    ensures Completes(net, PingStage) ==>
      ProgressOf(net, f) == [Starting(PingStage), DoneRecord(PingStage, f)]
        + (StageLog(net, DownloadStage, f) + StageLog(net, UploadStage, f))
    ensures Completes(net, PingStage) ==>
      CallsOf(mode, net) == [PingCall(mode)]
        + ((if Completes(net, DownloadStage) then DownloadOutcome(mode, net).1 else [])
          + (if Completes(net, UploadStage) then UploadOutcome(mode, net).1 else []))
    ensures !Completes(net, PingStage) ==> FieldsOf(mode, net) == Defaults
    ensures Completes(net, PingStage) ==>
      FieldsOf(mode, net) == ResultFields(PingOutcome(mode, net).0,
        if Completes(net, DownloadStage) then DownloadOutcome(mode, net).0 else Defaults.download,
        if Completes(net, UploadStage) then UploadOutcome(mode, net).0 else Defaults.upload,
        if mode.General? then PingOutcome(mode, net).1 else Defaults.jitter)
  {
  }

  /** The download and upload stages of `doInBackground`, once the latency stage
      has completed: each announces itself, pauses, measures and publishes its
      value, and an interrupted pause ends the sequence. */
  method TransferStages(mode: Mode, net: Network, result: TestResult)
    returns (progress: seq<TestProgress>, calls: seq<ProbeCall>)
    requires Completes(net, PingStage)
    modifies result
    ensures result.ping == old(result.ping) && result.jitter == old(result.jitter)
    ensures result.download == if Completes(net, DownloadStage) then DownloadOutcome(mode, net).0 else old(result.download)
    ensures result.upload == if Completes(net, UploadStage) then UploadOutcome(mode, net).0 else old(result.upload)
    ensures progress == StageLog(net, DownloadStage, result.Fields()) + StageLog(net, UploadStage, result.Fields())
    ensures calls == (if Completes(net, DownloadStage) then DownloadOutcome(mode, net).1 else [])
      + (if Completes(net, UploadStage) then UploadOutcome(mode, net).1 else [])
  {
    progress, calls := [Starting(DownloadStage)], [];
    if net.interruptedIn == Some(DownloadStage) {
      return;
    }
    var download, downloadCalls := MeasureDownload(mode, net);
    result.download := download;
    calls := calls + downloadCalls;
    progress := progress + [DoneRecord(DownloadStage, result.Fields()), Starting(UploadStage)];
    if net.interruptedIn == Some(UploadStage) {
      return;
    }
    var upload, uploadCalls := MeasureUpload(mode, net);
    result.upload := upload;
    calls := calls + uploadCalls;
    progress := progress + [DoneRecord(UploadStage, result.Fields())];
  }

  /** The latency stage: the latency test against the reference host in a general
      test (ping and jitter), the quick ping of the domain otherwise (ping only;
      the caller leaves the jitter as it is). */
  method MeasurePing(mode: Mode, net: Network) returns (ping: int, jitter: int, call: ProbeCall)
    requires |net.attempts| == AttemptsFor(mode)
    ensures (ping, jitter) == PingOutcome(mode, net)
    ensures call == PingCall(mode)
  {
    if mode.General? {
      var latency := Latency.TestLatency(GeneralHost(), net.attempts);
      ping, jitter := latency.average, latency.jitter;
      call := TestLatency;
    } else {
      ping := Latency.GetPing(mode.domain, net.attempts);
      jitter := Defaults.jitter;
      call := GetPing;
    }
  }

  /** The download stage. In a content test the OkHttp value is kept when the call
      returns, and the `HttpURLConnection` value replaces it when the call threw
      or the value is 0. */
  method MeasureDownload(mode: Mode, net: Network) returns (download: real, calls: seq<ProbeCall>)
    ensures (download, calls) == DownloadOutcome(mode, net)
  {
    download := Defaults.download;
    if mode.General? {
      download := Throughput.TestGeneralDownloadSpeed(net.download);
      calls := [GeneralDownload];
    } else {
      var url := "https://" + mode.domain;
      var primary := Throughput.TestDownloadSpeedOkHttp(url, net.okHttpDownloadThrows, net.download);
      calls := [DownloadOkHttp];
      if primary.Some? {
        download := primary.value;
      }
      if primary.None? || download == 0.0 {
        download := Throughput.TestDownloadSpeed(url, net.fallbackDownload);
        calls := [DownloadOkHttp, DownloadUrlConnection];
      }
    }
  }

  /** The upload stage, with the same fallback as the download stage. */
  method MeasureUpload(mode: Mode, net: Network) returns (upload: Double, calls: seq<ProbeCall>)
    ensures (upload, calls) == UploadOutcome(mode, net)
  {
    upload := Defaults.upload;
    if mode.General? {
      var _, speed := Throughput.TestGeneralUploadSpeed(net.upload);
      upload := speed;
      calls := [GeneralUpload];
    } else {
      var _, primary := Throughput.TestUploadSpeedOkHttp(net.okHttpUploadThrows, net.upload);
      calls := [UploadOkHttp];
      if primary.Some? {
        upload := primary.value;
      }
      if primary.None? || upload.IsZero() {
        var _, speed := Throughput.TestUploadSpeed(net.fallbackUpload);
        upload := speed;
        calls := [UploadOkHttp, UploadUrlConnection];
      }
    }
  }

  // ---------------------------------------------------------------------------
  // Properties of a run

  /** Progress alternates: record 2k announces stage k with value -1, record 2k+1
      carries the value stage k stored in the result; all three stages appear, in
      the order ping, download, upload, unless a pause is interrupted, and then
      the run ends with the interrupted stage's announcement. */
  lemma ProgressAlternates(net: Network, f: ResultFields)
    ensures var log := ProgressOf(net, f);
      |log| == (if net.interruptedIn.None? then 6 else 2 * StageIndex(net.interruptedIn.value) + 1) &&
      forall j :: 0 <= j < |log| ==> log[j] == AlternateRecord(j, f)
  {
    var all := [Starting(PingStage), DoneRecord(PingStage, f), Starting(DownloadStage),
                DoneRecord(DownloadStage, f), Starting(UploadStage), DoneRecord(UploadStage, f)];
    assert forall j :: 0 <= j < 6 ==> all[j] == AlternateRecord(j, f) by {
      assert AlternateRecord(0, f) == all[0] && AlternateRecord(1, f) == all[1];
      assert AlternateRecord(2, f) == all[2] && AlternateRecord(3, f) == all[3];
      assert AlternateRecord(4, f) == all[4] && AlternateRecord(5, f) == all[5];
    }
    match net.interruptedIn
    case None => assert ProgressOf(net, f) == all;
    case Some(PingStage) => assert ProgressOf(net, f) == all[..1];
    case Some(DownloadStage) => assert ProgressOf(net, f) == all[..3];
    case Some(UploadStage) => assert ProgressOf(net, f) == all[..5];
  }

  /** Record `j` of a run: even places announce stage j / 2, odd places report it. */
  function AlternateRecord(j: nat, f: ResultFields): TestProgress
    requires j < 6
  {
    if j % 2 == 0 then Starting(StageAt(j / 2)) else DoneRecord(StageAt(j / 2), f)
  }

  /** The recorded download rate is never negative: each download loop reports a
      rate of at least zero, and the default is zero. */
  lemma DownloadNeverNegative(mode: Mode, net: Network)
    ensures FieldsOf(mode, net).download >= 0.0
  {
    Throughput.DownloadGate(Throughput.UrlConnection, Throughput.ContentCapMs, net.fallbackDownload);
    Throughput.DownloadGate(Throughput.OkHttp, Throughput.ContentCapMs, net.download);
    Throughput.DownloadGate(Throughput.UrlConnection, Throughput.GeneralCapMs, net.download);
  }

  /** A stage that does not complete leaves its fields, and those of every later
      stage, at the defaults. */
  lemma InterruptedStagesKeepDefaults(mode: Mode, net: Network)
    ensures var f := RunOf(mode, net).fields;
      (!Completes(net, PingStage) ==> f == Defaults) &&
      (!Completes(net, DownloadStage) ==> f.download == 0.0 && f.upload == Finite(0.0)) &&
      (!Completes(net, UploadStage) ==> f.upload == Finite(0.0))
  {
  }

  /** A run that is not interrupted reaches every stage, whatever the probes
      report: no probe failure ends the sequence. */
  lemma UninterruptedRunCompletes(mode: Mode, net: Network)
    requires net.interruptedIn.None?
    ensures var r := RunOf(mode, net);
      |r.progress| == 6 &&
      r.calls[0] == PingCall(mode) &&
      r.fields.download == DownloadOutcome(mode, net).0 &&
      r.fields.upload == UploadOutcome(mode, net).0
  {
  }

  /** A general test probes the reference host's latency and reports its average
      as the ping and its spread as the jitter; a content test reports the quick
      ping of the domain and leaves the jitter at -1. */
  lemma ModeSelectsPing(mode: Mode, net: Network)
    requires Completes(net, PingStage)
    ensures var f := RunOf(mode, net).fields;
      match mode
      case General =>
        var l := Latency.TestLatencyResult(GeneralHost(), net.attempts);
        f.ping == l.average && f.jitter == l.jitter
      case Content(domain) =>
        f.ping == Latency.QuickPing(domain, net.attempts) && f.jitter == -1
  {
  }

  /** In a general test the ping is the truncated mean of the round trips, so
      it lies between the smallest and the largest of them; the jitter is the
      difference of the running extremes, which start at Long.MAX_VALUE and 0,
      and is never negative. Both are -1 when no round trip was measured or a
      pause between attempts was interrupted. */
  lemma GeneralLatencyStage(net: Network)
    requires Completes(net, PingStage)
    ensures var f := FieldsOf(General, net);
      var s := Latency.Samples(net.attempts);
      var failed := Latency.Interrupted(net.attempts) || |s| == 0;
      (failed ==> f.ping == -1 && f.jitter == -1) &&
      (!failed ==>
        Latency.MinFrom(s[0], s) <= f.ping <= Latency.MaxFrom(s[0], s) &&
        Latency.MinFrom(LongMax, s) <= f.ping <= Latency.MaxFrom(0, s) &&
        f.jitter == Latency.MaxFrom(0, s) - Latency.MinFrom(LongMax, s) >= 0)
  {
    GeneralHostIsBare();
    Latency.TestLatencyMeaning(GeneralHost(), net.attempts);
    var s := Latency.Samples(net.attempts);
    if !Latency.Interrupted(net.attempts) && |s| > 0 {
      Latency.MinFromIsMinimum(s[0], s);
      Latency.MaxFromIsMaximum(s[0], s);
      Latency.MeanBetween(s, Latency.MinFrom(s[0], s), Latency.MaxFrom(s[0], s));
    }
  }

  /** A general test calls one probe per stage and never falls back. */
  lemma GeneralCallsOneProbePerStage(net: Network)
    ensures var r := RunOf(General, net);
      var k := if net.interruptedIn.None? then 3 else StageIndex(net.interruptedIn.value);
      r.calls == [TestLatency, GeneralDownload, GeneralUpload][..k]
  {
    var all := [TestLatency, GeneralDownload, GeneralUpload];
    assert all[..0] == [] && all[..1] == [TestLatency] && all[..2] == [TestLatency, GeneralDownload];
  }

  /** In a content test the `HttpURLConnection` download is called exactly when the
      OkHttp download throws or reports 0, and its value then replaces the
      primary's; otherwise the OkHttp value is kept. */
  lemma ContentDownloadFallback(domain: string, net: Network)
    requires Completes(net, DownloadStage)
    ensures var r := RunOf(Content(domain), net);
      var primary := Throughput.DownloadResult(Throughput.OkHttp, Throughput.ContentCapMs, net.download);
      var fellBack := net.okHttpDownloadThrows || primary == 0.0;
      (DownloadUrlConnection in r.calls <==> fellBack) &&
      DownloadOkHttp in r.calls &&
      r.fields.download == if fellBack
        then Throughput.DownloadResult(Throughput.UrlConnection, Throughput.ContentCapMs, net.fallbackDownload)
        else primary
  {
    var r := RunOf(Content(domain), net);
    var d := DownloadOutcome(Content(domain), net);
    var u := if Completes(net, UploadStage) then UploadOutcome(Content(domain), net).1 else [];
    assert r.calls == [GetPing] + d.1 + u;
    assert DownloadUrlConnection !in u;
  }

  /** The same fallback for the upload. */
  lemma ContentUploadFallback(domain: string, net: Network)
    requires Completes(net, UploadStage)
    ensures var r := RunOf(Content(domain), net);
      var primary := Throughput.UploadResult(Throughput.OkHttp, Throughput.ContentPayloadBytes, net.upload);
      var fellBack := net.okHttpUploadThrows || primary.IsZero();
      (UploadUrlConnection in r.calls <==> fellBack) &&
      UploadOkHttp in r.calls &&
      r.fields.upload == if fellBack
        then Throughput.UploadResult(Throughput.UrlConnection, Throughput.ContentPayloadBytes, net.fallbackUpload)
        else primary
  {
    var r := RunOf(Content(domain), net);
    var d := DownloadOutcome(Content(domain), net);
    var u := UploadOutcome(Content(domain), net);
    assert r.calls == [GetPing] + d.1 + u.1;
    assert UploadUrlConnection !in [GetPing] + d.1;
  }

  /** The final rating of an uninterrupted general test whose latency probe got no
      reply: the ping is the sentinel -1, so the rating depends on the download
      alone and is never Excellent. */
  lemma UnreachableGeneralRating(net: Network)
    requires net.interruptedIn.None?
    requires Latency.Samples(net.attempts) == []
    ensures var f := RunOf(General, net).fields;
      f.ping == -1 && f.jitter == -1 &&
      Quality.QualityRating(f.download, f.ping) != Quality.Excellent &&
      (f.download >= 10.0 ==> Quality.QualityRating(f.download, f.ping) == Quality.Good)
  {
  }
}
