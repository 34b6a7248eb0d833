/** The result screen (`ResultActivity`): the status line, the per-metric value
    views, the jitter view, the quality rating and the summary, as the progress
    records and the final result arrive. */
module ResultScreen {
  import opened Numbers
  import opened SpeedTestTask
  import Quality

  /** The status line: a message, or the summary shown once a test ends (test
      type, network type, and the jitter line when there is one). */
  datatype Status = Message(text: string) | Summary(testType: string, network: string, jitter: Option<int>)

  /** What the screen shows. */
  datatype Display = Display(
    status: Status,
    pingValue: Text,
    downloadValue: Text,
    uploadValue: Text,
    jitterValue: Text,
    qualityRating: string,
    showingResults: bool)

  /** The screen as `onCreate` leaves it: the value views keep their layout text
      (modelled as `Blank`) and the results are hidden. */
  function Initial(service: string): Display {
    Display(Message("Preparing to test " + service + "...\nPlease wait..."), Blank, Blank, Blank, Blank, "", false)
  }

  /** `onProgressUpdate` for one record: the status line shows its message, and
      the stage's value view shows its display text only when its value is at
      least 0. */
  function Shown(v: Display, p: TestProgress): (w: Display)
    ensures w.status == Message(p.message)
    ensures w.jitterValue == v.jitterValue && w.qualityRating == v.qualityRating
    ensures w.showingResults == v.showingResults
  {
    var show := p.value.AtLeastZero();
    v.(status := Message(p.message),
       pingValue := if show && p.testType == PingStage then p.displayValue else v.pingValue,
       downloadValue := if show && p.testType == DownloadStage then p.displayValue else v.downloadValue,
       uploadValue := if show && p.testType == UploadStage then p.displayValue else v.uploadValue)
  }

  /** The records of a run applied in publication order. */
  function Replay(v: Display, ps: seq<TestProgress>): Display
    decreases |ps|
  {
    if ps == [] then v else Replay(Shown(v, ps[0]), ps[1..])
  }

  /** `onPostExecute`: every value view is rewritten from the result, "Failed"
      standing for a negative ping; the jitter view only in a general test with a
      measured jitter; the rating from the download and the ping. */
  function Finished(v: Display, general: bool, service: string, network: string, f: ResultFields): Display {
    var jitterShown := general && f.jitter >= 0;
    Display(
      Summary(if general then "General Mobile Data" else service, network, if jitterShown then Some(f.jitter) else None),
      if f.ping >= 0 then Millis(f.ping) else FailedText,
      Megabits(Finite(f.download)),
      Megabits(f.upload),
      if jitterShown then Millis(f.jitter) else v.jitterValue,
      Quality.Label(Quality.QualityRating(f.download, f.ping)),
      true)
  }

  class Screen {
    const general: bool
    const service: string
    var testInfo: string
    var status: Status
    var pingValue: Text
    var downloadValue: Text
    var uploadValue: Text
    var jitterValue: Text
    var qualityRating: string
    var showingResults: bool

    function Current(): Display
      reads this
    {
      Display(status, pingValue, downloadValue, uploadValue, jitterValue, qualityRating, showingResults)
    }

    /** `onCreate`, with the network type supplied by the caller. */
    constructor (mode: Mode, service: string, network: string)
      ensures general == mode.General? && this.service == service
      ensures testInfo == "Testing on " + network
      ensures Current() == Initial(service)
    {
      general := mode.General?;
      this.service := service;
      testInfo := "Testing on " + network;
      status := Message("Preparing to test " + service + "...\nPlease wait...");
      pingValue, downloadValue, uploadValue, jitterValue := Blank, Blank, Blank, Blank;
      qualityRating := "";
      showingResults := false;
    }

    /** `onProgressUpdate`: only the first record counts. */
    method OnProgressUpdate(values: seq<TestProgress>)
      modifies this
      ensures values == [] ==> Current() == old(Current())
      ensures values != [] ==> Current() == Shown(old(Current()), values[0])
      ensures testInfo == old(testInfo)
    {
      if |values| > 0 {
        var progress := values[0];
        status := Message(progress.message);
        if progress.value.AtLeastZero() {
          match progress.testType
          case PingStage => pingValue := progress.displayValue;
          case DownloadStage => downloadValue := progress.displayValue;
          case UploadStage => uploadValue := progress.displayValue;
        }
      }
    }

    /** `onPostExecute`, with the network type supplied by the caller. */
    method OnPostExecute(result: TestResult, network: string)
      modifies this
      ensures Current() == Finished(old(Current()), general, service, network, result.Fields())
      ensures testInfo == old(testInfo)
    {
      pingValue := if result.ping >= 0 then Millis(result.ping) else FailedText;
      downloadValue := Megabits(Finite(result.download));
      uploadValue := Megabits(result.upload);
      if general && result.jitter >= 0 {
        jitterValue := Millis(result.jitter);
      }
      qualityRating := Quality.Label(Quality.QualityRating(result.download, result.ping));
      var jitterLine := if general && result.jitter >= 0 then Some(result.jitter) else None;
      status := Summary(if general then "General Mobile Data" else service, network, jitterLine);
      showingResults := true;
    }

    /** The retry button: hides the results and announces the restart; the new
        run is `DoInBackground` again. */
    method Retry()
      modifies this
      ensures Current() == old(Current()).(status := Message("Restarting test..."), showingResults := false)
      ensures testInfo == old(testInfo)
    {
      showingResults := false;
      status := Message("Restarting test...");
    }
  }

  // ---------------------------------------------------------------------------
  // Properties of the screen

  /** Applying two batches of records is applying their concatenation. */
  lemma {:induction false} ReplayAppend(v: Display, a: seq<TestProgress>, b: seq<TestProgress>)
    ensures Replay(v, a + b) == Replay(Replay(v, a), b)
    decreases |a|
  {
    if a == [] {
      assert a + b == b;
    } else {
      assert (a + b)[0] == a[0];
      assert (a + b)[1..] == a[1..] + b;
      ReplayAppend(Shown(v, a[0]), a[1..], b);
    }
  }

  /** A record announcing a stage never writes a value view. */
  lemma StartingShowsNoValue(v: Display, s: Stage)
    ensures var w := Shown(v, Starting(s));
      w.pingValue == v.pingValue && w.downloadValue == v.downloadValue && w.uploadValue == v.uploadValue
  {
  }

  /** While a test runs, each value view shows the stage's value once the stage
      completes, except a negative ping (the failure sentinel) and a negative
      upload rate, which leave the view as it was; the jitter view and the
      rating are untouched; the status line ends with the last record's message:
      empty after a completed stage, the announcement of an interrupted one. */
  lemma ReplayRun(mode: Mode, net: Network, v: Display)
    ensures var r := RunOf(mode, net);
      var f := r.fields;
      var w := Replay(v, r.progress);
      w.pingValue == (if Completes(net, PingStage) && f.ping >= 0 then Millis(f.ping) else v.pingValue) &&
      w.downloadValue == (if Completes(net, DownloadStage) then Megabits(Finite(f.download)) else v.downloadValue) &&
      w.uploadValue == (if Completes(net, UploadStage) && f.upload.AtLeastZero() then Megabits(f.upload) else v.uploadValue) &&
      w.jitterValue == v.jitterValue && w.qualityRating == v.qualityRating &&
      w.showingResults == v.showingResults &&
      w.status == Message(if net.interruptedIn.None? then "" else StartMessage(net.interruptedIn.value))
  {
    DownloadNeverNegative(mode, net);
    ReplayProgress(v, net, FieldsOf(mode, net));
  }

  /** `ReplayRun` for any result record whose download rate is not negative. */
  lemma ReplayProgress(v: Display, net: Network, f: ResultFields)
    requires f.download >= 0.0
    ensures var w := Replay(v, ProgressOf(net, f));
      w.pingValue == (if Completes(net, PingStage) && f.ping >= 0 then Millis(f.ping) else v.pingValue) &&
      w.downloadValue == (if Completes(net, DownloadStage) then Megabits(Finite(f.download)) else v.downloadValue) &&
      w.uploadValue == (if Completes(net, UploadStage) && f.upload.AtLeastZero() then Megabits(f.upload) else v.uploadValue) &&
      w.jitterValue == v.jitterValue && w.qualityRating == v.qualityRating &&
      w.showingResults == v.showingResults &&
      w.status == Message(if net.interruptedIn.None? then "" else StartMessage(net.interruptedIn.value))
  {
    var lp, ld, lu := StageLog(net, PingStage, f), StageLog(net, DownloadStage, f), StageLog(net, UploadStage, f);
    ReplayAppend(v, lp, ld);
    ReplayAppend(v, lp + ld, lu);
    ReplayStageLog(v, net, PingStage, f);
    ReplayStageLog(Replay(v, lp), net, DownloadStage, f);
    ReplayStageLog(Replay(v, lp + ld), net, UploadStage, f);
  }

  /** The records of one stage, applied: nothing when the stage never starts,
      its announcement, then its value when it completes. */
  lemma ReplayStageLog(v: Display, net: Network, s: Stage, f: ResultFields)
    ensures Replay(v, StageLog(net, s, f)) ==
      if !Starts(net, s) then v
      else if !Completes(net, s) then Shown(v, Starting(s))
      else Shown(Shown(v, Starting(s)), DoneRecord(s, f))
  {
    var log := StageLog(net, s, f);
    if Completes(net, s) {
      var w := Shown(v, Starting(s));
      assert log == [Starting(s), DoneRecord(s, f)];
      assert log[1..] == [DoneRecord(s, f)];
      assert [DoneRecord(s, f)][1..] == [];
      assert Replay(w, [DoneRecord(s, f)]) == Replay(Shown(w, DoneRecord(s, f)), []);
    } else if Starts(net, s) {
      assert log == [Starting(s)];
      assert log[1..] == [];
    }
  }

  /** The screen a run ends on: whatever happened, `onPostExecute` shows every
      metric; a run whose first pause was interrupted shows "Failed", 0 Mbps both
      ways and the lowest rating. */
  lemma InterruptedRunScreen(mode: Mode, service: string, network: string, net: Network, v: Display)
    requires net.interruptedIn == Some(PingStage)
    ensures var w := Finished(Replay(v, RunOf(mode, net).progress), mode.General?, service, network, RunOf(mode, net).fields);
      w.pingValue == FailedText &&
      w.downloadValue == Megabits(Finite(0.0)) && w.uploadValue == Megabits(Finite(0.0)) &&
      w.jitterValue == v.jitterValue &&
      w.qualityRating == Quality.Label(Quality.VeryPoor) &&
      w.status == Summary(if mode.General? then "General Mobile Data" else service, network, None)
  {
    ReplayRun(mode, net, v);
  }

  /** A content test never shows a jitter: the view keeps its layout text through
      the whole run and the summary has no jitter line. */
  lemma ContentShowsNoJitter(domain: string, service: string, network: string, net: Network)
    ensures var r := RunOf(Content(domain), net);
      var w := Finished(Replay(Initial(service), r.progress), false, service, network, r.fields);
      w.jitterValue == Blank && w.status.jitter.None?
  {
    ReplayRun(Content(domain), net, Initial(service));
  }

  /** The final ping view reads "Failed" exactly when the result's ping is
      negative, and otherwise shows the ping. */
  lemma FailedExactlyForNegativePing(v: Display, general: bool, service: string, network: string, f: ResultFields)
    ensures var w := Finished(v, general, service, network, f);
      (w.pingValue == FailedText <==> f.ping < 0) && (f.ping >= 0 ==> w.pingValue == Millis(f.ping))
  {
  }
}
