/** The download and upload probes of the measurement engine. Each HTTP exchange
    is an input: the response code, the clock readings, and what each read of the
    response body delivered. */
module Throughput {
  import opened Numbers

  /** Cap on the content-test downloads (`DOWNLOAD_TEST_DURATION_MS`). */
  const ContentCapMs: int := 8000
  /** Cap on the general-test download. */
  const GeneralCapMs: int := 12000
  /** Upload payloads: 512 KiB (`1024 * UPLOAD_TEST_SIZE_KB`) and 1 MiB. */
  const ContentPayloadBytes: nat := 1024 * 512
  const GeneralPayloadBytes: nat := 1024 * 1024
  /** `HttpURLConnection.HTTP_OK` */
  const HttpOk: int := 200

  /** The two HTTP clients: `HttpURLConnection` and OkHttp. */
  datatype Client = UrlConnection | OkHttp

  /** One `read(buffer)` on the response body: some bytes, read when the clock
      showed `time`; end of stream (-1); or an exception (a read timeout, say). */
  datatype Read = Chunk(count: nat, time: int) | EndOfStream | ReadFailed

  /** A download exchange: the response code, whether OkHttp saw a body, the clock
      when reading starts, the successive reads of the body (past the last one the
      stream reports end of stream), and the clock when reading is over; or a failure before any of it
      (connect error, DNS failure, TLS failure). */
  datatype Download =
    | Download(code: int, hasBody: bool, start: int, stream: seq<Read>, end: int)
    | DownloadFailed

  /** An upload exchange: the response code and the clock readings around the
      write-and-wait; or a failure before the response arrives. */
  datatype Upload = Upload(code: int, start: int, end: int) | UploadFailed

  /** The download probe's acceptance test: HTTP 200 for `HttpURLConnection`;
      `isSuccessful()` (2xx) with a non-null body for OkHttp. */
  predicate AcceptsDownload(client: Client, code: int, hasBody: bool) {
    match client
    case UrlConnection => code == HttpOk
    case OkHttp => 200 <= code < 300 && hasBody
  }

  /** The upload probe's acceptance test: HTTP 200, or `isSuccessful()` for OkHttp. */
  predicate AcceptsUpload(client: Client, code: int) {
    match client
    case UrlConnection => code == HttpOk
    case OkHttp => 200 <= code < 300
  }

  // ---------------------------------------------------------------------------
  // The capped read loop

  /** Reading stops at this read: it is not data, or it is data read after the cap. */
  predicate StopsAt(r: Read, start: int, capMs: int) {
    !r.Chunk? || r.time - start > capMs
  }

  /** The bytes the loop counts, as a recursive reference definition: every chunk
      up to and including the first one read after the cap, or up to the end of
      the stream; `None` if a read throws first. */
  function Drain(stream: seq<Read>, start: int, capMs: int): Option<nat> {
    if stream == [] then Some(0)
    else match stream[0]
      case EndOfStream => Some(0)
      case ReadFailed => None
      case Chunk(n, t) =>
        if t - start > capMs then Some(n)
        else match Drain(stream[1..], start, capMs)
          case None => None
          case Some(rest) => Some(n + rest)
  }

  function AddTo(total: nat, d: Option<nat>): Option<nat> {
    match d
    case None => None
    case Some(rest) => Some(total + rest)
  }

  /** The read loop shared by the three downloads:
      `while ((read = in.read(buffer)) != -1) { totalBytes += read;
       if (now - startTime > cap) break; }`.
      `None` when a read throws out of the loop. */
  method ReadCapped(stream: seq<Read>, start: int, capMs: int) returns (totalBytes: Option<nat>)
    ensures totalBytes == Drain(stream, start, capMs)
  {
    var total: nat := 0;
    var i := 0;
    while i < |stream|
      invariant 0 <= i <= |stream|
      invariant Drain(stream, start, capMs) == AddTo(total, Drain(stream[i..], start, capMs))
    {
      assert stream[i..][1..] == stream[i + 1..];
      match stream[i]
      case EndOfStream =>
        return Some(total);
      case ReadFailed =>
        return None;
      case Chunk(n, now) =>
        total := total + n;
        if now - start > capMs {
          return Some(total);
        }
      i := i + 1;
    }
    return Some(total);
  }

  /** The first read at which the loop stops, or `|stream|` when none does. */
  function StopIndex(stream: seq<Read>, start: int, capMs: int): (k: nat)
    ensures k <= |stream|
    ensures forall j :: 0 <= j < k ==> !StopsAt(stream[j], start, capMs)
    ensures k < |stream| ==> StopsAt(stream[k], start, capMs)
  {
    if stream == [] || StopsAt(stream[0], start, capMs) then 0
    else 1 + StopIndex(stream[1..], start, capMs)
  }

  function SumCounts(stream: seq<Read>): nat {
    if stream == [] then 0
    else (if stream[0].Chunk? then stream[0].count else 0) + SumCounts(stream[1..])
  }

  /** The reads the loop consumes and counts: through the stopping read when that
      is a chunk read after the cap, otherwise up to it. */
  function Counted(stream: seq<Read>, start: int, capMs: int): nat {
    var k := StopIndex(stream, start, capMs);
    if k < |stream| && stream[k].Chunk? then k + 1 else k
  }

  /** The read loop counts exactly the chunks before the stopping read, plus that
      read's bytes when it is the first chunk read after the cap; every chunk but
      the last one counted was read within the cap; it fails exactly when the
      stopping read throws. So a stream that never ends is read no further than
      the first chunk past the cap. */
  lemma {:induction false} DrainCountsUpToCap(stream: seq<Read>, start: int, capMs: int)
    ensures var k := StopIndex(stream, start, capMs);
      Drain(stream, start, capMs) ==
        if k < |stream| && stream[k].ReadFailed? then None
        else Some(SumCounts(stream[..Counted(stream, start, capMs)]))
    ensures forall j :: 0 <= j < StopIndex(stream, start, capMs) ==>
      stream[j].Chunk? && stream[j].time - start <= capMs
  {
    if stream != [] {
      var k := StopIndex(stream, start, capMs);
      if StopsAt(stream[0], start, capMs) {
        assert k == 0;
        if stream[0].Chunk? {
          assert stream[..1] == [stream[0]];
          assert SumCounts(stream[..1]) == stream[0].count + SumCounts([]);
        }
      } else {
        var rest := stream[1..];
        DrainCountsUpToCap(rest, start, capMs);
        assert k == 1 + StopIndex(rest, start, capMs);
        var c := Counted(rest, start, capMs);
        assert Counted(stream, start, capMs) == c + 1;
        assert stream[..c + 1][1..] == rest[..c];
        assert k < |stream| ==> stream[k] == rest[k - 1];
      }
    }
  }

  /** Chunks read after a stopping read are never counted: changing them does not
      change what the loop returns. */
  lemma {:induction false} DrainIgnoresLaterReads(stream: seq<Read>, more: seq<Read>, start: int, capMs: int)
    requires StopIndex(stream, start, capMs) < |stream|
    ensures Drain(stream + more, start, capMs) == Drain(stream, start, capMs)
  {
    if !StopsAt(stream[0], start, capMs) {
      assert (stream + more)[1..] == stream[1..] + more;
      DrainIgnoresLaterReads(stream[1..], more, start, capMs);
    }
  }

  // ---------------------------------------------------------------------------
  // Rates

  /** `durationSec = (endTime - startTime) / 1000.0` */
  function DurationSec(start: int, end: int): real {
    (end - start) as real / 1000.0
  }

  /** A download's rate: `(totalBytes * 8.0) / (durationSec * 1_000_000.0)` when
      `durationSec > 0 && totalBytes > 0`, else 0. */
  function DownloadRate(totalBytes: nat, start: int, end: int): real {
    var durationSec := DurationSec(start, end);
    if durationSec > 0.0 && totalBytes > 0
    then (totalBytes as real * 8.0) / (durationSec * 1000000.0)
    else 0.0
  }

  /** An upload's rate `sizeMb / durationSec`, not guarded: a zero duration gives
      positive infinity, a negative one (the clock stepped back) a negative rate. */
  function UploadRate(sizeBytes: nat, start: int, end: int): Double
    requires sizeBytes > 0
  {
    var durationSec := DurationSec(start, end);
    var sizeMb := (sizeBytes as real * 8.0) / 1000000.0;
    if durationSec == 0.0 then PositiveInfinity else Finite(sizeMb / durationSec)
  }

  /** What a download probe returns for an exchange. */
  function DownloadResult(client: Client, capMs: int, d: Download): real {
    match d
    case DownloadFailed => 0.0
    case Download(code, hasBody, start, stream, end) =>
      if !AcceptsDownload(client, code, hasBody) then 0.0
      else match Drain(stream, start, capMs)
        case None => 0.0
        case Some(totalBytes) => DownloadRate(totalBytes, start, end)
  }

  /** What an upload probe returns for an exchange. */
  function UploadResult(client: Client, sizeBytes: nat, u: Upload): Double
    requires sizeBytes > 0
  {
    match u
    case UploadFailed => Finite(0.0)
    case Upload(code, start, end) =>
      if AcceptsUpload(client, code) then UploadRate(sizeBytes, start, end) else Finite(0.0)
  }

  /** The exact rate: bytes * 8 over the elapsed microseconds. */
  lemma DownloadRateFormula(totalBytes: nat, start: int, end: int)
    requires end > start && totalBytes > 0
    ensures DownloadRate(totalBytes, start, end) ==
      (totalBytes * 8) as real / ((end - start) * 1000) as real
    ensures DownloadRate(totalBytes, start, end) > 0.0
  {
    var d := (end - start) as real;
    assert DurationSec(start, end) * 1000000.0 == d * 1000.0;
  }

  /** A download reports a non-zero rate exactly when the response was accepted,
      the body was read without an exception, the clock advanced and some bytes
      arrived; the rate is then positive, and otherwise it is 0. */
  lemma DownloadGate(client: Client, capMs: int, d: Download)
    ensures DownloadResult(client, capMs, d) >= 0.0
    ensures DownloadResult(client, capMs, d) != 0.0 <==>
      d.Download? && AcceptsDownload(client, d.code, d.hasBody) &&
      Drain(d.stream, d.start, capMs).Some? &&
      d.end > d.start && Drain(d.stream, d.start, capMs).value > 0
  {
    if d.Download? && AcceptsDownload(client, d.code, d.hasBody) {
      match Drain(d.stream, d.start, capMs)
      case None =>
      case Some(b) =>
        if d.end > d.start && b > 0 {
          DownloadRateFormula(b, d.start, d.end);
        }
    }
  }

  /** An upload reports something other than 0 only for an accepted response;
      an accepted one timed over a positive interval reports a positive finite rate. */
  lemma UploadGate(client: Client, sizeBytes: nat, u: Upload)
    requires sizeBytes > 0
    ensures UploadResult(client, sizeBytes, u) != Finite(0.0) ==>
      u.Upload? && AcceptsUpload(client, u.code)
    ensures u.Upload? && AcceptsUpload(client, u.code) && u.end > u.start ==>
      var r := UploadResult(client, sizeBytes, u);
      r.Finite? && r.value > 0.0 &&
      r.value == (sizeBytes * 8) as real / ((u.end - u.start) * 1000) as real
    ensures u.Upload? && AcceptsUpload(client, u.code) && u.end == u.start ==>
      UploadResult(client, sizeBytes, u) == PositiveInfinity
  {
    if u.Upload? && AcceptsUpload(client, u.code) && u.end > u.start {
      var d := (u.end - u.start) as real;
      var sizeMb := (sizeBytes as real * 8.0) / 1000000.0;
      assert sizeMb / (d / 1000.0) == (sizeBytes * 8) as real / ((u.end - u.start) * 1000) as real;
    }
  }

  /** OkHttp accepts every response `HttpURLConnection` accepts (given a body), and
      also the other 2xx codes. */
  lemma AcceptanceNesting(code: int, hasBody: bool)
    ensures AcceptsDownload(UrlConnection, code, hasBody) && hasBody ==>
      AcceptsDownload(OkHttp, code, hasBody)
    ensures AcceptsDownload(OkHttp, 204, true) && !AcceptsDownload(UrlConnection, 204, true)
    ensures AcceptsUpload(UrlConnection, code) ==> AcceptsUpload(OkHttp, code)
  {
  }

  // ---------------------------------------------------------------------------
  // The probes

  /** `testDownloadSpeed(url)`: fetches the fixed 10 MB reference file whatever
      `url` says, with `HttpURLConnection` and the 8-second cap. */
  method TestDownloadSpeed(url: string, d: Download) returns (mbps: real)
    ensures mbps == DownloadResult(UrlConnection, ContentCapMs, d)
  {
    mbps := Probe(UrlConnection, ContentCapMs, d);
  }

  /** `testGeneralDownloadSpeed()`: the 25 MB reference file, `HttpURLConnection`,
      the 12-second cap. */
  method TestGeneralDownloadSpeed(d: Download) returns (mbps: real)
    ensures mbps == DownloadResult(UrlConnection, GeneralCapMs, d)
  {
    mbps := Probe(UrlConnection, GeneralCapMs, d);
  }

  /** `testDownloadSpeedOkHttp(url)`: the fixed 10 MB reference file whatever `url`
      says, with OkHttp and the 8-second cap. Building the client and the request
      happens outside the method's handler; if that throws, the exception reaches
      the caller (`None`). */
  method TestDownloadSpeedOkHttp(url: string, setupThrows: bool, d: Download) returns (mbps: Option<real>)
    ensures mbps == if setupThrows then None else Some(DownloadResult(OkHttp, ContentCapMs, d))
  {
    if setupThrows {
      return None;
    }
    var r := Probe(OkHttp, ContentCapMs, d);
    return Some(r);
  }

  /** The body shared by the three downloads: gate on the response, read under the
      cap, gate on the duration and the byte count. */
  method Probe(client: Client, capMs: int, d: Download) returns (mbps: real)
    ensures mbps == DownloadResult(client, capMs, d)
  {
    if d.DownloadFailed? || !AcceptsDownload(client, d.code, d.hasBody) {
      return 0.0;
    }
    var totalBytes := ReadCapped(d.stream, d.start, capMs);
    if totalBytes.None? {
      return 0.0;  // the read threw; the handler answers 0
    }
    var durationSec := DurationSec(d.start, d.end);
    if durationSec > 0.0 && totalBytes.value > 0 {
      return (totalBytes.value as real * 8.0) / (durationSec * 1000000.0);
    }
    return 0.0;
  }

  /** Byte `i` of the synthetic payload: `(byte) (i % 256)`, as a bit pattern. */
  function PayloadByte(i: nat): bv8 {
    (i % 256) as bv8
  }

  /** `byte[] data = new byte[size]; for (i ...) data[i] = (byte) (i % 256);` */
  method FillPayload(size: nat) returns (data: array<bv8>)
    ensures fresh(data) && data.Length == size
    ensures forall i :: 0 <= i < size ==> data[i] == PayloadByte(i)
  {
    data := new bv8[size];
    var i := 0;
    while i < data.Length
      invariant 0 <= i <= data.Length
      invariant forall j :: 0 <= j < i ==> data[j] == PayloadByte(j)
    {
      data[i] := PayloadByte(i);
      i := i + 1;
    }
  }

  /** The upload shared by the three probes: build the payload, post it, gate on
      the response code. The posted body is returned beside the rate. */
  method PostPayload(client: Client, size: nat, u: Upload) returns (body: seq<bv8>, speed: Double)
    requires size > 0
    ensures |body| == size && forall i :: 0 <= i < size ==> body[i] == PayloadByte(i)
    ensures speed == UploadResult(client, size, u)
  {
    var data := FillPayload(size);
    body := data[..];
    if u.UploadFailed? || !AcceptsUpload(client, u.code) {
      return body, Finite(0.0);
    }
    var durationSec := DurationSec(u.start, u.end);
    var sizeMb := (data.Length as real * 8.0) / 1000000.0;
    speed := if durationSec == 0.0 then PositiveInfinity else Finite(sizeMb / durationSec);
  }

  /** `testUploadSpeed()`: 512 KiB with `HttpURLConnection`. */
  method TestUploadSpeed(u: Upload) returns (body: seq<bv8>, speed: Double)
    ensures |body| == ContentPayloadBytes && forall i :: 0 <= i < |body| ==> body[i] == PayloadByte(i)
    ensures speed == UploadResult(UrlConnection, ContentPayloadBytes, u)
  {
    body, speed := PostPayload(UrlConnection, ContentPayloadBytes, u);
  }

  /** `testGeneralUploadSpeed()`: 1 MiB with `HttpURLConnection`. */
  method TestGeneralUploadSpeed(u: Upload) returns (body: seq<bv8>, speed: Double)
    ensures |body| == GeneralPayloadBytes && forall i :: 0 <= i < |body| ==> body[i] == PayloadByte(i)
    ensures speed == UploadResult(UrlConnection, GeneralPayloadBytes, u)
  {
    body, speed := PostPayload(UrlConnection, GeneralPayloadBytes, u);
  }

  /** `testUploadSpeedOkHttp()`: 512 KiB with OkHttp. Building the client happens
      outside the method's handler; if that throws, the exception reaches the
      caller (`None`) and nothing is posted. */
  method TestUploadSpeedOkHttp(setupThrows: bool, u: Upload) returns (body: seq<bv8>, speed: Option<Double>)
    ensures !setupThrows ==>
      |body| == ContentPayloadBytes && forall i :: 0 <= i < |body| ==> body[i] == PayloadByte(i)
    ensures speed == if setupThrows then None else Some(UploadResult(OkHttp, ContentPayloadBytes, u))
  {
    if setupThrows {
      return [], None;
    }
    var s;
    body, s := PostPayload(OkHttp, ContentPayloadBytes, u);
    speed := Some(s);
  }
}
