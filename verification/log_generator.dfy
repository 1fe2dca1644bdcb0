/**
 * The synthetic log generator of app/tools/log_generator.py
 * (`generate_test_logs`): a scenario body chosen by profile, padded with
 * heartbeat lines up to the requested length, joined with newlines, and
 * returned with the profile's ground truth.
 *
 * The clock is a parameter `ts` from a second offset to the formatted
 * timestamp, and the random generator is a parameter `draw` giving the
 * underlying draw for each call: iteration `i` of the nginx loop uses draw
 * `2 * i` for `rnd.choices` and draw `2 * i + 1` for `rnd.randint`.
 */
module LogGenerator {
  import opened Wrappers
  import opened Text

  // -----------------------------------------------------------------------
  // Data model
  // -----------------------------------------------------------------------

  /** The scenario profiles the generator knows, each with the name callers pass. */
  datatype Profile = PythonTraceback | NodeUnhandledRejection | JavaNullPointer | Nginx5xx | K8sCrashloop | DbConnectionTimeout {
    function Name(): string {
      match this
      case PythonTraceback => "python-traceback"
      case NodeUnhandledRejection => "node-unhandled-rejection"
      case JavaNullPointer => "java-null-pointer"
      case Nginx5xx => "nginx-5xx"
      case K8sCrashloop => "k8s-crashloop"
      case DbConnectionTimeout => "db-connection-timeout"
    }
  }

  /** The `ground_truth` dictionary: root cause, severity and tags. */
  datatype GroundTruth = GroundTruth(rootCause: Option<string>, severity: string, tags: seq<string>)

  /** The dictionary `generate_test_logs` returns. */
  datatype SyntheticLog = SyntheticLog(logText: string, groundTruth: GroundTruth, profile: string)

  /** The ground truth before any profile updates it. */
  const DefaultTruth := GroundTruth(None, "medium", [])

  /** The profile a caller's string selects; any other string selects none. */
  function ProfileOf(name: string): (r: Option<Profile>)
    ensures r.Some? ==> r.value.Name() == name
    ensures r.None? ==> forall p: Profile :: p.Name() != name
  {
    if name == "python-traceback" then Some(PythonTraceback)
    else if name == "node-unhandled-rejection" then Some(NodeUnhandledRejection)
    else if name == "java-null-pointer" then Some(JavaNullPointer)
    else if name == "nginx-5xx" then Some(Nginx5xx)
    else if name == "k8s-crashloop" then Some(K8sCrashloop)
    else if name == "db-connection-timeout" then Some(DbConnectionTimeout)
    else None
  }

  const PythonTruth := GroundTruth(Some("Unhandled Python exception (KeyError)"), "high", ["exception", "python"])
  const NodeTruth := GroundTruth(Some("UnhandledPromiseRejection (TypeError)"), "high", ["exception", "node"])
  const JavaTruth := GroundTruth(Some("NullPointerException in OrderService"), "critical", ["exception", "java"])
  const NginxTruth := GroundTruth(Some("Backend 5xx spikes under load"), "high", ["http", "latency"])
  const K8sTruth := GroundTruth(Some("Container OOM leading to CrashLoopBackOff"), "high", ["k8s", "oom"])
  const DbTruth := GroundTruth(Some("Database connection timeout / pool exhaustion"), "medium", ["db", "timeout"])

  /** The ground truth each profile sets with `truth.update`, which replaces all three keys. */
  function Truth(kind: Option<Profile>): GroundTruth {
    match kind
    case None => DefaultTruth
    case Some(PythonTraceback) => PythonTruth
    case Some(NodeUnhandledRejection) => NodeTruth
    case Some(JavaNullPointer) => JavaTruth
    case Some(Nginx5xx) => NginxTruth
    case Some(K8sCrashloop) => K8sTruth
    case Some(DbConnectionTimeout) => DbTruth
  }

  // -----------------------------------------------------------------------
  // Fixed scenario bodies; the texts that follow a timestamp start with a space
  // -----------------------------------------------------------------------

  const PyHandlerError := " ERROR app: Unhandled exception in request handler"
  const PyTraceHeader := "Traceback (most recent call last):"
  const PyFrame := "  File \"server.py\", line 87, in handle_request"
  const PySource := "    user = row['name']  # KeyError below"
  const PyKeyError := "KeyError: 'name'"

  function PythonTracebackBody(ts: int -> string): seq<string> {
    [ts(0) + PyHandlerError, PyTraceHeader, PyFrame, PySource, PyKeyError]
  }

  const NodeRetry := " WARN api: retry attempt=1 route=/checkout"
  const NodeTimeout := " ERROR api: TimeoutError: request to https://payments.example.com timed out"
  const NodeRequestFrame := "    at Request._callback (request.js:42:13)"
  const NodeRejection := " ERROR api: UnhandledPromiseRejectionWarning: TypeError: Cannot read properties of undefined (reading 'total')"
  const NodeServiceFrame := "    at CheckoutService.calculate (service.js:101:9)"

  function NodeRejectionBody(ts: int -> string): seq<string> {
    [ts(0) + NodeRetry, ts(1) + NodeTimeout, NodeRequestFrame, ts(2) + NodeRejection, NodeServiceFrame]
  }

  const JavaProcessing := " INFO OrderService - processing order id=123"
  const JavaNpe := " ERROR OrderService - java.lang.NullPointerException: Cannot invoke \"String.length()\" because \"customerId\" is null"
  const JavaValidateFrame := "    at com.acme.order.OrderService.validate(OrderService.java:58)"
  const JavaSubmitFrame := "    at com.acme.order.OrderService.submit(OrderService.java:112)"

  function JavaNullPointerBody(ts: int -> string): seq<string> {
    [ts(0) + JavaProcessing, ts(1) + JavaNpe, JavaValidateFrame, JavaSubmitFrame]
  }

  const K8sCreated := " INFO kubelet: Created container app-7b9f..."
  const K8sOutOfMemory := " WARN kernel: Out of memory: Killed process 1234 (app) total-vm:2048000kB"
  const K8sBackOff := " ERROR kubelet: Back-off restarting failed container app-7b9f... CrashLoopBackOff"

  function K8sCrashloopBody(ts: int -> string): seq<string> {
    [ts(0) + K8sCreated, ts(15) + K8sOutOfMemory, ts(16) + K8sBackOff]
  }

  // -----------------------------------------------------------------------
  // nginx-5xx
  // -----------------------------------------------------------------------

  /**
   * `rnd.choices([200, 204, 500, 502, 503], weights=[85, 5, 3, 4, 3])[0]`
   * for draw `u`: the weights add up to 100, so `u % 100` picks a slot.
   */
  function WeightedStatus(u: nat): (code: nat)
    ensures code in {200, 204, 500, 502, 503}
    ensures code == 200 <==> u % 100 < 85
  {
    var w := u % 100;
    if w < 85 then 200 else if w < 90 then 204 else if w < 93 then 500 else if w < 97 then 502 else 503
  }

  /** `rnd.randint(20, 2000)` for draw `u`. */
  function Latency(u: nat): (ms: nat)
    ensures 20 <= ms <= 2000
  {
    20 + u % 1981
  }

  const NginxRequest := " INFO nginx: \"GET /api/v1/items\" "

  /** The access-log line of iteration `i` with status `code` and latency `ms`. */
  function NginxLine(ts: int -> string, i: nat, code: nat, ms: nat): string {
    ts(i) + NginxRequest + NatToString(code) + " " + NatToString(ms) + "ms"
  }

  /** The nginx-5xx body after `n` iterations of its loop. */
  function NginxBody(ts: int -> string, draw: nat -> nat, n: nat): (r: seq<string>)
    ensures |r| == n
    ensures forall i :: 0 <= i < n ==> r[i] == NginxLine(ts, i, WeightedStatus(draw(2 * i)), Latency(draw(2 * i + 1)))
  {
    if n == 0 then []
    else NginxBody(ts, draw, n - 1) + [NginxLine(ts, n - 1, WeightedStatus(draw(2 * (n - 1))), Latency(draw(2 * (n - 1) + 1)))]
  }

  // -----------------------------------------------------------------------
  // db-connection-timeout
  // -----------------------------------------------------------------------

  const DbRetrying := " WARN db: retrying connection ..."
  const DbPoolTimeout := " ERROR db: timeout acquiring connection from pool (30s)"
  const DbProcessed := " INFO app: processed request id="

  function DbWarnLine(ts: int -> string, i: nat): string {
    ts(i) + DbRetrying
  }

  function DbErrorLine(ts: int -> string, i: nat): string {
    ts(i) + DbPoolTimeout
  }

  function DbInfoLine(ts: int -> string, i: nat): string {
    ts(i) + DbProcessed + NatToString(1000 + i)
  }

  /** The three lines the db loop may append at iteration `i`, as functions of `i`. */
  datatype DbLines = DbLines(warn: nat -> string, error: nat -> string, info: nat -> string)

  /** The db loop's lines for clock `ts`. */
  function DbLinesFor(ts: int -> string): DbLines {
    DbLines((i: nat) => DbWarnLine(ts, i), (i: nat) => DbErrorLine(ts, i), (i: nat) => DbInfoLine(ts, i))
  }

  /**
   * The lines iteration `i` of the db loop appends: a WARN when 17 divides
   * `i`, then exactly one of the ERROR (when 29 divides `i`) or the INFO line.
   */
  function DbStep(d: DbLines, i: nat): (r: seq<string>)
    ensures |r| == if i % 17 == 0 then 2 else 1
    ensures i % 17 == 0 ==> r[0] == d.warn(i)
    ensures r[|r| - 1] == if i % 29 == 0 then d.error(i) else d.info(i)
  {
    (if i % 17 == 0 then [d.warn(i)] else [])
    + (if i % 29 == 0 then [d.error(i)] else [d.info(i)])
  }

  /** The db-connection-timeout body after `n` iterations of its loop. */
  function DbBody(d: DbLines, n: nat): seq<string> {
    if n == 0 then [] else DbBody(d, n - 1) + DbStep(d, n - 1)
  }

  /** One line per iteration plus one WARN per multiple of 17 below `n`: `n + ceil(n / 17)` lines. */
  lemma {:induction false} DbBodyLength(d: DbLines, n: nat)
    ensures |DbBody(d, n)| == n + (n + 16) / 17
    ensures |DbBody(d, n)| >= n
  {
    if n > 0 {
      DbBodyLength(d, n - 1);
    }
  }

  /** The body after `m` iterations is a prefix of the body after `n >= m`. */
  lemma {:induction false} DbBodyPrefix(d: DbLines, m: nat, n: nat)
    requires m <= n
    ensures |DbBody(d, m)| <= |DbBody(d, n)|
    ensures DbBody(d, m) == DbBody(d, n)[..|DbBody(d, m)|]
  {
    if m < n {
      DbBodyPrefix(d, m, n - 1);
      var pre := DbBody(d, n - 1);
      assert DbBody(d, n)[..|pre|] == pre;
    }
  }

  /** Iteration `i`'s lines sit in the body right after those of iterations `0 .. i`. */
  lemma DbStepInBody(d: DbLines, n: nat, i: nat)
    requires i < n
    ensures |DbBody(d, i + 1)| <= |DbBody(d, n)|
    ensures DbBody(d, n)[|DbBody(d, i)|..|DbBody(d, i + 1)|] == DbStep(d, i)
  {
    DbBodyPrefix(d, i + 1, n);
    var pre, next := DbBody(d, i), DbBody(d, i + 1);
    assert next == pre + DbStep(d, i);
    assert next[|pre|..] == DbStep(d, i);
  }

  /** Index 0 is a multiple of both 17 and 29, so the body opens with a WARN and then an ERROR. */
  lemma DbBodyStart(d: DbLines, n: nat)
    requires n >= 1
    ensures |DbBody(d, n)| >= 2
    ensures DbBody(d, n)[0] == d.warn(0) && DbBody(d, n)[1] == d.error(0)
  {
    DbStepInBody(d, n, 0);
    assert DbBody(d, 1) == DbStep(d, 0);
  }

  // -----------------------------------------------------------------------
  // The whole generator
  // -----------------------------------------------------------------------

  /** How many times `for i in range(lines)` runs. */
  function Iterations(lines: int): nat {
    if lines < 0 then 0 else lines
  }

  /** The body the profile's branch builds, before padding. */
  function Body(kind: Option<Profile>, lines: int, ts: int -> string, draw: nat -> nat): seq<string> {
    match kind
    case None => []
    case Some(PythonTraceback) => PythonTracebackBody(ts)
    case Some(NodeUnhandledRejection) => NodeRejectionBody(ts)
    case Some(JavaNullPointer) => JavaNullPointerBody(ts)
    case Some(Nginx5xx) => NginxBody(ts, draw, Iterations(lines))
    case Some(K8sCrashloop) => K8sCrashloopBody(ts)
    case Some(DbConnectionTimeout) => DbBody(DbLinesFor(ts), Iterations(lines))
  }

  const HeartbeatOk := " INFO app: heartbeat ok"

  /** The padding line appended when the list holds `k` lines. */
  function Heartbeat(ts: int -> string, k: nat): string {
    ts(k) + HeartbeatOk
  }

  /** `while len(out) < lines: out.append(heartbeat)`. */
  function Pad(out: seq<string>, lines: int, ts: int -> string): seq<string>
    decreases lines - |out|
  {
    if |out| < lines then Pad(out + [Heartbeat(ts, |out|)], lines, ts) else out
  }

  /**
   * Padding keeps the body as a prefix, brings the list to `max(|body|, lines)`
   * lines, and the line at each padded index `k` carries timestamp offset `k`.
   */
  lemma {:induction false} PadShape(out: seq<string>, lines: int, ts: int -> string)
    ensures var r := Pad(out, lines, ts);
      && |r| == (if |out| < lines then lines else |out|)
      && r[..|out|] == out
      && forall k :: |out| <= k < |r| ==> r[k] == Heartbeat(ts, k)
    decreases lines - |out|
  {
    if |out| < lines {
      var next := out + [Heartbeat(ts, |out|)];
      PadShape(next, lines, ts);
      var r := Pad(next, lines, ts);
      assert r[..|next|][..|out|] == out;
    }
  }

  /** The final list of lines. */
  function AllLines(profile: string, lines: int, ts: int -> string, draw: nat -> nat): seq<string> {
    Pad(Body(ProfileOf(profile), lines, ts, draw), lines, ts)
  }

  /** What `generate_test_logs(profile, lines, seed)` returns. */
  function Generate(profile: string, lines: int, ts: int -> string, draw: nat -> nat): SyntheticLog {
    SyntheticLog(Join(AllLines(profile, lines, ts, draw), "\n"), Truth(ProfileOf(profile)), profile)
  }

  /**
   * The body sizes: fixed for the templated profiles, one line per iteration
   * for nginx-5xx, `n + ceil(n / 17)` for db-connection-timeout, none for
   * an unknown profile.
   */
  lemma BodySize(kind: Option<Profile>, lines: int, ts: int -> string, draw: nat -> nat)
    ensures var n := Iterations(lines);
      |Body(kind, lines, ts, draw)| == match kind
        case None => 0
        case Some(PythonTraceback) => 5
        case Some(NodeUnhandledRejection) => 5
        case Some(JavaNullPointer) => 4
        case Some(Nginx5xx) => n
        case Some(K8sCrashloop) => 3
        case Some(DbConnectionTimeout) => n + (n + 16) / 17
  {
    DbBodyLength(DbLinesFor(ts), Iterations(lines));
  }

  /**
   * Every profile's severity is critical, high or medium; an unknown profile
   * keeps the default truth and produces only heartbeat lines.
   */
  lemma TruthTable(profile: string, lines: int, ts: int -> string, draw: nat -> nat)
    ensures Truth(ProfileOf(profile)).severity in {"critical", "high", "medium"}
    ensures ProfileOf(profile).Some? ==> Truth(ProfileOf(profile)).rootCause.Some?
    ensures ProfileOf(profile).None? ==> Truth(ProfileOf(profile)) == DefaultTruth
    ensures ProfileOf(profile).None? ==>
      forall k :: 0 <= k < |AllLines(profile, lines, ts, draw)| ==> AllLines(profile, lines, ts, draw)[k] == Heartbeat(ts, k)
  {
    PadShape(Body(ProfileOf(profile), lines, ts, draw), lines, ts);
  }

  /**
   * The generated log holds at least `lines` lines, begins with the body,
   * and is padded with heartbeats stamped with their own index.
   */
  lemma GeneratedShape(profile: string, lines: int, ts: int -> string, draw: nat -> nat)
    ensures var body := Body(ProfileOf(profile), lines, ts, draw);
      var all := AllLines(profile, lines, ts, draw);
      && |all| == (if |body| < lines then lines else |body|)
      && |all| >= lines
      && all[..|body|] == body
      && forall k :: |body| <= k < |all| ==> all[k] == Heartbeat(ts, k)
  {
    PadShape(Body(ProfileOf(profile), lines, ts, draw), lines, ts);
  }

  // -----------------------------------------------------------------------
  // generate_test_logs
  // -----------------------------------------------------------------------

  /** The nginx-5xx loop: one access-log line per iteration. */
  method NginxLoop(lines: int, ts: int -> string, draw: nat -> nat) returns (out: seq<string>)
    ensures out == NginxBody(ts, draw, Iterations(lines))
  {
    out := [];
    var i: nat := 0;
    while i < lines
      invariant i <= Iterations(lines)
      invariant out == NginxBody(ts, draw, i)
    {
      var code := WeightedStatus(draw(2 * i));
      var ms := Latency(draw(2 * i + 1));
      out := out + [NginxLine(ts, i, code, ms)];
      i := i + 1;
    }
  }

  /** The db-connection-timeout loop, appending the lines of `d`. */
  method DbLoop(lines: int, d: DbLines) returns (out: seq<string>)
    ensures out == DbBody(d, Iterations(lines))
  {
    out := [];
    var i: nat := 0;
    while i < lines
      invariant i <= Iterations(lines)
      invariant out == DbBody(d, i)
    {
      if i % 17 == 0 {
        out := out + [d.warn(i)];
      }
      if i % 29 == 0 {
        out := out + [d.error(i)];
      } else {
        out := out + [d.info(i)];
      }
      i := i + 1;
    }
  }

  /** `generate_test_logs(profile, lines, seed)`. */
  method GenerateTestLogs(profile: string, lines: int, ts: int -> string, draw: nat -> nat) returns (r: SyntheticLog)
    ensures r == Generate(profile, lines, ts, draw)
  {
    var out: seq<string> := [];
    var truth := DefaultTruth;
    var kind := ProfileOf(profile);
    match kind {
      case Some(PythonTraceback) =>
        truth := PythonTruth;
        out := out + PythonTracebackBody(ts);
      case Some(NodeUnhandledRejection) =>
        truth := NodeTruth;
        out := out + NodeRejectionBody(ts);
      case Some(JavaNullPointer) =>
        truth := JavaTruth;
        out := out + JavaNullPointerBody(ts);
      case Some(Nginx5xx) =>
        truth := NginxTruth;
        out := NginxLoop(lines, ts, draw);
      case Some(K8sCrashloop) =>
        truth := K8sTruth;
        out := out + K8sCrashloopBody(ts);
      case Some(DbConnectionTimeout) =>
        truth := DbTruth;
        out := DbLoop(lines, DbLinesFor(ts));
      case None =>
    }
    assert out == Body(kind, lines, ts, draw);

    // pad to requested length
    ghost var body := out;
    while |out| < lines
      invariant Pad(out, lines, ts) == Pad(body, lines, ts)
      decreases lines - |out|
    {
      out := out + [Heartbeat(ts, |out|)];
    }
    r := SyntheticLog(Join(out, "\n"), truth, profile);
  }
}
