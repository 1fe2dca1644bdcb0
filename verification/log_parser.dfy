/**
 * The log signal extractor of app/tools/log_parser.py (`parse_logs`):
 * one pass over the lines of a log that classifies each line, tallies four
 * level buckets, collects error, exception and stack-trace lines, gathers
 * categorical signals, and then derives suspected causes from a fixed rule
 * table and caps every list.
 *
 * The level pattern (LVL) and the literal substring tests are modelled
 * concretely. Every other regular expression is an abstract predicate on a
 * line, supplied as a `Patterns` value.
 */
module LogParser {
  import opened Wrappers
  import opened Text

  // -----------------------------------------------------------------------
  // Data model
  // -----------------------------------------------------------------------

  /** The alternatives of LVL, each knowing the text it matches. */
  datatype Level = Trace | Debug | Info | Warn | Warning | Error | Fatal | Critical {
    function Name(): string {
      match this
      case Trace => "TRACE"
      case Debug => "DEBUG"
      case Info => "INFO"
      case Warn => "WARN"
      case Warning => "WARNING"
      case Error => "ERROR"
      case Fatal => "FATAL"
      case Critical => "CRITICAL"
    }
  }

  /** The four categorical signals, each knowing the name it is reported under. */
  datatype Signal = HttpLatency | Oom | Retries | Timeout {
    function Name(): string {
      match this
      case HttpLatency => "http_latency"
      case Oom => "oom"
      case Retries => "retries"
      case Timeout => "timeout"
    }
  }

  /** One parsed input line: timestamp and level when found, and the line. */
  datatype Event = Event(ts: Option<string>, lvl: Option<Level>, line: string)

  /** A match of JAVA_EXC: group 1 (the exception type) and group 2 (the message). */
  datatype ExcMatch = ExcMatch(excType: string, message: string)

  /**
   * The regular expressions other than LVL, as black boxes on one line:
   * TS (its `ts` group), JAVA_EXC, PY_TRACE_START, JS_STACK_LINE, HTTP_LAT,
   * and the case-insensitive TIMEOUT, OOM and RETRY.
   */
  datatype Patterns = Patterns(
    timestamp: string -> Option<string>,
    javaExc: string -> Option<ExcMatch>,
    pyTraceStart: string -> bool,
    jsStackLine: string -> bool,
    httpLatency: string -> bool,
    timeout: string -> bool,
    oom: string -> bool,
    retry: string -> bool)

  /** The dictionary `parse_logs` returns; `counts` is keyed by level, `signals` holds names. */
  datatype ParseResult = ParseResult(
    filename: Option<string>,
    events: seq<Event>,
    errors: seq<string>,
    exceptions: seq<string>,
    stackTraces: seq<string>,
    counts: map<Level, nat>,
    signals: seq<string>,
    suspected: seq<string>,
    totalLines: nat)

  const EventCap: nat := 1000
  const ErrorCap: nat := 200
  const ExceptionCap: nat := 100
  const StackCap: nat := 200

  /** The alternatives of LVL in the order the regex engine tries them. */
  const Levels: seq<Level> := [Trace, Debug, Info, Warn, Warning, Error, Fatal, Critical]

  /** The keys of `counts`. */
  const CountedLevels: set<Level> := {Error, Warn, Info, Debug}

  const MemoryCause := "Memory exhaustion / leak"
  const TimeoutCause := "Network or downstream timeout / slow dependency"
  const HttpCause := "HTTP 5xx or slow responses under error burst"
  const ExceptionCause := "Unhandled exception / missing error handling"

  /** The suspected-cause rule table, in evaluation order. */
  const Causes: seq<string> := [MemoryCause, TimeoutCause, HttpCause, ExceptionCause]

  // -----------------------------------------------------------------------
  // Level detection: re.search(LVL, ln)
  // -----------------------------------------------------------------------

  /**
   * The first of `words`, from index `k` on, that `s` starts with: how a
   * regex alternation tries its alternatives at one position.
   */
  function FirstAlternative(s: string, words: seq<string>, k: nat): (r: Option<nat>)
    requires k <= |words|
    ensures r.Some? ==> k <= r.value < |words|
    decreases |words| - k
  {
    if k == |words| then None
    else if StartsWith(s, words[k]) then Some(k)
    else FirstAlternative(s, words, k + 1)
  }

  /** The alternative found matches, and none tried before it does. */
  lemma {:induction false} FirstAlternativeIsFirst(s: string, words: seq<string>, k: nat)
    requires k <= |words|
    ensures var r := FirstAlternative(s, words, k);
      && (r.Some? ==> StartsWith(s, words[r.value]))
      && (r.Some? ==> forall j :: k <= j < r.value ==> !StartsWith(s, words[j]))
      && (r.None? ==> forall j :: k <= j < |words| ==> !StartsWith(s, words[j]))
    decreases |words| - k
  {
    if k < |words| && !StartsWith(s, words[k]) {
      FirstAlternativeIsFirst(s, words, k + 1);
    }
  }

  /** Where the alternation matched (`pos`) and which alternative matched there (`alt`). */
  datatype AltMatch = AltMatch(pos: nat, alt: nat)

  /**
   * `re.search` of an alternation of `words` in `ln[from..]`: the leftmost
   * position at which some alternative matches, and at that position the
   * first alternative in order.
   */
  function SearchAlternatives(ln: string, words: seq<string>, from: nat): (r: Option<AltMatch>)
    requires from <= |ln|
    ensures r.Some? ==> r.value.alt < |words|
    decreases |ln| - from
  {
    match FirstAlternative(ln[from..], words, 0)
    case Some(a) => Some(AltMatch(from, a))
    case None => if from == |ln| then None else SearchAlternatives(ln, words, from + 1)
  }

  /** The search stops at the leftmost position where an alternative matches. */
  lemma {:induction false} SearchAlternativesLeftmost(ln: string, words: seq<string>, from: nat)
    requires from <= |ln|
    ensures var r := SearchAlternatives(ln, words, from);
      && (r.Some? ==> from <= r.value.pos <= |ln|)
      && (r.Some? ==> FirstAlternative(ln[r.value.pos..], words, 0) == Some(r.value.alt))
      && (r.Some? ==> forall q :: from <= q < r.value.pos ==> FirstAlternative(ln[q..], words, 0).None?)
      && (r.None? ==> forall q :: from <= q <= |ln| ==> FirstAlternative(ln[q..], words, 0).None?)
    decreases |ln| - from
  {
    if FirstAlternative(ln[from..], words, 0).None? && from < |ln| {
      SearchAlternativesLeftmost(ln, words, from + 1);
    }
  }

  /** The words LVL alternates, in the order tried: `LevelWords[i]` names `Levels[i]`. */
  const LevelWords: seq<string> :=
    [Trace.Name(), Debug.Name(), Info.Name(), Warn.Name(), Warning.Name(), Error.Name(), Fatal.Name(), Critical.Name()]

  /** The alternative of LVL that matches at the start of `s`, if any. */
  function AlternativeAt(s: string): Option<nat> {
    FirstAlternative(s, LevelWords, 0)
  }

  /** The `lvl` group of `re.search(LVL, ln)`, or None when LVL does not match. */
  function LineLevel(ln: string): Option<Level> {
    match SearchAlternatives(ln, LevelWords, 0)
    case None => None
    case Some(m) => Some(Levels[m.alt])
  }

  /** Some level keyword starts at the front of `s`. */
  predicate KeywordAt(s: string) {
    exists j | 0 <= j < |LevelWords| :: StartsWith(s, LevelWords[j])
  }

  /** An alternative matches at the front of `s` exactly when a keyword starts there. */
  lemma AlternativeAtKeyword(s: string)
    ensures AlternativeAt(s).Some? <==> KeywordAt(s)
  {
    FirstAlternativeIsFirst(s, LevelWords, 0);
  }

  /**
   * The level found is a keyword that occurs in the line with no keyword
   * starting further left; no level is found exactly when no keyword occurs.
   */
  lemma LineLevelIsLeftmost(ln: string)
    ensures LineLevel(ln).None? <==> forall q :: 0 <= q <= |ln| ==> !KeywordAt(ln[q..])
    ensures LineLevel(ln).Some? ==> exists q :: (0 <= q <= |ln| && StartsWith(ln[q..], LineLevel(ln).value.Name())
      && forall q' :: 0 <= q' < q ==> !KeywordAt(ln[q'..]))
  {
    SearchAlternativesLeftmost(ln, LevelWords, 0);
    forall q | 0 <= q <= |ln|
      ensures AlternativeAt(ln[q..]).Some? <==> KeywordAt(ln[q..])
    {
      AlternativeAtKeyword(ln[q..]);
    }
    match SearchAlternatives(ln, LevelWords, 0)
    case None =>
    case Some(m) =>
      FirstAlternativeIsFirst(ln[m.pos..], LevelWords, 0);
      assert StartsWith(ln[m.pos..], LineLevel(ln).value.Name());
  }

  /** WARNING never wins at a position: WARN is tried first and is a prefix of it. */
  lemma AlternativeNeverWarning(s: string)
    ensures AlternativeAt(s) != Some(4)
  {
    if StartsWith(s, "WARNING") {
      assert s[..4] == "WARNING"[..4];
      assert StartsWith(s, LevelWords[3]);
    }
  }

  /** The captured level is never "WARNING". */
  lemma LevelNeverWarning(ln: string)
    ensures LineLevel(ln) != Some(Warning)
  {
    SearchAlternativesLeftmost(ln, LevelWords, 0);
    match SearchAlternatives(ln, LevelWords, 0)
    case None =>
    case Some(m) =>
      AlternativeNeverWarning(ln[m.pos..]);
  }

  /**
   * A line whose first level keyword is "WARNING" (no keyword starts
   * earlier) gets level "WARN".
   */
  lemma WarningReadsAsWarn(ln: string, p: nat)
    requires p <= |ln| && StartsWith(ln[p..], "WARNING")
    requires forall q :: 0 <= q < p ==> !KeywordAt(ln[q..])
    ensures LineLevel(ln) == Some(Warn)
  {
    var s := ln[p..];
    assert s[..4] == "WARNING"[..4];
    assert s[0] == 'W';
    assert StartsWith(s, LevelWords[3]);
    assert FirstAlternative(s, LevelWords, 3) == Some(3);
    assert FirstAlternative(s, LevelWords, 2) == Some(3);
    assert FirstAlternative(s, LevelWords, 1) == Some(3);
    assert AlternativeAt(s) == Some(3);
    forall q | 0 <= q < p
      ensures AlternativeAt(ln[q..]).None?
    {
      AlternativeAtKeyword(ln[q..]);
    }
    SearchAlternativesLeftmost(ln, LevelWords, 0);
    match SearchAlternatives(ln, LevelWords, 0)
    case None =>
    case Some(m) =>
      assert m.pos == p;
  }

  // -----------------------------------------------------------------------
  // Per-line contributions
  // -----------------------------------------------------------------------

  function LineEvent(p: Patterns, ln: string): Event {
    Event(p.timestamp(ln), LineLevel(ln), ln)
  }

  /** `"Exception" in ln or "Error:" in ln or "ERROR" in ln`. */
  predicate HasErrorMarker(ln: string) {
    Contains(ln, "Exception") || Contains(ln, "Error:") || Contains(ln, "ERROR")
  }

  /** What one line adds to `exceptions`. */
  function LineExceptions(p: Patterns, ln: string): (r: seq<string>)
    ensures |r| <= 1
    ensures |r| == 1 <==> p.javaExc(ln).Some?
  {
    match p.javaExc(ln)
    case Some(e) => [e.excType + ": " + e.message]
    case None => []
  }

  /** What one line adds to `errors`: the raw line once per test it passes. */
  function LineErrors(p: Patterns, ln: string): (r: seq<string>)
    ensures forall k :: 0 <= k < |r| ==> r[k] == ln
    ensures p.javaExc(ln).None? ==> |r| <= 1
    ensures |r| <= 2
  {
    (if p.javaExc(ln).Some? then [ln] else []) + (if HasErrorMarker(ln) then [ln] else [])
  }

  /** What one line adds to `stack_traces`. */
  function LineStacks(p: Patterns, ln: string): seq<string> {
    if p.pyTraceStart(ln) || p.jsStackLine(ln) then [ln] else []
  }

  /** The signals one line raises. */
  function LineSignals(p: Patterns, ln: string): set<Signal> {
    (if p.timeout(ln) then {Timeout} else {})
    + (if p.oom(ln) then {Oom} else {})
    + (if p.retry(ln) then {Retries} else {})
    + (if p.httpLatency(ln) then {HttpLatency} else {})
  }

  /** The shape JAVA_EXC demands of a match: group 1 ends in "Exception" or is "Error", followed by ":". */
  predicate ExcShaped(ln: string, e: ExcMatch) {
    (EndsWith(e.excType, "Exception") || e.excType == "Error") && Contains(ln, e.excType + ":")
  }

  /**
   * A line matching the exception pattern adds one "<type>: <message>" to
   * `exceptions` and two copies of itself to `errors`: the match requires
   * "...Exception:" or "Error:", which also fires the generic marker.
   */
  lemma ExceptionLineAddsTwoErrors(p: Patterns, ln: string)
    requires p.javaExc(ln).Some? && ExcShaped(ln, p.javaExc(ln).value)
    ensures LineErrors(p, ln) == [ln, ln]
    ensures LineExceptions(p, ln) == [p.javaExc(ln).value.excType + ": " + p.javaExc(ln).value.message]
  {
    var t := p.javaExc(ln).value.excType;
    var tc := t + ":";
    var k :| 0 <= k <= |ln| - |tc| && OccursAt(ln, tc, k);
    if EndsWith(t, "Exception") {
      assert tc[|t| - 9..|t|] == "Exception";
      ContainsThroughSlice(ln, k, tc, |t| - 9, "Exception");
    } else {
      assert tc == "Error:";
      ContainsThroughSlice(ln, k, tc, 0, "Error:");
    }
    assert HasErrorMarker(ln);
  }

  // -----------------------------------------------------------------------
  // Whole-log specification (uncapped)
  // -----------------------------------------------------------------------

  /** The uncapped `events` list: one event per line. */
  function EventsOf(p: Patterns, lines: seq<string>): (r: seq<Event>)
    ensures |r| == |lines|
    ensures forall i :: 0 <= i < |lines| ==> r[i] == LineEvent(p, lines[i])
  {
    if lines == [] then [] else EventsOf(p, lines[..|lines| - 1]) + [LineEvent(p, lines[|lines| - 1])]
  }

  /** The uncapped `errors` list: each line's contribution, in line order. */
  function ErrorsOf(p: Patterns, lines: seq<string>): seq<string> {
    if lines == [] then [] else ErrorsOf(p, lines[..|lines| - 1]) + LineErrors(p, lines[|lines| - 1])
  }

  /** The uncapped `exceptions` list. */
  function ExceptionsOf(p: Patterns, lines: seq<string>): seq<string> {
    if lines == [] then [] else ExceptionsOf(p, lines[..|lines| - 1]) + LineExceptions(p, lines[|lines| - 1])
  }

  /** The uncapped `stacks` list. */
  function StacksOf(p: Patterns, lines: seq<string>): seq<string> {
    if lines == [] then [] else StacksOf(p, lines[..|lines| - 1]) + LineStacks(p, lines[|lines| - 1])
  }

  /** The set of signals raised by the lines. */
  function SignalsOf(p: Patterns, lines: seq<string>): set<Signal> {
    if lines == [] then {} else SignalsOf(p, lines[..|lines| - 1]) + LineSignals(p, lines[|lines| - 1])
  }

  /** How many of the lines have level `lvl`. */
  function CountOf(lines: seq<string>, lvl: Level): nat {
    if lines == [] then 0
    else CountOf(lines[..|lines| - 1], lvl) + (if LineLevel(lines[|lines| - 1]) == Some(lvl) then 1 else 0)
  }

  /** The `counts` mapping before any line is read. */
  const InitialCounts: map<Level, nat> := map[Error := 0, Warn := 0, Info := 0, Debug := 0]

  /** `counts[lvl] += 1` when `lvl in counts`. */
  function Bump(counts: map<Level, nat>, lvl: Option<Level>): (r: map<Level, nat>)
    ensures r.Keys == counts.Keys
  {
    if lvl.Some? && lvl.value in counts then counts[lvl.value := counts[lvl.value] + 1] else counts
  }

  /** The `counts` mapping after the given lines, bucket by bucket as the loop bumps it. */
  function CountsOf(lines: seq<string>): (m: map<Level, nat>)
    ensures m.Keys == CountedLevels
  {
    if lines == [] then InitialCounts
    else Bump(CountsOf(lines[..|lines| - 1]), LineLevel(lines[|lines| - 1]))
  }

  /** Each bucket of `counts` holds the number of lines with that level. */
  lemma {:induction false} CountsOfCountOf(lines: seq<string>)
    ensures forall k :: k in CountsOf(lines) ==> CountsOf(lines)[k] == CountOf(lines, k)
  {
    if lines != [] {
      CountsOfCountOf(lines[..|lines| - 1]);
    }
  }

  /** The sum of the four level buckets. */
  function CountTotal(lines: seq<string>): nat {
    CountOf(lines, Error) + CountOf(lines, Warn) + CountOf(lines, Info) + CountOf(lines, Debug)
  }

  /** Each line increments at most one bucket, so the buckets add up to at most the number of lines. */
  lemma {:induction false} CountTotalBound(lines: seq<string>)
    ensures CountTotal(lines) <= |lines|
  {
    if lines != [] {
      CountTotalBound(lines[..|lines| - 1]);
    }
  }

  /** A line whose level is TRACE, FATAL or CRITICAL has a level but leaves every bucket unchanged. */
  lemma UncountedLevelLine(lines: seq<string>, ln: string)
    requires LineLevel(ln) in {Some(Trace), Some(Fatal), Some(Critical)}
    ensures LineLevel(ln).Some?
    ensures forall k :: k in CountedLevels ==> CountOf(lines + [ln], k) == CountOf(lines, k)
  {
    assert (lines + [ln])[..|lines|] == lines;
  }

  /** A line with a WARNING keyword first counts in the WARN bucket. */
  lemma WarningLineCountsAsWarn(lines: seq<string>, ln: string, p: nat)
    requires p <= |ln| && StartsWith(ln[p..], "WARNING")
    requires forall q :: 0 <= q < p ==> !KeywordAt(ln[q..])
    ensures CountOf(lines + [ln], Warn) == CountOf(lines, Warn) + 1
  {
    WarningReadsAsWarn(ln, p);
    assert (lines + [ln])[..|lines|] == lines;
  }

  /** Every collected entry comes from one of the lines, for the errors and stack-trace lists. */
  lemma {:induction false} ErrorsAreLines(p: Patterns, lines: seq<string>)
    ensures forall x :: x in ErrorsOf(p, lines) ==> x in lines
    ensures |ErrorsOf(p, lines)| <= 2 * |lines|
    ensures forall x :: x in StacksOf(p, lines) ==> x in lines
  {
    if lines != [] {
      var init := lines[..|lines| - 1];
      ErrorsAreLines(p, init);
      assert forall x :: x in init ==> x in lines;
    }
  }

  /** At most one exception per line. */
  lemma {:induction false} ExceptionsBound(p: Patterns, lines: seq<string>)
    ensures |ExceptionsOf(p, lines)| <= |lines|
  {
    if lines != [] {
      ExceptionsBound(p, lines[..|lines| - 1]);
    }
  }

  /** A signal is present exactly when some line raises it. */
  lemma {:induction false} SignalsFromLines(p: Patterns, lines: seq<string>)
    ensures forall g :: g in SignalsOf(p, lines) <==> exists i :: 0 <= i < |lines| && g in LineSignals(p, lines[i])
  {
    if lines != [] {
      var init := lines[..|lines| - 1];
      SignalsFromLines(p, init);
      forall g | g in SignalsOf(p, lines)
        ensures exists i :: 0 <= i < |lines| && g in LineSignals(p, lines[i])
      {
        if g !in LineSignals(p, lines[|lines| - 1]) {
          assert g in SignalsOf(p, init);
          var i :| 0 <= i < |init| && g in LineSignals(p, init[i]);
          assert init[i] == lines[i];
        }
      }
      forall g | exists i :: 0 <= i < |lines| && g in LineSignals(p, lines[i])
        ensures g in SignalsOf(p, lines)
      {
        var i :| 0 <= i < |lines| && g in LineSignals(p, lines[i]);
        if i < |init| {
          assert init[i] == lines[i];
        }
      }
    }
  }

  // -----------------------------------------------------------------------
  // sorted(signals) and the suspected-cause rule table
  // -----------------------------------------------------------------------

  /** Python's `<` on strings: lexicographic by code point. */
  predicate LexLess(a: string, b: string) {
    if a == [] then b != []
    else b != [] && (a[0] < b[0] || (a[0] == b[0] && LexLess(a[1..], b[1..])))
  }

  predicate StrictlySorted(xs: seq<string>) {
    forall i, j :: 0 <= i < j < |xs| ==> LexLess(xs[i], xs[j])
  }

  /** The four signals, in the lexicographic order of their names. */
  const SignalOrder: seq<Signal> := [HttpLatency, Oom, Retries, Timeout]

  lemma SignalOrderSorted()
    ensures forall i, j :: 0 <= i < j < |SignalOrder| ==> LexLess(SignalOrder[i].Name(), SignalOrder[j].Name())
  {
    assert LexLess("http_latency", "oom");
    assert LexLess("http_latency", "retries");
    assert LexLess("http_latency", "timeout");
    assert LexLess("oom", "retries");
    assert LexLess("oom", "timeout");
    assert LexLess("retries", "timeout");
  }

  /** Distinct signals have distinct names. */
  lemma SignalNamesDistinct()
    ensures forall g: Signal, h: Signal :: g.Name() == h.Name() ==> g == h
  {
    forall g: Signal, h: Signal | g != h
      ensures g.Name() != h.Name()
    {
      assert g.Name()[0] != h.Name()[0] || |g.Name()| != |h.Name()|;
    }
  }

  /** The names of the elements of `order` that are in `signals`, in the order of `order`. */
  function KeepIn(order: seq<Signal>, signals: set<Signal>): (r: seq<string>)
    ensures forall x :: x in r ==> exists g :: g in order && g in signals && x == g.Name()
    ensures forall g :: g in order && g in signals ==> g.Name() in r
  {
    if order == [] then []
    else
      var rest := KeepIn(order[1..], signals);
      if order[0] in signals then [order[0].Name()] + rest else rest
  }

  /** Keeping some elements of an order sorted by name leaves the names sorted. */
  lemma {:induction false} KeepInSorted(order: seq<Signal>, signals: set<Signal>)
    requires forall i, j :: 0 <= i < j < |order| ==> LexLess(order[i].Name(), order[j].Name())
    ensures StrictlySorted(KeepIn(order, signals))
  {
    if order != [] {
      var rest := KeepIn(order[1..], signals);
      KeepInSorted(order[1..], signals);
      forall x | x in rest
        ensures LexLess(order[0].Name(), x)
      {
        var g :| g in order[1..] && g in signals && x == g.Name();
        var j :| 0 <= j < |order[1..]| && order[1..][j] == g;
        assert order[j + 1] == g;
      }
    }
  }

  /**
   * `sorted(list(signals))`: the names of the signals present, in
   * lexicographic order and without repetition.
   */
  function SortedSignals(signals: set<Signal>): (r: seq<string>)
    ensures StrictlySorted(r)
    ensures forall i, j :: 0 <= i < j < |r| ==> r[i] != r[j]
    ensures forall g: Signal :: g.Name() in r <==> g in signals
    ensures forall x :: x in r ==> exists g :: g in signals && x == g.Name()
  {
    SignalOrderSorted();
    KeepInSorted(SignalOrder, signals);
    SignalNamesDistinct();
    LexLessIrreflexiveAll();
    var r := KeepIn(SignalOrder, signals);
    forall g: Signal
      ensures g in SignalOrder
    {
      var k := if g.HttpLatency? then 0 else if g.Oom? then 1 else if g.Retries? then 2 else 3;
      assert SignalOrder[k] == g;
    }
    r
  }

  lemma {:induction false} LexLessIrreflexive(a: string)
    ensures !LexLess(a, a)
  {
    if a != [] {
      LexLessIrreflexive(a[1..]);
    }
  }

  lemma LexLessIrreflexiveAll()
    ensures forall a :: !LexLess(a, a)
  {
    forall a: string {
      LexLessIrreflexive(a);
    }
  }

  /** The rule for the `k`-th entry of the cause table. */
  predicate RuleHolds(signals: set<Signal>, errorCount: nat, anyException: bool, k: nat)
    requires k < |Causes|
  {
    match k
    case 0 => Oom in signals
    case 1 => Timeout in signals
    case 2 => errorCount > 0 && HttpLatency in signals
    case _ => anyException
  }

  /** The `suspected` list built from the aggregated signals, ERROR count and exceptions. */
  function SuspectedCauses(signals: set<Signal>, errorCount: nat, anyException: bool): seq<string> {
    (if Oom in signals then [MemoryCause] else [])
    + (if Timeout in signals then [TimeoutCause] else [])
    + (if errorCount > 0 && HttpLatency in signals then [HttpCause] else [])
    + (if anyException then [ExceptionCause] else [])
  }

  /** Index of a cause in the rule table. */
  function CauseRank(c: string): nat {
    if c == MemoryCause then 0 else if c == TimeoutCause then 1 else if c == HttpCause then 2 else 3
  }

  /**
   * `suspected` holds the table entry for each rule that holds and for no
   * other, in table order, so it has at most four entries.
   */
  lemma SuspectedFollowsRuleTable(signals: set<Signal>, errorCount: nat, anyException: bool)
    ensures var r := SuspectedCauses(signals, errorCount, anyException);
      && |r| <= 4
      && (forall k :: 0 <= k < |Causes| ==> (Causes[k] in r <==> RuleHolds(signals, errorCount, anyException, k)))
      && (forall i, j :: 0 <= i < j < |r| ==> CauseRank(r[i]) < CauseRank(r[j]))
      && (forall i :: 0 <= i < |r| ==> r[i] in Causes)
  {
    var r := SuspectedCauses(signals, errorCount, anyException);
    assert forall k :: 0 <= k < |Causes| ==> CauseRank(Causes[k]) == k;
  }

  // -----------------------------------------------------------------------
  // parse_logs
  // -----------------------------------------------------------------------

  /** The accumulators of the `parse_logs` loop. */
  datatype Scan = Scan(
    events: seq<Event>,
    errors: seq<string>,
    exceptions: seq<string>,
    stacks: seq<string>,
    counts: map<Level, nat>,
    signals: set<Signal>)

  /** The accumulators after scanning `lines`, uncapped. */
  function ScanOf(p: Patterns, lines: seq<string>): Scan {
    Scan(EventsOf(p, lines), ErrorsOf(p, lines), ExceptionsOf(p, lines), StacksOf(p, lines), CountsOf(lines), SignalsOf(p, lines))
  }

  /** What one loop iteration does to the accumulators. */
  function StepScan(p: Patterns, s: Scan, ln: string): Scan {
    Scan(s.events + [LineEvent(p, ln)], s.errors + LineErrors(p, ln), s.exceptions + LineExceptions(p, ln),
         s.stacks + LineStacks(p, ln), Bump(s.counts, LineLevel(ln)), s.signals + LineSignals(p, ln))
  }

  /** Scanning one more line is one more step. */
  lemma ScanStep(p: Patterns, lines: seq<string>, i: nat)
    requires i < |lines|
    ensures ScanOf(p, lines[..i + 1]) == StepScan(p, ScanOf(p, lines[..i]), lines[i])
  {
    var pre, cur := lines[..i], lines[..i + 1];
    assert cur[..|cur| - 1] == pre;
    assert cur[|cur| - 1] == lines[i];
  }

  /** Level detection: the level found in the line, and its bucket incremented when it has one. */
  method CountLevel(ln: string, counts: map<Level, nat>) returns (lvl: Option<Level>, counts': map<Level, nat>)
    ensures lvl == LineLevel(ln)
    ensures counts' == Bump(counts, LineLevel(ln))
  {
    lvl := LineLevel(ln);
    counts' := counts;
    if lvl.Some? && lvl.value in counts {
      counts' := counts[lvl.value := counts[lvl.value] + 1];
    }
  }

  /** The exception match and the generic error-marker test. */
  method CollectErrors(p: Patterns, ln: string, errors: seq<string>, exceptions: seq<string>)
    returns (errors': seq<string>, exceptions': seq<string>)
    ensures errors' == errors + LineErrors(p, ln)
    ensures exceptions' == exceptions + LineExceptions(p, ln)
  {
    errors', exceptions' := errors, exceptions;
    match p.javaExc(ln) {
      case Some(e) =>
        exceptions' := exceptions' + [e.excType + ": " + e.message];
        errors' := errors' + [ln];
      case None =>
    }
    if HasErrorMarker(ln) {
      errors' := errors' + [ln];
    }
  }

  /** The four signal tests. */
  method AddSignals(p: Patterns, ln: string, signals: set<Signal>) returns (signals': set<Signal>)
    ensures signals' == signals + LineSignals(p, ln)
  {
    signals' := signals;
    if p.timeout(ln) {
      signals' := signals' + {Timeout};
    }
    if p.oom(ln) {
      signals' := signals' + {Oom};
    }
    if p.retry(ln) {
      signals' := signals' + {Retries};
    }
    if p.httpLatency(ln) {
      signals' := signals' + {HttpLatency};
    }
  }

  /** The body of the `for ln in lines` loop of `parse_logs`, applied to one line. */
  method ScanLine(p: Patterns, ln: string, s: Scan) returns (t: Scan)
    ensures t == StepScan(p, s, ln)
  {
    var lvl, counts := CountLevel(ln, s.counts);
    var ts := p.timestamp(ln);
    var errors, exceptions := CollectErrors(p, ln, s.errors, s.exceptions);
    var stacks := s.stacks;
    if p.pyTraceStart(ln) || p.jsStackLine(ln) {
      stacks := stacks + [ln];
    }
    var signals := AddSignals(p, ln, s.signals);
    var events := s.events + [Event(ts, lvl, ln)];
    t := Scan(events, errors, exceptions, stacks, counts, signals);
  }

  /** The rule table of `parse_logs`, evaluated once, appending each cause whose rule holds. */
  method BuildSuspected(signals: set<Signal>, errorCount: nat, anyException: bool) returns (suspected: seq<string>)
    ensures suspected == SuspectedCauses(signals, errorCount, anyException)
    ensures |suspected| <= 4
    ensures forall k :: 0 <= k < |Causes| ==> (Causes[k] in suspected <==> RuleHolds(signals, errorCount, anyException, k))
    ensures forall i, j :: 0 <= i < j < |suspected| ==> CauseRank(suspected[i]) < CauseRank(suspected[j])
  {
    var a: seq<string> := if Oom in signals then [MemoryCause] else [];
    var b: seq<string> := if Timeout in signals then [TimeoutCause] else [];
    var c: seq<string> := if errorCount > 0 && HttpLatency in signals then [HttpCause] else [];
    suspected := [];
    if Oom in signals {
      suspected := suspected + [MemoryCause];
    }
    assert suspected == a;
    if Timeout in signals {
      suspected := suspected + [TimeoutCause];
    }
    assert suspected == a + b;
    if errorCount > 0 && HttpLatency in signals {
      suspected := suspected + [HttpCause];
    }
    assert suspected == a + b + c;
    if anyException {
      suspected := suspected + [ExceptionCause];
    }
    SuspectedFollowsRuleTable(signals, errorCount, anyException);
  }

  /** What `parse_logs(log_text, filename)` returns, stated over the whole list of lines. */
  function ParseSpec(logText: string, filename: Option<string>, p: Patterns): ParseResult {
    var lines := SplitLines(logText);
    var signals := SignalsOf(p, lines);
    ParseResult(
      filename,
      Take(EventsOf(p, lines), EventCap),
      Take(ErrorsOf(p, lines), ErrorCap),
      Take(ExceptionsOf(p, lines), ExceptionCap),
      Take(StacksOf(p, lines), StackCap),
      CountsOf(lines),
      SortedSignals(signals),
      SuspectedCauses(signals, CountOf(lines, Error), ExceptionsOf(p, lines) != []),
      |lines|)
  }

  /**
   * The shape of the result: one event per line up to the cap, every
   * collected error a line of the log, capped lists, one bucket per counted
   * level holding the number of lines at that level, the sorted names of the
   * signals some line raised, and the causes whose rule holds.
   */
  lemma ParseSpecShape(logText: string, filename: Option<string>, p: Patterns)
    ensures var r := ParseSpec(logText, filename, p);
      var lines := SplitLines(logText);
      && r.filename == filename
      && r.totalLines == |lines|
      && |r.events| == (if |lines| <= EventCap then |lines| else EventCap)
      && (forall i :: 0 <= i < |r.events| ==> r.events[i] == Event(p.timestamp(lines[i]), LineLevel(lines[i]), lines[i]))
      && |r.errors| <= ErrorCap && (forall x :: x in r.errors ==> x in lines)
      && r.errors == ErrorsOf(p, lines)[..|r.errors|]
      && |r.errors| == (if |ErrorsOf(p, lines)| <= ErrorCap then |ErrorsOf(p, lines)| else ErrorCap)
      && r.exceptions == ExceptionsOf(p, lines)[..|r.exceptions|]
      && |r.exceptions| == (if |ExceptionsOf(p, lines)| <= ExceptionCap then |ExceptionsOf(p, lines)| else ExceptionCap)
      && r.stackTraces == StacksOf(p, lines)[..|r.stackTraces|]
      && |r.stackTraces| == (if |StacksOf(p, lines)| <= StackCap then |StacksOf(p, lines)| else StackCap)
      && r.counts.Keys == CountedLevels
      && (forall k :: k in r.counts ==> r.counts[k] == CountOf(lines, k))
      && StrictlySorted(r.signals)
      && (forall g: Signal :: g.Name() in r.signals <==> exists i :: 0 <= i < |lines| && g in LineSignals(p, lines[i]))
      && |r.suspected| <= 4
      && (forall k :: 0 <= k < |Causes| ==> (Causes[k] in r.suspected <==>
            RuleHolds(SignalsOf(p, lines), CountOf(lines, Error), ExceptionsOf(p, lines) != [], k)))
  {
    var lines := SplitLines(logText);
    ErrorsAreLines(p, lines);
    CountsOfCountOf(lines);
    SignalsFromLines(p, lines);
    SuspectedFollowsRuleTable(SignalsOf(p, lines), CountOf(lines, Error), ExceptionsOf(p, lines) != []);
  }

  /** The filename is passed through and changes nothing else. */
  lemma FilenameOnlyEchoed(logText: string, f1: Option<string>, f2: Option<string>, p: Patterns)
    ensures ParseSpec(logText, f1, p).filename == f1
    ensures ParseSpec(logText, f1, p) == ParseSpec(logText, f2, p).(filename := f1)
  {
  }

  /**
   * `parse_logs(log_text, filename)`: one pass over `log_text.splitlines()`,
   * then the rule table and the caps.
   */
  method ParseLogs(logText: string, filename: Option<string>, p: Patterns) returns (r: ParseResult)
    ensures r == ParseSpec(logText, filename, p)
  {
    var lines := SplitLines(logText);
    var scan := Scan([], [], [], [], InitialCounts, {});
    var i := 0;
    while i < |lines|
      invariant 0 <= i <= |lines|
      invariant scan == ScanOf(p, lines[..i])
    {
      ScanStep(p, lines, i);
      scan := ScanLine(p, lines[i], scan);
      i := i + 1;
    }
    assert lines[..|lines|] == lines;
    CountsOfCountOf(lines);
    var Scan(events, errors, exceptions, stacks, counts, signals) := scan;

    var suspected := BuildSuspected(signals, counts[Error], exceptions != []);

    r := ParseResult(
      filename,
      Take(events, EventCap),
      Take(errors, ErrorCap),
      Take(exceptions, ExceptionCap),
      Take(stacks, StackCap),
      counts,
      SortedSignals(signals),
      suspected,
      |lines|);
  }
}
