/**
 * The deterministic steps of the triage agent's pipeline: the intake note,
 * the merge of the classifier's reply into the findings, the extraction of
 * plan steps from the planner's reply and the construction of the action
 * list. The model replies are parameters.
 */
module Agent {
  import opened Wrappers
  import opened Text

  /** The values `json.loads` produces (numbers other than integers aside). */
  datatype Json =
    | JNull
    | JBool(b: bool)
    | JInt(i: int)
    | JString(s: string)
    | JArray(items: seq<Json>)
    | JObject(fields: map<string, Json>)
  {
    /** Python truthiness of the decoded value. */
    predicate Truthy() {
      match this
      case JNull => false
      case JBool(b) => b
      case JInt(i) => i != 0
      case JString(s) => s != ""
      case JArray(items) => items != []
      case JObject(fields) => fields != map[]
    }
  }

  datatype Action =
    | Notify(team: Json, message: string)
    | Log(message: string)

  const IntakeNote := "intake started"
  const BranchKey := "branch"
  const SeverityKey := "severity"
  const Unknown := JString("unknown")
  const OwnershipMessage := "Agent suggests ownership"
  const ExecutedMessage := "Agent executed plan"
  const MaxSteps := 4

  // -----------------------------------------------------------------------
  // classify: merging the reply into the findings
  // -----------------------------------------------------------------------

  /** What `classify` uses when the reply is not valid JSON. */
  const FallbackFindings: map<string, Json> := map[BranchKey := Unknown, SeverityKey := JInt(3)]

  /**
   * `findings.update(data)`: `parsed` is the object the reply decodes to, or
   * `None` when decoding fails and the fallback is used instead.
   */
  function MergeFindings(findings: map<string, Json>, parsed: Option<map<string, Json>>): (r: map<string, Json>)
    ensures parsed.Some? ==> r.Keys == findings.Keys + parsed.value.Keys
    ensures parsed.Some? ==> forall k :: k in parsed.value ==> r[k] == parsed.value[k]
  {
    findings + (if parsed.None? then FallbackFindings else parsed.value)
  }

  /**
   * When the reply is not JSON, the findings gain branch "unknown" and
   * severity 3 and keep every other key.
   */
  lemma ClassifyFallback(findings: map<string, Json>)
    ensures var r := MergeFindings(findings, None);
      && r.Keys == findings.Keys + {BranchKey, SeverityKey}
      && r[BranchKey] == Unknown && r[SeverityKey] == JInt(3)
      && forall k :: k in findings && k != BranchKey && k != SeverityKey ==> r[k] == findings[k]
  {
  }

  /** Keys the reply does not mention keep their old values. */
  lemma ClassifyKeepsOtherKeys(findings: map<string, Json>, parsed: map<string, Json>)
    ensures var r := MergeFindings(findings, Some(parsed));
      forall k :: k in findings && k !in parsed ==> r[k] == findings[k]
  {
  }

  // -----------------------------------------------------------------------
  // plan: step extraction
  // -----------------------------------------------------------------------

  predicate IsDashOrSpace(c: char) {
    c == '-' || c == ' '
  }

  /** A line that is not empty after `strip()`. */
  predicate NonBlank(line: string) {
    Strip(line, IsSpace) != ""
  }

  /** Characters `strip("- ")` or `strip()` may remove from the ends of a line. */
  predicate IsStepPadding(c: char) {
    IsDashOrSpace(c) || IsSpace(c)
  }

  /**
   * `line.strip("- ").strip()`: the step occurs in the line with only
   * padding before and after it, and has no whitespace at either end.
   */
  function CleanStep(line: string): (step: string)
    ensures step == [] || (!IsSpace(step[0]) && !IsSpace(step[|step| - 1]))
    ensures exists i | 0 <= i <= |line| - |step| :: StrippedAt(line, step, IsStepPadding, i)
  {
    var inner := Strip(line, IsDashOrSpace);
    var step := Strip(inner, IsSpace);
    StripTwice(line, inner, step);
    step
  }

  /** Stripping dashes and spaces, then whitespace, removes only step padding. */
  lemma StripTwice(line: string, inner: string, step: string)
    requires inner == Strip(line, IsDashOrSpace) && step == Strip(inner, IsSpace)
    ensures exists i | 0 <= i <= |line| - |step| :: StrippedAt(line, step, IsStepPadding, i)
  {
    var a :| 0 <= a <= |line| - |inner| && StrippedAt(line, inner, IsDashOrSpace, a);
    var b :| 0 <= b <= |inner| - |step| && StrippedAt(inner, step, IsSpace, b);
    StrippedNested(line, inner, step, a, b);
  }

  lemma StrippedNested(line: string, inner: string, step: string, a: nat, b: nat)
    requires StrippedAt(line, inner, IsDashOrSpace, a)
    requires StrippedAt(inner, step, IsSpace, b)
    ensures a + b <= |line| - |step| && StrippedAt(line, step, IsStepPadding, a + b)
  {
    assert forall k :: 0 <= k < |inner| ==> line[a + k] == inner[k];
    assert forall k :: 0 <= k < |step| ==> inner[b + k] == step[k];
    assert line[a + b..a + b + |step|] == step;
  }

  /**
   * When the only whitespace in the line is the plain space, the two strips
   * remove every dash at the ends: a non-empty step neither starts nor ends
   * with `'-'`. (A tab between a space and a dash stops `strip("- ")`, so
   * the dash can survive otherwise.)
   */
  lemma CleanStepNoDashEnds(line: string)
    requires forall k :: 0 <= k < |line| && IsSpace(line[k]) ==> line[k] == ' '
    ensures var step := CleanStep(line);
      step != [] ==> step[0] != '-' && step[|step| - 1] != '-'
  {
    var inner := Strip(line, IsDashOrSpace);
    if inner != [] {
      var a :| 0 <= a <= |line| - |inner| && StrippedAt(line, inner, IsDashOrSpace, a);
      InnerEndsNotSpace(line, inner, a);
      StripUnchanged(inner);
    }
  }

  /** The ends of `line.strip("- ")` are not whitespace when only `' '` is. */
  lemma InnerEndsNotSpace(line: string, inner: string, a: nat)
    requires forall k :: 0 <= k < |line| && IsSpace(line[k]) ==> line[k] == ' '
    requires inner != [] && !IsDashOrSpace(inner[0]) && !IsDashOrSpace(inner[|inner| - 1])
    requires StrippedAt(line, inner, IsDashOrSpace, a)
    ensures !IsSpace(inner[0]) && !IsSpace(inner[|inner| - 1])
  {
    assert inner[0] == line[a];
    assert inner[|inner| - 1] == line[a + |inner| - 1];
  }

  /** `strip()` leaves a text whose ends are not whitespace unchanged. */
  lemma StripUnchanged(s: string)
    requires s != [] && !IsSpace(s[0]) && !IsSpace(s[|s| - 1])
    ensures Strip(s, IsSpace) == s
  {
    assert LeadingRun(s, IsSpace) == 0;
    assert TrailingRun(s, IsSpace) == |s|;
  }

  /** The list comprehension `[f(x) for x in xs[i:] if keep(x)]`. */
  function Select(xs: seq<string>, keep: string -> bool, f: string -> string, i: nat): seq<string>
    decreases |xs| - i
  {
    if i >= |xs| then []
    else if keep(xs[i]) then [f(xs[i])] + Select(xs, keep, f, i + 1)
    else Select(xs, keep, f, i + 1)
  }

  /** The indices, from `i` on, of the elements the comprehension keeps. */
  function KeptFrom(xs: seq<string>, keep: string -> bool, i: nat): seq<nat>
    decreases |xs| - i
  {
    if i >= |xs| then []
    else if keep(xs[i]) then [i] + KeptFrom(xs, keep, i + 1)
    else KeptFrom(xs, keep, i + 1)
  }

  /** Kept indices lie in `[i, |xs|)` and increase. */
  lemma {:induction false} KeptIncreasing(xs: seq<string>, keep: string -> bool, i: nat)
    ensures forall j :: 0 <= j < |KeptFrom(xs, keep, i)| ==> i <= KeptFrom(xs, keep, i)[j] < |xs|
    ensures forall j, k :: 0 <= j < k < |KeptFrom(xs, keep, i)| ==> KeptFrom(xs, keep, i)[j] < KeptFrom(xs, keep, i)[k]
    decreases |xs| - i
  {
    if i < |xs| {
      KeptIncreasing(xs, keep, i + 1);
      var rest := KeptFrom(xs, keep, i + 1);
      if keep(xs[i]) {
        var idx := KeptFrom(xs, keep, i);
        assert idx == [i] + rest;
        forall j, k | 0 <= j < k < |idx|
          ensures idx[j] < idx[k]
        {
          assert idx[k] == rest[k - 1];
          if j > 0 {
            assert idx[j] == rest[j - 1];
          }
        }
      }
    }
  }

  /** An element from index `i` on is kept exactly when `keep` holds of it. */
  lemma {:induction false} KeptExactly(xs: seq<string>, keep: string -> bool, i: nat)
    ensures forall n :: i <= n < |xs| ==> (n in KeptFrom(xs, keep, i) <==> keep(xs[n]))
    decreases |xs| - i
  {
    if i < |xs| {
      KeptExactly(xs, keep, i + 1);
      KeptIncreasing(xs, keep, i + 1);
      assert i !in KeptFrom(xs, keep, i + 1);
    }
  }

  /** The comprehension's elements are `f` of the kept elements, in order. */
  lemma {:induction false} SelectAtKept(xs: seq<string>, keep: string -> bool, f: string -> string, i: nat)
    ensures |KeptFrom(xs, keep, i)| == |Select(xs, keep, f, i)|
    ensures forall j :: 0 <= j < |KeptFrom(xs, keep, i)| ==>
      KeptFrom(xs, keep, i)[j] < |xs| && Select(xs, keep, f, i)[j] == f(xs[KeptFrom(xs, keep, i)[j]])
    decreases |xs| - i
  {
    if i < |xs| {
      SelectAtKept(xs, keep, f, i + 1);
      if keep(xs[i]) {
        var idx := KeptFrom(xs, keep, i);
        var ys := Select(xs, keep, f, i);
        forall j | 0 <= j < |idx|
          ensures idx[j] < |xs| && ys[j] == f(xs[idx[j]])
        {
          if j > 0 {
            assert idx[j] == KeptFrom(xs, keep, i + 1)[j - 1];
            assert ys[j] == Select(xs, keep, f, i + 1)[j - 1];
          }
        }
      }
    }
  }

  /** `[f(x) for x in xs if keep(x)][:n]`, described through the kept indices. */
  lemma SelectPrefix(xs: seq<string>, keep: string -> bool, f: string -> string, n: nat)
    ensures |Take(Select(xs, keep, f, 0), n)| <= n
    ensures |Take(Select(xs, keep, f, 0), n)| == if |KeptFrom(xs, keep, 0)| <= n then |KeptFrom(xs, keep, 0)| else n
    ensures forall j :: 0 <= j < |Take(Select(xs, keep, f, 0), n)| ==>
      KeptFrom(xs, keep, 0)[j] < |xs| && Take(Select(xs, keep, f, 0), n)[j] == f(xs[KeptFrom(xs, keep, 0)[j]])
  {
    SelectAtKept(xs, keep, f, 0);
  }

  /** `[s.strip("- ").strip() for s in reply.splitlines() if s.strip()][:4]`. */
  function PlanSteps(reply: string): seq<string> {
    Take(Select(SplitLines(reply), NonBlank, CleanStep, 0), MaxSteps)
  }

  /**
   * The plan holds the first (at most four) cleaned non-blank lines of the
   * reply, in the reply's order.
   */
  lemma PlanStepsShape(reply: string)
    ensures var lines := SplitLines(reply); var idx := KeptFrom(lines, NonBlank, 0); var p := PlanSteps(reply);
      && |p| <= MaxSteps
      && |p| == (if |idx| <= MaxSteps then |idx| else MaxSteps)
      && (forall j :: 0 <= j < |p| ==> idx[j] < |lines| && p[j] == CleanStep(lines[idx[j]]))
      && (forall j, k :: 0 <= j < k < |idx| ==> idx[j] < idx[k])
      && (forall n :: 0 <= n < |lines| ==> (n in idx <==> NonBlank(lines[n])))
  {
    var lines := SplitLines(reply);
    KeptIncreasing(lines, NonBlank, 0);
    KeptExactly(lines, NonBlank, 0);
    SelectPrefix(lines, NonBlank, CleanStep, MaxSteps);
  }

  /**
   * A line made of dashes and spaces with at least one dash is not blank,
   * so the comprehension keeps it, but it cleans to an empty step.
   */
  lemma DashLineGivesEmptyStep(line: string)
    requires forall k :: 0 <= k < |line| ==> IsDashOrSpace(line[k])
    requires '-' in line
    ensures NonBlank(line) && CleanStep(line) == ""
  {
    var k :| 0 <= k < |line| && line[k] == '-';
    assert !IsSpace(line[k]);
  }

  /**
   * Hence the plan can hold empty steps: when the reply's first line is
   * such a line, the first step is empty.
   */
  lemma PlanCanHoldEmptyStep(reply: string)
    requires |SplitLines(reply)| > 0
    requires forall k :: 0 <= k < |SplitLines(reply)[0]| ==> IsDashOrSpace(SplitLines(reply)[0][k])
    requires '-' in SplitLines(reply)[0]
    ensures |PlanSteps(reply)| > 0 && PlanSteps(reply)[0] == ""
  {
    var lines := SplitLines(reply);
    var idx := KeptFrom(lines, NonBlank, 0);
    DashLineGivesEmptyStep(lines[0]);
    PlanStepsShape(reply);
    assert 0 in idx;
    var m :| 0 <= m < |idx| && idx[m] == 0;
    assert idx[0] == 0;
  }

  // -----------------------------------------------------------------------
  // act: the action list
  // -----------------------------------------------------------------------

  /** `findings.get("branch") and findings["branch"] != "unknown"`. */
  predicate NotifyWanted(findings: map<string, Json>) {
    BranchKey in findings && findings[BranchKey].Truthy() && findings[BranchKey] != Unknown
  }

  /** The actions `act` records for the given findings. */
  function ActionsFor(findings: map<string, Json>): seq<Action> {
    (if NotifyWanted(findings) then [Notify(findings[BranchKey], OwnershipMessage)] else [])
    + [Log(ExecutedMessage)]
  }

  /**
   * The list always ends with the log action and holds one or two
   * actions; a leading notify to the branch is there exactly when the
   * branch is truthy and not "unknown".
   */
  lemma ActionsShape(findings: map<string, Json>)
    ensures var acts := ActionsFor(findings);
      && 1 <= |acts| <= 2
      && acts[|acts| - 1] == Log(ExecutedMessage)
      && (|acts| == 2 <==> NotifyWanted(findings))
      && (|acts| == 2 ==> acts[0] == Notify(findings[BranchKey], OwnershipMessage))
      && (forall j :: 0 <= j < |acts| && acts[j].Notify? ==> j == 0 && NotifyWanted(findings))
  {
  }

  /** After a reply that is not JSON, the agent notifies no one. */
  lemma FallbackOnlyLogs(findings: map<string, Json>)
    ensures ActionsFor(MergeFindings(findings, None)) == [Log(ExecutedMessage)]
  {
    ClassifyFallback(findings);
  }

  // -----------------------------------------------------------------------
  // The agent state and its steps
  // -----------------------------------------------------------------------

  class AgentState {
    var incidentId: string
    var input: string
    var notes: seq<string>
    var findings: map<string, Json>
    var plan: seq<string>
    var actions: seq<Action>
    var summary: Option<string>

    constructor (incidentId: string, input: string)
      ensures this.incidentId == incidentId && this.input == input
      ensures notes == [] && findings == map[] && plan == [] && actions == [] && summary == None
    {
      this.incidentId := incidentId;
      this.input := input;
      notes := [];
      findings := map[];
      plan := [];
      actions := [];
      summary := None;
    }

    /** The intake step appends its note and changes nothing else. */
    method Intake()
      modifies this
      ensures notes == old(notes) + [IntakeNote]
      ensures incidentId == old(incidentId) && input == old(input) && findings == old(findings)
      ensures plan == old(plan) && actions == old(actions) && summary == old(summary)
    {
      notes := notes + [IntakeNote];
    }

    /** The classify step, given what `json.loads` made of the reply. */
    method Classify(parsed: Option<map<string, Json>>)
      modifies this
      ensures findings == MergeFindings(old(findings), parsed)
      ensures incidentId == old(incidentId) && input == old(input) && notes == old(notes)
      ensures plan == old(plan) && actions == old(actions) && summary == old(summary)
    {
      var data := if parsed.None? then FallbackFindings else parsed.value;
      findings := findings + data;
    }

    /** The plan step, given the planner's reply text. */
    method Plan(reply: string)
      modifies this
      ensures plan == PlanSteps(reply)
      ensures incidentId == old(incidentId) && input == old(input) && notes == old(notes)
      ensures findings == old(findings) && actions == old(actions) && summary == old(summary)
    {
      plan := PlanSteps(reply);
    }

    /** The act step, without posting the actions to the backend. */
    method Act()
      modifies this
      ensures actions == ActionsFor(old(findings))
      ensures incidentId == old(incidentId) && input == old(input) && notes == old(notes)
      ensures findings == old(findings) && plan == old(plan) && summary == old(summary)
    {
      var acts: seq<Action> := [];
      if NotifyWanted(findings) {
        acts := acts + [Notify(findings[BranchKey], OwnershipMessage)];
      }
      acts := acts + [Log(ExecutedMessage)];
      actions := acts;
    }
  }
}
