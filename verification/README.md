# DevTriage.AI log-signal core in Dafny

This project models the deterministic parts of the DevTriage.AI incident-triage
assistant and proves properties about them:

- **`parse_logs`** (`app/tools/log_parser.py`) — the log signal extractor. It
  splits a log into lines and makes one pass over them. For each line it finds
  the level keyword, the timestamp, an exception signature, the error markers,
  stack-trace markers and four categorical signals (`http_latency`, `oom`,
  `retries`, `timeout`). It tallies four level buckets, derives "suspected
  causes" from a fixed rule table and returns capped prefixes of every list.
  The model is a `while` loop over the lines (`LogParser.ParseLogs`) whose
  invariant ties the accumulators to a specification over the scanned prefix.
- **`generate_test_logs`** (`app/tools/log_generator.py`) — the synthetic log
  generator. It builds a profile-specific body: fixed templates, a
  weighted-random nginx access log, or the periodic mod-17/mod-29 database
  pattern. It pads the body with heartbeat lines, joins the lines with
  newlines and returns the profile's ground truth. The loops become methods
  proved against recursive specification functions.
- **The fallback grader** (`app/tools/evaluator.py`) — the heuristic that
  grades a normalized report when the model-based grading fails: five
  conditional scores, their sum, a letter ladder and a pass cutoff.
- **The agent steps** (`packages/agent/app.py`):
  - the intake note;
  - the merge of the classifier's reply into the findings;
  - plan-step extraction from the planner's reply;
  - the action list.

  The agent state is a class whose step methods update its fields.

Shared Python string behaviour lives in `text.dfy`: `in`, `splitlines()`,
`"\n".join`, `strip`, `lower` and `str(n)`. The files are `wrappers.dfy`,
`text.dfy`, `log_parser.dfy`, `log_generator.dfy`, `evaluator.dfy` and
`agent.dfy`.

Only two of the parser's regular expressions are modelled concretely: the level
pattern `LVL` and the literal substring tests. The others are predicates on a
line, passed in as a `LogParser.Patterns` value. The generator's clock is a
function `ts` from a second offset to the formatted timestamp. Its random
generator is a function `draw` giving the raw draw behind each call: iteration
`i` of the nginx loop uses draw `2*i` for `rnd.choices` and draw `2*i+1` for
`rnd.randint`. The model replies the agent receives are parameters of its step
methods.

## Model

| member | source | states |
|---|---|---|
| Text.SplitLines | app/tools/log_parser.py:28 | `splitlines()`: no line holds a line boundary, and the empty text is the only one with no lines |
| Text.SplitJoin | app/tools/log_generator.py:87 | joining boundary-free lines with `"\n"` and splitting the result gives the lines back, provided the last line is not empty |
| Text.Strip | packages/agent/app.py:47 | `strip(chars)`: the result occurs in the input with only dropped characters before and after it, and neither of its own ends is a dropped character, which fixes it uniquely; it is empty exactly when every character is dropped |
| Text.Lower | app/tools/evaluator.py:149 | ASCII lower-casing: each capital becomes its small letter, every other character is kept, and no capital remains |
| Text.NatToStringDecimal | app/tools/log_generator.py:65 | `str(n)` is a non-empty run of decimal digits with no leading zero whose value is `n` |
| LogParser.FirstAlternativeIsFirst | app/tools/log_parser.py:7 | at one position the alternation picks an alternative that matches there, and no alternative tried before it matches |
| LogParser.SearchAlternativesLeftmost | app/tools/log_parser.py:39 | the search reports the leftmost position where some alternative matches; it reports no match only when none matches anywhere |
| LogParser.AlternativeAtKeyword | app/tools/log_parser.py:7 | an alternative of LVL matches at a position exactly when a level keyword starts there |
| LogParser.LineLevelIsLeftmost | app/tools/log_parser.py:39-40 | for the level capture `LineLevel`: a line has no level exactly when no keyword occurs in it; otherwise the level's name occurs at a position with no keyword further left |
| LogParser.LevelNeverWarning | app/tools/log_parser.py:7 | the captured level is never WARNING, because WARN is tried first and is a prefix of it |
| LogParser.WarningReadsAsWarn | app/tools/log_parser.py:39-40 | a line whose first keyword is WARNING gets level WARN |
| LogParser.LineExceptions | app/tools/log_parser.py:47-49 | a line adds one `exceptions` entry exactly when the exception pattern matches, and none otherwise |
| LogParser.LineErrors | app/tools/log_parser.py:47-52 | a line adds at most two `errors` entries (one for the exception match, one for the generic marker test `HasErrorMarker`), each the raw line; at most one when the exception pattern does not match |
| LogParser.ExceptionLineAddsTwoErrors | app/tools/log_parser.py:47-52 | a line matching the exception pattern adds `"<type>: <message>"` to `exceptions` and two copies of itself to `errors` |
| LogParser.EventsOf | app/tools/log_parser.py:63 | one event per line, in line order, each with the line's timestamp, level and text |
| LogParser.Bump | app/tools/log_parser.py:41-42 | bumping a bucket never adds or removes a key of `counts` |
| LogParser.CountsOf | app/tools/log_parser.py:33 | `counts` has exactly the keys ERROR, WARN, INFO and DEBUG after any number of lines |
| LogParser.CountsOfCountOf | app/tools/log_parser.py:39-42 | each bucket holds the number of lines whose level is that bucket's level |
| LogParser.CountTotalBound | app/tools/log_parser.py:33-42 | each line bumps at most one bucket, so the buckets add up to at most the number of lines |
| LogParser.UncountedLevelLine | app/tools/log_parser.py:41-42 | a TRACE, FATAL or CRITICAL line has a level but leaves every bucket unchanged |
| LogParser.WarningLineCountsAsWarn | app/tools/log_parser.py:39-42 | a line whose first keyword is WARNING increments the WARN bucket |
| LogParser.ErrorsAreLines | app/tools/log_parser.py:50-54 | every `errors` entry and every `stack_traces` entry is a line of the log, and there are at most two errors per line |
| LogParser.ExceptionsBound | app/tools/log_parser.py:47-49 | at most one exception is collected per line |
| LogParser.SignalsFromLines | app/tools/log_parser.py:55-62 | a signal is present exactly when some line raises it |
| LogParser.SortedSignals | app/tools/log_parser.py:82 | `sorted(signals)` is strictly increasing, has no repeats, and holds a signal's name exactly when the signal is present |
| LogParser.SuspectedFollowsRuleTable | app/tools/log_parser.py:65-73 | each cause is listed exactly when its rule holds, in rule order, so there are at most four |
| Text.Take | app/tools/log_parser.py:77-80 | `s[:n]` is the prefix of `s` of length `min(len(s), n)` |
| LogParser.ScanStep | app/tools/log_parser.py:37-63 | scanning one more line is one step of the loop body applied to the earlier result |
| LogParser.CountLevel | app/tools/log_parser.py:39-42 | the level found is the line's level, and its bucket is bumped when `counts` has it |
| LogParser.CollectErrors | app/tools/log_parser.py:47-52 | the errors and exceptions lists grow by exactly the line's contributions |
| LogParser.AddSignals | app/tools/log_parser.py:55-62 | the signal set grows by exactly the signals the line raises |
| LogParser.ScanLine | app/tools/log_parser.py:37-63 | one loop iteration updates every accumulator as the specification's step does |
| LogParser.BuildSuspected | app/tools/log_parser.py:65-73 | the appended causes are those whose rule holds, in rule order, at most four |
| LogParser.ParseSpecShape | app/tools/log_parser.py:28-84 | the full result contract; see the list after this table |
| LogParser.FilenameOnlyEchoed | app/tools/log_parser.py:76 | the filename is returned unchanged and affects no other field |
| LogParser.ParseLogs | app/tools/log_parser.py:17-85 | the loop computes exactly the specified result: one pass, then the rule table and the caps |
| LogGenerator.ProfileOf | app/tools/log_generator.py:6-13 | a known profile name selects the profile of that name; any other string selects none |
| LogGenerator.WeightedStatus | app/tools/log_generator.py:63 | the status is one of 200, 204, 500, 502, 503, and 200 exactly when the draw falls in the first 85 of 100 slots |
| LogGenerator.Latency | app/tools/log_generator.py:64 | the latency lies in [20, 2000] ms |
| LogGenerator.NginxBody | app/tools/log_generator.py:62-65 | the nginx body has exactly one line per iteration; line `i` carries timestamp offset `i`, the status from draw `2i` and the latency from draw `2i+1` |
| LogGenerator.DbStep | app/tools/log_generator.py:76-81 | iteration `i` emits a WARN first when 17 divides `i`, then exactly one of ERROR (when 29 divides `i`) or INFO |
| LogGenerator.DbBodyLength | app/tools/log_generator.py:75-81 | the db body has `n + ceil(n/17)` lines, never fewer than `n` |
| LogGenerator.DbBodyPrefix | app/tools/log_generator.py:75-81 | the body after fewer iterations is a prefix of the body after more |
| LogGenerator.DbStepInBody | app/tools/log_generator.py:75-81 | iteration `i`'s lines sit in the body right after those of iterations `0..i-1` |
| LogGenerator.DbBodyStart | app/tools/log_generator.py:76-79 | the db body opens with a WARN and then an ERROR, both for index 0 |
| LogGenerator.PadShape | app/tools/log_generator.py:84-85 | `Pad`, the heartbeat loop: padding brings the list to `max(len(out), lines)`, keeps the body as a prefix, and the heartbeat at index `k` carries offset `k` |
| LogGenerator.BodySize | app/tools/log_generator.py:36-81 | body sizes: 5, 5, 4 and 3 for the templated profiles, `max(lines, 0)` for nginx-5xx, `n + ceil(n/17)` for db-connection-timeout, 0 otherwise |
| LogGenerator.TruthTable | app/tools/log_generator.py:34-74 | severity is critical, high or medium; a known profile sets a root cause; an unknown one keeps the default truth and emits only heartbeats |
| LogGenerator.GeneratedShape | app/tools/log_generator.py:83-85 | for `Generate`, the whole generation before joining: the final list has `max(len(body), lines)` lines, at least `lines`, starts with the body, and then holds only heartbeats stamped with their own index |
| LogGenerator.NginxLoop | app/tools/log_generator.py:62-65 | the nginx loop builds exactly the nginx body |
| LogGenerator.DbLoop | app/tools/log_generator.py:75-81 | the db loop builds exactly the db body |
| LogGenerator.GenerateTestLogs | app/tools/log_generator.py:20-87 | the result is the padded body joined by `"\n"`, the profile's ground truth and the profile unchanged |
| Evaluator.LetterGradeMonotone | app/tools/evaluator.py:157 | for the letter ladder `LetterGrade`: a higher total never earns a lower letter |
| Evaluator.PassAgreesWithLetter | app/tools/evaluator.py:157-158 | `DecisionFor` and `LetterGrade` agree: a passing total earns at least a C, and an A or B always passes |
| Evaluator.FallbackSummary | app/tools/evaluator.py:149 | the inspected text always holds the joining space after the summary, so it is never empty |
| Evaluator.FallbackScore | app/tools/evaluator.py:151-155 | every fallback criterion score is 2 or 3 |
| Evaluator.RelevanceAlwaysThree | app/tools/evaluator.py:149-151 | relevance is always 3 |
| Evaluator.FallbackTotalRange | app/tools/evaluator.py:151-156 | the total is in [12, 15]; 15 exactly when there are next actions and repro steps, 12 exactly when there are neither next actions nor evidence |
| Evaluator.FallbackGradeShape | app/tools/evaluator.py:157-176 | the full contract of `FallbackGrade`, the fallback result; see the list after this table |
| Agent.MergeFindings | packages/agent/app.py:37-41 | a decoded reply adds its keys, and its values override the old ones |
| Agent.ClassifyFallback | packages/agent/app.py:37-41 | a reply that is not JSON sets branch "unknown" and severity 3 and keeps every other key |
| Agent.ClassifyKeepsOtherKeys | packages/agent/app.py:41 | keys the reply does not mention keep their values |
| Agent.CleanStep | packages/agent/app.py:47 | `strip("- ").strip()`: the step occurs in its line with only dashes, spaces and whitespace before and after it, and has no whitespace at either end |
| Agent.CleanStepNoDashEnds | packages/agent/app.py:47 | when the only whitespace in a line is the plain space, a non-empty step neither starts nor ends with `-` |
| Agent.KeptExactly | packages/agent/app.py:47 | the comprehension keeps a line exactly when its filter holds of it |
| Agent.SelectAtKept | packages/agent/app.py:47 | the comprehension's elements are the mapped kept lines, in order |
| Agent.PlanStepsShape | packages/agent/app.py:47 | for the step extraction `PlanSteps`: the plan has at most 4 steps: the first cleaned non-blank lines, in order, with blank lines dropped |
| Agent.DashLineGivesEmptyStep | packages/agent/app.py:47 | a line made of dashes and spaces with at least one dash is not blank, so it is kept, but it cleans to an empty step |
| Agent.PlanCanHoldEmptyStep | packages/agent/app.py:47 | so the plan can hold empty strings: when the reply's first line is such a line, the first step is `""` |
| Agent.ActionsShape | packages/agent/app.py:52-56 | for the action list `ActionsFor`: there are one or two actions, ending with the log action; a leading notify to the branch is there exactly when the branch is truthy and not "unknown" |
| Agent.FallbackOnlyLogs | packages/agent/app.py:37-56 | after a reply that is not JSON, the only action is the log action |
| Agent.AgentState.constructor | packages/agent/app.py:16-23 | a fresh state has the given incident id and input, and empty notes, findings, plan and actions |
| Agent.AgentState.Intake | packages/agent/app.py:30-32 | appends exactly "intake started" to the notes and changes nothing else |
| Agent.AgentState.Classify | packages/agent/app.py:34-42 | the findings become the merge of the old findings with the reply, or with the fallback; nothing else changes |
| Agent.AgentState.Plan | packages/agent/app.py:44-49 | the plan becomes the extracted steps of the reply; nothing else changes |
| Agent.AgentState.Act | packages/agent/app.py:51-56 | the actions become the action list for the current findings; nothing else changes |

`LogParser.ParseSpecShape` states that:

- `filename` and `total_lines` are as given;
- the events are the first `min(total_lines, 1000)` lines' events, in order;
- `errors`, `exceptions` and `stack_traces` are earliest-first prefixes of the uncapped lists, of lengths `min(len, 200)`, `min(len, 100)` and `min(len, 200)`;
- every error is a line of the log;
- `counts` has the four keys, each holding its level's line count;
- `signals` is sorted and names exactly the signals some line raises;
- `suspected` follows the rule table.

`Evaluator.FallbackGradeShape` states that the fallback result has:

- `ok` false and groundedness medium;
- five criteria, in the order relevance, clarity, completeness, accuracy, actionability, each scored within 1..5;
- an overall score equal to the sum of the criterion scores;
- grade C exactly when the total is 15, and D otherwise;
- decision `needs_improvement`;
- empty fact lists, the input report unchanged, and the note naming the error.

## Left out

- The regular expressions TS, JAVA_EXC, PY_TRACE_START, JS_STACK_LINE, HTTP_LAT, TIMEOUT, OOM and RETRY are black-box predicates (`LogParser.Patterns`). No regex engine is modelled.
- LogParser.ExceptionLineAddsTwoErrors: it takes the shape JAVA_EXC guarantees for a match ("...Exception" or "Error", followed by ":") as a precondition, because the pattern is not modelled.
- LogParser.ParseResult: `counts` is keyed by the `Level` type rather than by the level strings, and the events carry `Option`s where Python has `None`.
- The k8s-crashloop profile does not produce the `oom` signal. Its lines contain "Out of memory: Killed process ... total-vm", which matches none of the OOM alternatives. No property connects generated logs to parsed signals.
- LogGenerator.GenerateTestLogs: `_ts` reads `datetime.utcnow()` on every call. In the model, `ts` is an unconstrained function of the offset, and the model relates no two offsets' stamps. It gives the two `_ts(i)` calls of a db iteration with 17 | i the same stamp, where the code may stamp them a second apart.
- LogGenerator.WeightedStatus and LogGenerator.Latency: `random.Random(seed)` is replaced by the raw draws `draw`. `choices` is modelled as cumulative weights over `draw % 100`, and `randint(20, 2000)` as `20 + draw % 1981`. Only the ranges and the weight slots are claimed, not Python's actual generator.
- The round trip from generated text back to lines is proved in general (`Text.SplitJoin`) but not for the generator's own output. That would require showing that every literal template line is free of line breaks, which the model does not do.
- Text.Lower: only ASCII letters are lower-cased. Python's `lower()` can change the length (`'İ'` becomes two code points) and depends on context (final sigma), which the model does not capture. The ensures of `Evaluator.FallbackSummary` (its length and the space after the summary) hold for this ASCII model only. The fallback heuristic relies only on the text being non-empty, which Python's `lower()` keeps, so `Evaluator.RelevanceAlwaysThree` holds for Python as well.
- Evaluator: the model-based report normalisation and grading are foreign calls to a hosted model and are not modelled (app/tools/evaluator.py:44-147, 178-206). Neither are the `json.loads` wrapper and pydantic validation. The 1..5 score bound is the predicate `ValidScore`, and the error's type name is the parameter `errorName`.
- Agent.AgentState.Classify: `json.loads` of the reply is a parameter. It is either an object or a decoding failure. A reply that decodes to a non-object value, and JSON floats, are not modelled.
- Agent: not modelled:
  - the model calls;
  - the API-key check;
  - the HTTP posting of actions (packages/agent/app.py:58-63);
  - `summarize`;
  - the graph wiring and the FastAPI endpoint.

  Actions are a datatype rather than dictionaries.
- The NestJS backend, the frontend, `test.py`, `app/graph.py` and the prompt text are not part of this model.
- Default arguments are not modelled: every parameter is passed explicitly. `generate_test_logs` defaults to `profile="python-traceback"`, `lines=200` and `seed=None` (app/tools/log_generator.py:20). `parse_logs` defaults to `filename=None` (app/tools/log_parser.py:17), which is `None` in `LogParser.ParseResult.filename`.
- Behaviour of the code that a reader might not expect, and that the model keeps:
  - an exception line adds its raw text twice to `errors`, once for the exception match and once for the generic marker, and never `"<type>: <message>"`;
  - a line whose first level keyword is WARNING counts in the WARN bucket, because the WARN alternative matches first.
