# PRIME guardrails: safety-decision shaping, text-safety verdicts and the user switcher

A Dafny model of the three pieces of logic in the PRIME guardrails
repository that are more than glue around language models and files:

- **Observability tools** (`prime_guardrails/observability_tools.py`). Layer 1
  is a mock fast pre-filter that always passes. Layer 2 wraps a deep
  evaluator (a remote model call followed by a JSON parse): a parsed decision
  is passed through unchanged, and any exception yields a fixed fail-safe
  ESCALATE decision with confidence 0.0 whose reasoning names the error. The
  response logger records the agent's answer. Each tool appends exactly one
  event to the shared audit logger, modelled as the class
  `ObservabilityTools.AuditLog` over an append-only `seq<Event>`; the tools
  are methods that take that logger, and the decisions, events and messages
  they produce are functions over the evaluator's outcome
  (`Result<Decision, string>`, the error being the exception's message):
  `Layer1Message` / `Layer1Result` (the layer-1 return), `Layer1Event`,
  `Layer2Decision`, `Layer2Event`, `ResponseConfirmation` and
  `ResponseEvent`.
- **Text-safety verdict** (`TextSafetyTool.check` in `prime_guardrails/tools.py`):
  the first classifier prediction's label, lower-cased, is tested for the
  substring "offensive"; the verdict's confidence is that prediction's score;
  a classifier failure (including an empty prediction list) fails open to
  `{is_safe: true, risk_category: "Error", confidence: 0.0}`. The classifier's
  output is the input `Result<seq<Prediction>, string>`, and the function
  `TextSafety.Check` is the method body; the lemmas beside it state its
  behaviour.
- **User switcher** (`demo/switch_user.py`): a key is looked up in the fixed
  `USERS` table; for a known key the configuration text is split on `'\n'`,
  every line holding the ROLE, ID or NAME marker (tested in that order) is
  replaced by the setting line for the chosen user, and the lines are joined
  again. `SwitchUser.RewriteLine` is one step of the `if/elif` chain and
  `SwitchUser.Switch` is the loop, proved against
  `SwitchUser.SwitchedContent`; the lemmas show that the line count is kept,
  unmarked lines are untouched, switching is idempotent and a later switch
  overrides an earlier one. The text read is an input and the text written
  an output (`None` when nothing is written).

`Strings` models the Python string built-ins used: `sub in s` (the predicate `Contains`),
`s[:n]` (`Truncate`), `str.lower` (`Lower`), `str.split('\n')` (`Split`) and
`'\n'.join` (`Join`), with the round trips between the last two.

Three behaviours of the code are worth knowing, and the model states them as
they are:

- A fail-safe gate would treat a deep-evaluator decision whose action is not
  approve, reject, rewrite or escalate like an evaluator failure and escalate.
  The code returns any parsed decision unchanged, so `Layer2Decision` passes
  every action through. What is proved is that "approve" can only come from an
  evaluator that itself said "approve" (`ApproveOnlyFromEvaluator`).
- Layer 1 never rejects anything: it is a mock whose verdict is the constant
  "safe" with risk score 0.0, so its FAILED message is never produced
  (`Layer1AlwaysPasses`).
- `TextSafetyTool.check` fails open: a classifier error gives a safe verdict,
  and the model states exactly that (`FailsOpen`).

## Model

| member | source | states |
|---|---|---|
| `ObservabilityTools.AuditLog.constructor` | prime_guardrails/observability_tools.py:19 | a new audit logger holds no events |
| `ObservabilityTools.AuditLog.LogEvent` | prime_guardrails/observability_tools.py:47-56 | logging appends exactly the given event at the end and changes nothing before it |
| `Strings.Truncate` | prime_guardrails/observability_tools.py:52 | `s[:n]` is a prefix of `s` of length `min(|s|, n)` |
| `ObservabilityTools.Clipped` | prime_guardrails/observability_tools.py:52 | a logged input is a prefix of the input of at most 200 characters: the whole input when it is that short, exactly its first 200 characters otherwise |
| `ObservabilityTools.Layer1Message` | prime_guardrails/observability_tools.py:62-65 | the layer-1 message starts with the check mark when the verdict is safe and with the warning sign otherwise, and contains the risk score |
| `ObservabilityTools.Layer1Result` | prime_guardrails/observability_tools.py:58-65 | the mock layer 1 returns a message starting with the check mark that contains the score 0.00 |
| `ObservabilityTools.Layer1AlwaysPasses` | prime_guardrails/observability_tools.py:58-65 | for every input layer 1 returns the PASSED message with risk score 0.00 and never the FAILED message, whatever its score |
| `ObservabilityTools.Layer1Event` | prime_guardrails/observability_tools.py:47-56 | the layer-1 event is a user-query event of the current user with action `safety_layer1_check`, succeeds, carries no error, and has exactly the details input (cut to at most 200 characters), the mock model and the fixed note |
| `ObservabilityTools.SafetyCheckLayer1` | prime_guardrails/observability_tools.py:30-65 | appends exactly the layer-1 event to the log and returns the mock's layer-1 message, the PASSED one |
| `ObservabilityTools.FailureReasoning` | prime_guardrails/observability_tools.py:170 | the fallback reasoning contains the error message |
| `ObservabilityTools.Layer2Decision` | prime_guardrails/observability_tools.py:136-173 | a successful evaluation is returned unchanged, whatever its action; a failure gives action escalate, confidence 0.0, safety score 0.5, empty params and violated rules, and a reasoning that contains the error |
| `ObservabilityTools.ApproveOnlyFromEvaluator` | prime_guardrails/observability_tools.py:152-173 | an approve decision only comes from a successful evaluation that approved; no failure defaults to approve |
| `ObservabilityTools.Layer2Event` | prime_guardrails/observability_tools.py:139-162 | the event is a user-query event of the current user that succeeds exactly when the evaluation did; on success it is `safety_layer2_check` with exactly the details input (cut to 200 characters), the layer-2 model and the decision; on failure it is `safety_layer2_check_failed` with the error set and no details |
| `ObservabilityTools.Layer2LogAgreesWithDecision` | prime_guardrails/observability_tools.py:139-173 | the logged event and the returned decision agree: on success the event carries the returned decision, on failure the returned escalation's reasoning contains the error the event records |
| `ObservabilityTools.SafetyCheckLayer2` | prime_guardrails/observability_tools.py:125-173 | appends exactly one layer-2 event for the outcome and returns the layer-2 decision for it |
| `ObservabilityTools.ResponseConfirmation` | prime_guardrails/observability_tools.py:201 | the confirmation names the model used |
| `ObservabilityTools.ResponseEvent` | prime_guardrails/observability_tools.py:189-199 | the response event is a user-query event of the current user with action `llm_response`, succeeds, and has exactly the details model, `response_received` true and the summary cut to at most 200 characters |
| `ObservabilityTools.LogAgentResponse` | prime_guardrails/observability_tools.py:176-201 | appends exactly the response event (model defaulting to the layer-2 model) and returns the confirmation |
| `Strings.Lower` | prime_guardrails/tools.py:19 | the lower-cased label has the same length; every upper-case ASCII letter becomes the lower-case letter at the same position, so none is left; every other character is kept at its position |
| `Strings.Contains` | prime_guardrails/tools.py:25 | `sub in s` holds only when `sub` is no longer than `s`, and holds whenever `sub` is a prefix of `s` |
| `Strings.LowerIdempotent` | prime_guardrails/tools.py:19 | lower-casing an already lower-cased label changes nothing |
| `Strings.LowerSlice` | prime_guardrails/tools.py:19-25 | lower-casing commutes with taking a slice, so a substring test on the lower-cased label sees the lower-cased substring |
| `TextSafety.Check` | prime_guardrails/tools.py:11-39 | the verdict is unsafe exactly when classification succeeded with a first label holding "offensive" after lower-casing; the category is Error exactly when classification failed or returned nothing, and then the verdict is safe with confidence 0.0; otherwise the confidence is the first prediction's score and the category is None or Offensive with the verdict |
| `TextSafety.OffensiveIsFlagged` | prime_guardrails/tools.py:18-27 | a first label containing "offensive" after lower-casing gives `is_safe` false, category Offensive and the prediction's score |
| `TextSafety.OtherLabelsAreSafe` | prime_guardrails/tools.py:22-33 | any other first label gives `is_safe` true, category None and the prediction's score |
| `TextSafety.UnsafeIff` | prime_guardrails/tools.py:12-39 | the verdict is unsafe if and only if classification succeeded with a first label containing "offensive"; the category is Error if and only if classification failed or returned nothing |
| `TextSafety.FailsOpen` | prime_guardrails/tools.py:34-39 | a classifier failure or an empty prediction list gives safe, category Error, confidence 0.0 |
| `TextSafety.OnlyFirstPredictionCounts` | prime_guardrails/tools.py:18-20 | predictions after the first do not change the verdict, and the confidence is the first score unchanged |
| `TextSafety.CaseInsensitive` | prime_guardrails/tools.py:19-25 | labels equal up to ASCII case get the same verdict |
| `TextSafety.OffensiveInAnyCase` | prime_guardrails/tools.py:19-27 | a label holding "offensive" in any mixture of case is flagged Offensive |
| `SwitchUser.UsersTable` | demo/switch_user.py:13-29 | the table has exactly the keys user, staff, admin; each entry's id is its key; the roles are USER, STAFF, ADMIN |
| `SwitchUser.TableIsUnambiguous` | demo/switch_user.py:13-29 | every table user's values are single lines and cannot make a setting line match a higher-precedence marker |
| `SwitchUser.SettingLine` | demo/switch_user.py:51-55 | a written setting line contains its own marker |
| `SwitchUser.SettingLinesKeepTheirMarkers` | demo/switch_user.py:50-55 | for such a user, the ROLE, ID and NAME lines have no newline, hold their own marker, and the ID and NAME lines hold no marker tested before theirs |
| `SwitchUser.RewriteLine` | demo/switch_user.py:50-57 | a line holding the ROLE marker becomes the user's ROLE line; otherwise one holding the ID marker its ID line; otherwise one holding the NAME marker its NAME line; a line holding none is kept |
| `SwitchUser.SwitchedContent` | demo/switch_user.py:46-61 | a text none of whose lines is marked is written back unchanged, and the written text starts with the rewrite of the first line |
| `SwitchUser.RewritePrecedence` | demo/switch_user.py:50-57 | ROLE wins over ID and ID over NAME; a line is replaced by one setting line at most; an unmarked line is kept |
| `SwitchUser.RewriteOverrides` | demo/switch_user.py:50-57 | rewriting a line for one table user and then for another is the same as rewriting it for the second; for the same user, rewriting is idempotent |
| `SwitchUser.RewriteKeepsOneLine` | demo/switch_user.py:49-57 | rewriting a line never introduces a newline |
| `SwitchUser.Switch` | demo/switch_user.py:31-61 | an unknown key returns false and writes nothing; a known key returns true and writes the text with every line rewritten for that user |
| `Strings.Split` | demo/switch_user.py:46 | splitting gives at least one piece and no piece contains a newline |
| `Strings.Join` | demo/switch_user.py:61 | the joined text starts with the first line |
| `Strings.JoinSplit` | demo/switch_user.py:46-61 | joining the pieces of a split gives back the text |
| `Strings.SplitJoin` | demo/switch_user.py:46-61 | splitting a join of at least one newline-free line gives back the lines |
| `SwitchUser.SwitchedLines` | demo/switch_user.py:46-61 | the written text has as many lines as the text read; each line is the rewrite of the line at its position; unmarked lines are copied; ROLE lines become the user's ROLE line |
| `SwitchUser.UnmarkedTextUnchanged` | demo/switch_user.py:46-61 | a text with no marker line is written back exactly as read |
| `SwitchUser.SwitchOverrides` | demo/switch_user.py:46-61 | switching to one table user and then another gives the text of switching to the second only |
| `SwitchUser.SwitchIdempotent` | demo/switch_user.py:46-61 | switching twice with the same key gives the text of one switch, and a later key overrides an earlier one |

## Left out

- The Gemini client and the `generate_content` call, and `json.loads` / `json.dumps`: network I/O and serialisation; the model takes their combined outcome as a `Result<Decision, string>` (a parsed decision or the exception text) and returns the decision record instead of its JSON text.
- A parsed JSON value that is not a decision object is passed through by the source as well: a list or a number, an object with extra keys, with `action` or another field missing, or with fields of other types. The model's `Decision` record has exactly the six fields with fixed types and cannot hold such values; `params` is modelled as a map from strings to strings.
- The prompt text of layer 2: presentation only.
- The internals of the audit logger, the configuration and the rules modules, which are not part of this model: the current user id (`config.IAM_CURRENT_USER_ID`) is a parameter, the event type is the one value `UserQuery`, an event not given `success`, `error` or `details` gets `true`, no error and no details; sequence numbers and timestamps the logger may add are not modelled. A logger that raises inside layer 2's `try` would lead the source to log a second, failure event; the model assumes logging does not raise.
- The formatting of the layer-1 risk score with two decimals: the mock's only score 0.0 is written as the text "0.00".
- `ImageSafetyTool`, the classifier pipeline built in `TextSafetyTool.__init__` and the `print` of the failure message: model inference, HTTP and image decoding, console output.
- A prediction without a `label` or `score` key, or a label that is not a string, which makes the source raise and fail open: the model's `Prediction` always has both, of the right types. `str.lower` is modelled on ASCII letters only; Unicode case mapping is not.
- The file read and write in `switch_user`, its `print` output and the command-line handling: the model takes the text read and returns the text written.
- `prime_guardrails/prompt.py`, `prime_guardrails/agent.py` and the RBAC package `prime_guardrails/iam/`, which only re-exports modules that are not part of this model: no logic to verify; the roles, permissions and ticket store of the design are not in the code modelled.
