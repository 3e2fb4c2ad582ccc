/** The observability tools of the two-layer safety architecture: a mock fast
    pre-filter (layer 1), a deep evaluator wrapper whose real logic is the
    fail-safe escalation (layer 2), and the logging of the agent's response.
    Every tool writes exactly one event to the shared audit logger. */
module ObservabilityTools {
  import opened Wrappers
  import opened Strings

  /** The structured decision of the deep evaluator, after `json.loads`.
      `action` is kept as text because the parsed value is not validated. */
  datatype Decision = Decision(
    safetyScore: real,
    action: string,
    params: map<string, string>,
    confidence: real,
    reasoning: string,
    violatedRules: seq<string>)

  /** The one event type these tools use. */
  datatype EventType = UserQuery

  /** A value in an event's `details` dictionary. */
  datatype Detail = Text(text: string) | Flag(flag: bool) | Structured(decision: Decision)

  datatype Event = Event(
    eventType: EventType,
    userId: string,
    action: string,
    details: map<string, Detail>,
    success: bool,
    error: Option<string>)

  /** The module-level audit logger: an append-only record of events. */
  class AuditLog {
    var events: seq<Event>

    constructor ()
      ensures events == []
    {
      events := [];
    }

    method LogEvent(e: Event)
      modifies this
      ensures events == old(events) + [e]
    {
      events := events + [e];
    }
  }

  // Constants of the source.
  const InputLimit: nat := 200
  const Escalate: string := "escalate"
  const Approve: string := "approve"
  const Layer2Model: string := "gemini-2.0-flash-live-001"
  const MockModel: string := "mock_ml_classifier"
  const CheckMark: char := '\U{2705}'
  const WarningSign: char := '\U{26A0}'

  /** A detail field that keeps the first at most `InputLimit` characters of `s`. */
  function Clipped(s: string): (d: Detail)
    ensures d.Text? && d.text <= s && |d.text| <= InputLimit
    ensures |s| <= InputLimit ==> d.text == s
    ensures |s| > InputLimit ==> |d.text| == InputLimit
  {
    Text(Truncate(s, InputLimit))
  }

  // ---------------------------------------------------------------- layer 1

  /** The mock classifier's verdict: a constant pass with risk score 0.0,
      which the message renders with two decimals. */
  const MockIsSafe: bool := true
  const MockRiskScoreText: string := "0.00"

  /** Both messages the layer-1 tool can format. */
  function Layer1Message(isSafe: bool, riskScoreText: string): (r: string)
    ensures |r| > 0 && r[0] == (if isSafe then CheckMark else WarningSign)
    ensures Contains(r, riskScoreText)
  {
    if isSafe then
      ContainsMiddle([CheckMark] + " Layer 1 (ML) Safety Check PASSED. Risk score: ", riskScoreText, ". Proceeding to Layer 2.");
      [CheckMark] + " Layer 1 (ML) Safety Check PASSED. Risk score: " + riskScoreText + ". Proceeding to Layer 2."
    else
      ContainsMiddle([WarningSign, '\U{FE0F}'] + " Layer 1 (ML) Safety Check FAILED. Risk score: ", riskScoreText, ". Request blocked.");
      [WarningSign, '\U{FE0F}'] + " Layer 1 (ML) Safety Check FAILED. Risk score: " + riskScoreText + ". Request blocked."
  }

  /** What `safety_check_layer1` returns for any input. */
  function Layer1Result(userInput: string): (r: string)
    ensures |r| > 0 && r[0] == CheckMark && Contains(r, "0.00")
  {
    Layer1Message(MockIsSafe, MockRiskScoreText)
  }

  /** Layer 1 always passes, with risk score 0.00: the FAILED message, for
      any risk score, is never what it returns. */
  lemma Layer1AlwaysPasses(userInput: string, riskScoreText: string)
    ensures Layer1Result(userInput) == Layer1Message(true, "0.00")
    ensures Layer1Result(userInput) != Layer1Message(false, riskScoreText)
  {
    assert Layer1Message(false, riskScoreText)[0] == WarningSign;
  }

  /** The event `safety_check_layer1` records. */
  function Layer1Event(userId: string, userInput: string): (e: Event)
    ensures e.eventType == UserQuery && e.userId == userId
    ensures e.action == "safety_layer1_check" && e.success && e.error == None
    ensures e.details.Keys == {"input", "model", "note"}
    ensures e.details["input"] == Clipped(userInput)
    ensures e.details["model"] == Text(MockModel)
    ensures e.details["note"] == Text("Mock implementation - always passes")
  {
    Event(UserQuery, userId, "safety_layer1_check",
          map["input" := Clipped(userInput),
              "model" := Text(MockModel),
              "note" := Text("Mock implementation - always passes")],
          true, None)
  }

  method SafetyCheckLayer1(log: AuditLog, userId: string, userInput: string) returns (r: string)
    modifies log
    ensures log.events == old(log.events) + [Layer1Event(userId, userInput)]
    ensures r == Layer1Result(userInput)
  {
    log.LogEvent(Layer1Event(userId, userInput));
    var isSafe := MockIsSafe;
    r := Layer1Message(isSafe, MockRiskScoreText);
  }

  // ---------------------------------------------------------------- layer 2

  /** The reasoning of the fail-safe decision for exception message `err`. */
  function FailureReasoning(err: string): (r: string)
    ensures Contains(r, err)
  {
    ContainsMiddle("Error during safety check: ", err, ". Escalating for human review.");
    "Error during safety check: " + err + ". Escalating for human review."
  }

  /** The decision `safety_check_layer2` returns, given the outcome of the
      model call and JSON parse: the parsed decision unchanged, or the fixed
      escalation when either step raised. */
  function Layer2Decision(outcome: Result<Decision, string>): (d: Decision)
    ensures outcome.Success? ==> d == outcome.value
    ensures outcome.Failure? ==>
      && d.action == Escalate && d.confidence == 0.0 && d.safetyScore == 0.5
      && d.params == map[] && d.violatedRules == []
      && Contains(d.reasoning, outcome.error)
  {
    match outcome
    case Success(decision) => decision
    case Failure(err) => Decision(0.5, Escalate, map[], 0.0, FailureReasoning(err), [])
  }

  /** The one event `safety_check_layer2` records for that outcome. */
  function Layer2Event(userId: string, userInput: string, outcome: Result<Decision, string>): (e: Event)
    ensures e.eventType == UserQuery && e.userId == userId
    ensures e.success <==> outcome.Success?
    ensures outcome.Success? ==>
      && e.action == "safety_layer2_check" && e.error == None
      && e.details.Keys == {"input", "model", "decision"}
      && e.details["input"] == Clipped(userInput)
      && e.details["model"] == Text(Layer2Model)
      && e.details["decision"] == Structured(outcome.value)
    ensures outcome.Failure? ==>
      e.action == "safety_layer2_check_failed" && e.error == Some(outcome.error) && e.details == map[]
  {
    match outcome
    case Success(decision) =>
      Event(UserQuery, userId, "safety_layer2_check",
            map["input" := Clipped(userInput),
                "model" := Text(Layer2Model),
                "decision" := Structured(decision)],
            true, None)
    case Failure(err) =>
      Event(UserQuery, userId, "safety_layer2_check_failed", map[], false, Some(err))
  }

  method SafetyCheckLayer2(log: AuditLog, userId: string, userInput: string,
                           outcome: Result<Decision, string>) returns (d: Decision)
    modifies log
    ensures log.events == old(log.events) + [Layer2Event(userId, userInput, outcome)]
    ensures d == Layer2Decision(outcome)
  {
    match outcome {
      case Success(decision) =>
        log.LogEvent(Event(UserQuery, userId, "safety_layer2_check",
                           map["input" := Clipped(userInput),
                               "model" := Text(Layer2Model),
                               "decision" := Structured(decision)],
                           true, None));
        d := decision;
      case Failure(err) =>
        log.LogEvent(Event(UserQuery, userId, "safety_layer2_check_failed", map[], false, Some(err)));
        d := Decision(0.5, Escalate, map[], 0.0, FailureReasoning(err), []);
    }
  }

  /** An "approve" decision only ever comes from a successful evaluation that
      itself approved: no failure of the model call or the parse defaults to it. */
  lemma ApproveOnlyFromEvaluator(outcome: Result<Decision, string>)
    ensures Layer2Decision(outcome).action == Approve ==>
      outcome.Success? && outcome.value.action == Approve
  {
  }

  /** The returned decision and the logged event agree: on success the event
      carries exactly the returned decision; on failure the returned reasoning
      names the error the event records. */
  lemma Layer2LogAgreesWithDecision(userId: string, userInput: string, outcome: Result<Decision, string>)
    ensures var e := Layer2Event(userId, userInput, outcome);
            var d := Layer2Decision(outcome);
            && (e.success ==> e.details["decision"] == Structured(d))
            && (!e.success ==> e.error.Some? && Contains(d.reasoning, e.error.value) && d.action == Escalate)
  {
  }

  // ---------------------------------------------------------------- response log

  /** The confirmation `log_agent_response` returns; it names the model. */
  function ResponseConfirmation(modelUsed: string): (r: string)
    ensures Contains(r, modelUsed)
  {
    ContainsMiddle([CheckMark] + " Response logged successfully for audit trail (model: ", modelUsed, ")");
    [CheckMark] + " Response logged successfully for audit trail (model: " + modelUsed + ")"
  }

  /** The event `log_agent_response` records. */
  function ResponseEvent(userId: string, responseSummary: string, modelUsed: string): (e: Event)
    ensures e.eventType == UserQuery && e.userId == userId
    ensures e.action == "llm_response" && e.success && e.error == None
    ensures e.details.Keys == {"model", "response_received", "summary"}
    ensures e.details["summary"] == Clipped(responseSummary)
    ensures e.details["model"] == Text(modelUsed)
    ensures e.details["response_received"] == Flag(true)
  {
    Event(UserQuery, userId, "llm_response",
          map["model" := Text(modelUsed),
              "response_received" := Flag(true),
              "summary" := Clipped(responseSummary)],
          true, None)
  }

  method LogAgentResponse(log: AuditLog, userId: string, responseSummary: string,
                          modelUsed: string := Layer2Model) returns (r: string)
    modifies log
    ensures log.events == old(log.events) + [ResponseEvent(userId, responseSummary, modelUsed)]
    ensures r == ResponseConfirmation(modelUsed)
  {
    log.LogEvent(ResponseEvent(userId, responseSummary, modelUsed));
    r := ResponseConfirmation(modelUsed);
  }
}
