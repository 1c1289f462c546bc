/**
 * The student agent: `update_mastery` scores a concept against its context,
 * writes the mastery update to the knowledge graph and, only when the write
 * succeeds, records the truth-field strength as a resonance metric.
 */
module StudentAgent {
  import opened Wire
  import opened Capabilities
  import opened Scoring

  /** The decoded request; `context` may be absent. */
  datatype UpdateMasteryInput = UpdateMasteryInput(op: string, concept: string, delta: real, context: Option<string>)

  /** A fixed message, or the success message with the concept and the strength it prints to four decimals. */
  datatype Message =
    | Text(text: string)
    | MasteryUpdated(concept: string, truthFieldStrength: real)

  datatype UpdateMasteryResponse = UpdateMasteryResponse(
    success: bool,
    newMastery: real,
    truthFieldStrength: real,
    harmonicCoherence: real,
    message: Message)

  const DefaultContext := "general_learning"
  const AgentId := "student_agent"

  const GraphWriteFailed := "Graph write operation failed"
  const UnknownOperation := "Unknown operation"
  const InvalidInputFormat := "Invalid input format"

  /** Every failure: not successful, all numbers zero. */
  function Failure(message: string): UpdateMasteryResponse {
    UpdateMasteryResponse(false, 0.0, 0.0, 0.0, Text(message))
  }

  /** The context the request names, or `general_learning`. */
  function ContextOf(input: UpdateMasteryInput): (context: string)
    ensures input.context.Some? ==> context == input.context.value
    ensures input.context.None? ==> context == DefaultContext
  {
    input.context.GetOr(DefaultContext)
  }

  /** The graph mutation for one mastery update, stamped with `timestamp` seconds since the epoch. */
  function MasteryMutation(input: UpdateMasteryInput, truthField: real, coherence: real, timestamp: u64): (r: Payload)
    ensures r.Keys == {"operation", "concept", "delta", "truth_field_strength", "harmonic_coherence", "context", "timestamp"}
    ensures r["operation"] == JString("update_mastery") && r["context"] == JString(ContextOf(input))
  {
    map[
      "operation" := JString("update_mastery"),
      "concept" := JString(input.concept),
      "delta" := JNumber(input.delta),
      "truth_field_strength" := JNumber(truthField),
      "harmonic_coherence" := JNumber(coherence),
      "context" := JString(ContextOf(input)),
      "timestamp" := JUnsigned(timestamp)]
  }

  /** The single graph write an `update_mastery` request issues. */
  function WriteCall(m: Math, input: UpdateMasteryInput, timestamp: u64): HostCall {
    var context := ContextOf(input);
    GraphWrite(MasteryMutation(input, TruthField(m, input.concept, context), Coherence(m, input.concept, context), timestamp))
  }

  /**
   * The entry point `run`: the reply to a decoded request, given the host's
   * answers and the clock reading taken for the mutation.
   */
  function Run(m: Math, host: Host, timestamp: u64, request: Decoded<UpdateMasteryInput>): (reply: Reply<UpdateMasteryResponse>)
    ensures reply.response.success <==>
      request.Decoded? && request.input.op == "update_mastery" && host(WriteCall(m, request.input, timestamp)) == Ok
    ensures !reply.response.success ==>
      && reply.response.newMastery == 0.0
      && reply.response.truthFieldStrength == 0.0
      && reply.response.harmonicCoherence == 0.0
    ensures request.Decoded? && request.input.op == "update_mastery" ==>
      |reply.calls| >= 1 && reply.calls[0] == WriteCall(m, request.input, timestamp)
    ensures !(request.Decoded? && request.input.op == "update_mastery") ==> reply.calls == []
  {
    match request
    case Malformed => Reply(Failure(InvalidInputFormat), [])
    case Decoded(input) =>
      if input.op == "update_mastery" then
        var context := ContextOf(input);
        var truthField := TruthField(m, input.concept, context);
        var coherence := Coherence(m, input.concept, context);
        var write := GraphWrite(MasteryMutation(input, truthField, coherence, timestamp));
        match host(write)
        case Ok =>
          var response := UpdateMasteryResponse(
            true, input.delta, truthField, coherence, MasteryUpdated(input.concept, truthField));
          Reply(response, [write, RecordResonance(AgentId, context, truthField)])
        case Err => Reply(Failure(GraphWriteFailed), [write])
      else
        Reply(Failure(UnknownOperation), [])
  }

  lemma MalformedRejected(m: Math, host: Host, timestamp: u64)
    ensures Run(m, host, timestamp, Malformed) == Reply(Failure(InvalidInputFormat), [])
  {
  }

  lemma UnknownOperationRejected(m: Math, host: Host, timestamp: u64, input: UpdateMasteryInput)
    requires input.op != "update_mastery"
    ensures Run(m, host, timestamp, Decoded(input)) == Reply(Failure(UnknownOperation), [])
  {
  }

  /**
   * A successful write is followed by exactly one resonance metric for
   * `student_agent` in the effective context; the reply echoes the input delta
   * as the new mastery, and the strength written, recorded and reported is one
   * and the same value, as is the coherence written and reported.
   */
  lemma MasteryUpdate(m: Math, host: Host, timestamp: u64, input: UpdateMasteryInput)
    requires input.op == "update_mastery" && host(WriteCall(m, input, timestamp)) == Ok
    ensures var reply := Run(m, host, timestamp, Decoded(input));
      var context := ContextOf(input);
      var truthField := reply.response.truthFieldStrength;
      var coherence := reply.response.harmonicCoherence;
      && reply.response.success
      && reply.response.newMastery == input.delta
      && truthField == TruthField(m, input.concept, context)
      && coherence == Coherence(m, input.concept, context)
      && reply.response.message == MasteryUpdated(input.concept, truthField)
      && reply.calls == [
        GraphWrite(MasteryMutation(input, truthField, coherence, timestamp)),
        RecordResonance(AgentId, context, truthField)]
  {
  }

  /** A refused write records no metric and reports the failure with zeros. */
  lemma WriteRefused(m: Math, host: Host, timestamp: u64, input: UpdateMasteryInput)
    requires input.op == "update_mastery" && host(WriteCall(m, input, timestamp)) == Err
    ensures Run(m, host, timestamp, Decoded(input)) == Reply(Failure(GraphWriteFailed), [WriteCall(m, input, timestamp)])
  {
  }

  /** The mutation carries the effective context: `general_learning` when the request names none. */
  lemma DefaultContextWritten(m: Math, timestamp: u64, input: UpdateMasteryInput)
    requires input.context.None?
    ensures WriteCall(m, input, timestamp).mutation["context"] == JString(DefaultContext)
  {
    assert "timestamp" != "context";
  }

  /** With lawful library functions the strength lies in [0.5, 1] and the coherence in [0, 1]. */
  lemma ScoresInRange(m: Math, host: Host, timestamp: u64, request: Decoded<UpdateMasteryInput>)
    requires Lawful(m)
    ensures var response := Run(m, host, timestamp, request).response;
      && (response.success ==> 0.5 <= response.truthFieldStrength <= 1.0)
      && 0.0 <= response.harmonicCoherence <= 1.0
  {
  }

  /** The answer to the resonance metric is discarded: only the graph write's outcome matters. */
  lemma OnlyGraphOutcomeMatters(m: Math, h1: Host, h2: Host, timestamp: u64, request: Decoded<UpdateMasteryInput>)
    requires AgreeOnGraph(h1, h2)
    ensures Run(m, h1, timestamp, request) == Run(m, h2, timestamp, request)
  {
    if request.Decoded? && request.input.op == "update_mastery" {
      var write := WriteCall(m, request.input, timestamp);
      assert !IsTelemetry(write);
      assert h1(write) == h2(write);
    }
  }
}
