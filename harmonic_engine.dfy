/**
 * The harmonic resonance engine agent: its entry point decodes a request and
 * either calculates a claim's truth field (reporting it to metrics and to the
 * event bus) or measures an agent's resonance at a given frequency and amplitude.
 */
module HarmonicEngine {
  import opened Wire
  import opened Capabilities
  import opened Scoring

  /** The decoded request; `op`, `agentId` and `context` are not optional, so a request without them is `Malformed`. */
  datatype ResonanceInput = ResonanceInput(
    op: string,
    agentId: string,
    context: string,
    claim: Option<string>,
    frequency: Option<real>,
    amplitude: Option<real>)

  /** A fixed message, or one of the two success messages with the numbers it prints to four decimals. */
  datatype Message =
    | Text(text: string)
    | TruthFieldCalculated(strength: real)
    | ResonanceMeasured(frequency: real, amplitude: real, strength: real)

  datatype ResonanceResponse = ResonanceResponse(
    success: bool,
    truthFieldStrength: real,
    harmonicCoherence: real,
    resonanceSpectrum: seq<real>,
    message: Message)

  const InvalidInputFormat := "Invalid input format"
  const UnknownOperation := "Unknown operation"
  const MissingClaim := "Missing claim for truth field calculation"
  const MissingFrequencyOrAmplitude := "Missing frequency or amplitude for resonance measurement"

  /** Every failure response: not successful, all numbers zero, an empty spectrum. */
  function Failure(message: string): ResonanceResponse {
    ResonanceResponse(false, 0.0, 0.0, [], Text(message))
  }

  /** The requests the engine answers successfully: a known operation with the fields it needs. */
  predicate Handled(input: ResonanceInput) {
    || (input.op == "calculate_truth_field" && input.claim.Some?)
    || (input.op == "measure_resonance" && input.frequency.Some? && input.amplitude.Some?)
  }

  /**
   * The entry point `run`, from the decoded request to the response and the
   * calls it made. Every call it makes is telemetry whose answer is discarded,
   * so the reply depends on the request alone and no host appears here.
   */
  function Run(m: Math, request: Decoded<ResonanceInput>): (reply: Reply<ResonanceResponse>)
    ensures reply.response.success <==> request.Decoded? && Handled(request.input)
    ensures !reply.response.success ==>
      && reply.calls == []
      && reply.response.truthFieldStrength == 0.0
      && reply.response.harmonicCoherence == 0.0
      && reply.response.resonanceSpectrum == []
    ensures reply.response.success ==> |reply.response.resonanceSpectrum| == 11
  {
    match request
    case Malformed => Reply(Failure(InvalidInputFormat), [])
    case Decoded(input) =>
      if input.op == "calculate_truth_field" then
        match input.claim
        case Some(claim) =>
          var score := TruthField(m, claim, input.context);
          var calls := [
            RecordResonance(input.agentId, input.context, score),
            EmitResonance(input.agentId, score, score, input.context)];
          var response := ResonanceResponse(
            true,
            score,
            Coherence(m, input.agentId, input.context),
            Spectrum(m, score),
            TruthFieldCalculated(score));
          Reply(response, calls)
        case None => Reply(Failure(MissingClaim), [])
      else if input.op == "measure_resonance" then
        if input.frequency.Some? && input.amplitude.Some? then
          var frequency, amplitude := input.frequency.value, input.amplitude.value;
          var strength := MeasureResonance(m, frequency, amplitude, input.context);
          var response := ResonanceResponse(
            true,
            strength,
            Coherence(m, input.agentId, input.context),
            Spectrum(m, strength),
            ResonanceMeasured(frequency, amplitude, strength));
          Reply(response, [])
        else
          Reply(Failure(MissingFrequencyOrAmplitude), [])
      else
        Reply(Failure(UnknownOperation), [])
  }

  /** A failed reply with the given fixed message and no host calls. */
  predicate FailedWith(reply: Reply<ResonanceResponse>, message: string) {
    && !reply.response.success
    && reply.response.message == Text(message)
    && reply.response.truthFieldStrength == 0.0
    && reply.response.harmonicCoherence == 0.0
    && reply.response.resonanceSpectrum == []
    && reply.calls == []
  }

  lemma MalformedRejected(m: Math)
    ensures FailedWith(Run(m, Malformed), InvalidInputFormat)
  {
  }

  lemma UnknownOperationRejected(m: Math, input: ResonanceInput)
    requires input.op != "calculate_truth_field" && input.op != "measure_resonance"
    ensures FailedWith(Run(m, Decoded(input)), UnknownOperation)
  {
  }

  /** Without a claim nothing is recorded or emitted. */
  lemma MissingClaimRejected(m: Math, input: ResonanceInput)
    requires input.op == "calculate_truth_field" && input.claim.None?
    ensures FailedWith(Run(m, Decoded(input)), MissingClaim)
  {
  }

  /**
   * A truth-field request with a claim succeeds with a strength in [0.5, 1],
   * reports it to metrics and then to the event bus with frequency = amplitude
   * = strength, and carries the coherence of agent and context and a spectrum
   * centred on the strength, whose middle entry is therefore 1.
   */
  lemma TruthFieldCalculation(m: Math, input: ResonanceInput)
    requires input.op == "calculate_truth_field" && input.claim.Some?
    ensures var reply := Run(m, Decoded(input));
      var score := reply.response.truthFieldStrength;
      && reply.response.success
      && score == TruthField(m, input.claim.value, input.context)
      && reply.calls == [
        RecordResonance(input.agentId, input.context, score),
        EmitResonance(input.agentId, score, score, input.context)]
      && reply.response.harmonicCoherence == Coherence(m, input.agentId, input.context)
      && reply.response.resonanceSpectrum == Spectrum(m, score)
      && (Lawful(m) ==>
        && 0.5 <= score <= 1.0
        && 0.0 <= reply.response.harmonicCoherence <= 1.0
        && reply.response.resonanceSpectrum[5] == 1.0)
  {
    var score := TruthField(m, input.claim.value, input.context);
    if Lawful(m) {
      SpectrumCentre(m, score);
    }
  }

  /** The coherence depends on the agent and the context only, never on the claim. */
  lemma CoherenceIgnoresClaim(m: Math, input: ResonanceInput, otherClaim: string)
    requires input.op == "calculate_truth_field" && input.claim.Some?
    ensures Run(m, Decoded(input)).response.harmonicCoherence
         == Run(m, Decoded(input.(claim := Some(otherClaim)))).response.harmonicCoherence
  {
  }

  /**
   * A resonance measurement with frequency and amplitude succeeds without any
   * host call, reports its result as the truth-field strength and centres the
   * spectrum on it.
   */
  lemma ResonanceMeasurement(m: Math, input: ResonanceInput)
    requires input.op == "measure_resonance" && input.frequency.Some? && input.amplitude.Some?
    ensures var reply := Run(m, Decoded(input));
      var strength := reply.response.truthFieldStrength;
      && reply.response.success
      && reply.calls == []
      && strength == MeasureResonance(m, input.frequency.value, input.amplitude.value, input.context)
      && reply.response.harmonicCoherence == Coherence(m, input.agentId, input.context)
      && reply.response.resonanceSpectrum == Spectrum(m, strength)
  {
  }

  lemma MissingFrequencyOrAmplitudeRejected(m: Math, input: ResonanceInput)
    requires input.op == "measure_resonance" && (input.frequency.None? || input.amplitude.None?)
    ensures FailedWith(Run(m, Decoded(input)), MissingFrequencyOrAmplitude)
  {
  }
}
