/**
 * The host capabilities an agent may call (graph read/write, metrics, events)
 * and the shape of one agent invocation: a response plus the ordered trace of
 * capability calls it issued.
 */
module Capabilities {
  import opened Wire

  /** One outbound call to a host-provided capability, with its arguments. */
  datatype HostCall =
    | GraphRead(query: Payload)
    | GraphWrite(mutation: Payload)
    | RecordResonance(agentId: string, context: string, score: real)
    | RecordVirtue(subjectId: string, virtue: string, delta: real)
    | EmitResonance(agentId: string, frequency: real, amplitude: real, context: string)

  /** What the host answers. An `Ok` result payload is never inspected by any agent. */
  datatype Outcome = Ok | Err

  /**
   * The host, as seen by one invocation: its answer to each call. Every agent
   * makes at most one graph call per invocation, so this covers a stateful host too.
   */
  type Host = HostCall -> Outcome

  /** Metric and event calls, whose outcome every agent discards. */
  predicate IsTelemetry(call: HostCall) {
    call.RecordResonance? || call.RecordVirtue? || call.EmitResonance?
  }

  /** Two hosts that answer every graph call alike, whatever they say to telemetry. */
  ghost predicate AgreeOnGraph(h1: Host, h2: Host) {
    forall call :: !IsTelemetry(call) ==> h1(call) == h2(call)
  }

  /** What one invocation of an agent's entry point produces. */
  datatype Reply<+R> = Reply(response: R, calls: seq<HostCall>)
}
