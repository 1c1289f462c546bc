/**
 * The parent agent: `get_child_progress` queries the knowledge graph for one
 * child. The answer is not parsed yet, so a successful reply carries no
 * concepts and zero virtue metrics.
 */
module ParentAgent {
  import opened Wire
  import opened Capabilities

  datatype GetChildProgressInput = GetChildProgressInput(op: string, childId: string)

  datatype ConceptProgress = ConceptProgress(conceptId: string, conceptName: string, mastery: real, lastUpdated: string)

  datatype VirtueMetrics = VirtueMetrics(honesty: real, curiosity: real, patience: real)

  datatype ChildProgressResponse = ChildProgressResponse(
    success: bool,
    childId: string,
    concepts: seq<ConceptProgress>,
    virtues: VirtueMetrics)

  const NoVirtues := VirtueMetrics(0.0, 0.0, 0.0)

  /** The graph query for one child, stamped with `timestamp` seconds since the epoch. */
  function ProgressQuery(childId: string, timestamp: u64): (r: Payload)
    ensures r.Keys == {"operation", "child_id", "timestamp"}
    ensures r["operation"] == JString("get_child_progress") && r["child_id"] == JString(childId)
  {
    map[
      "operation" := JString("get_child_progress"),
      "child_id" := JString(childId),
      "timestamp" := JUnsigned(timestamp)]
  }

  /** A request the agent forwards to the graph. */
  predicate Queries(request: Decoded<GetChildProgressInput>) {
    request.Decoded? && request.input.op == "get_child_progress"
  }

  /** The entry point `run`, given the host's answers and the clock reading taken for the query. */
  function Run(host: Host, timestamp: u64, request: Decoded<GetChildProgressInput>): (reply: Reply<ChildProgressResponse>)
    ensures reply.response.concepts == [] && reply.response.virtues == NoVirtues
    ensures Queries(request) ==>
      && reply.calls == [GraphRead(ProgressQuery(request.input.childId, timestamp))]
      && reply.response.childId == request.input.childId
      && (reply.response.success <==> host(reply.calls[0]) == Ok)
    ensures !Queries(request) ==>
      reply.calls == [] && !reply.response.success && reply.response.childId == ""
  {
    match request
    case Malformed => Reply(ChildProgressResponse(false, "", [], NoVirtues), [])
    case Decoded(input) =>
      if input.op == "get_child_progress" then
        var read := GraphRead(ProgressQuery(input.childId, timestamp));
        match host(read)
        case Ok => Reply(ChildProgressResponse(true, input.childId, [], NoVirtues), [read])
        case Err => Reply(ChildProgressResponse(false, input.childId, [], NoVirtues), [read])
      else
        Reply(ChildProgressResponse(false, "", [], NoVirtues), [])
  }

  /**
   * The child is named in the reply exactly when the graph was queried, as
   * long as the requested id is not itself empty; a refused read still names it.
   */
  lemma ChildEchoedIffQueried(host: Host, timestamp: u64, request: Decoded<GetChildProgressInput>)
    requires request.Decoded? && request.input.childId != ""
    ensures var reply := Run(host, timestamp, request);
      reply.response.childId == request.input.childId <==> reply.calls != []
  {
  }

  /** Every reply is successful only if the query reached the graph and the graph accepted it. */
  lemma SuccessNeedsAcceptedRead(host: Host, timestamp: u64, request: Decoded<GetChildProgressInput>)
    ensures var reply := Run(host, timestamp, request);
      reply.response.success ==> |reply.calls| == 1 && reply.calls[0].GraphRead? && host(reply.calls[0]) == Ok
  {
  }

  /** The query is keyed by the requested child alone: two requests for different children query differently. */
  lemma QueryNamesChild(c1: string, c2: string, timestamp: u64)
    requires c1 != c2
    ensures ProgressQuery(c1, timestamp) != ProgressQuery(c2, timestamp)
  {
    assert ProgressQuery(c1, timestamp)["child_id"] == JString(c1);
  }
}
