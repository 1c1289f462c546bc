/**
 * The teacher agent: `create_lesson` writes a lesson for a concept and a
 * class to the knowledge graph. The graph's answer is not parsed yet, so an
 * accepted write is reported with a placeholder lesson id.
 */
module TeacherAgent {
  import opened Wire
  import opened Capabilities
  import opened Text

  datatype CreateLessonInput = CreateLessonInput(op: string, concept: string, classId: string, content: string)

  datatype CreateLessonResponse = CreateLessonResponse(success: bool, lessonId: string, message: string)

  const PendingLessonId := "pending_graph_id"
  const GraphWriteFailed := "Graph write operation failed"
  const UnknownOperation := "Unknown operation"
  const InvalidInputFormat := "Invalid input format"

  const ConceptPrefix := "Lesson created for concept: "
  const ClassPrefix := " in class: "
  const CreatedSuffix := " via real graph operation"

  /** The success message, naming the concept and then the class. */
  function LessonCreated(concept: string, classId: string): (r: string)
    ensures OccursAt(r, concept, |ConceptPrefix|)
    ensures OccursAt(r, classId, |ConceptPrefix| + |concept| + |ClassPrefix|)
  {
    var r := ConceptPrefix + concept + ClassPrefix + classId + CreatedSuffix;
    assert r[|ConceptPrefix|..|ConceptPrefix| + |concept|] == concept;
    assert r[|ConceptPrefix| + |concept| + |ClassPrefix|..|ConceptPrefix| + |concept| + |ClassPrefix| + |classId|] == classId;
    r
  }

  /** The graph mutation for one lesson, stamped with `timestamp` seconds since the epoch. */
  function LessonMutation(input: CreateLessonInput, timestamp: u64): (r: Payload)
    ensures r.Keys == {"operation", "concept", "class_id", "content", "timestamp"}
    ensures r["operation"] == JString("create_lesson") && r["timestamp"] == JUnsigned(timestamp)
  {
    map[
      "operation" := JString("create_lesson"),
      "concept" := JString(input.concept),
      "class_id" := JString(input.classId),
      "content" := JString(input.content),
      "timestamp" := JUnsigned(timestamp)]
  }

  function Failure(message: string): CreateLessonResponse {
    CreateLessonResponse(false, "", message)
  }

  /** The entry point `run`, given the host's answers and the clock reading taken for the mutation. */
  function Run(host: Host, timestamp: u64, request: Decoded<CreateLessonInput>): (reply: Reply<CreateLessonResponse>)
    ensures reply.response.lessonId != "" <==> reply.response.success
    ensures reply.response.success ==> reply.response.lessonId == PendingLessonId
    ensures request.Decoded? && request.input.op == "create_lesson" ==>
      && reply.calls == [GraphWrite(LessonMutation(request.input, timestamp))]
      && (reply.response.success <==> host(reply.calls[0]) == Ok)
    ensures !(request.Decoded? && request.input.op == "create_lesson") ==>
      reply.calls == [] && !reply.response.success
  {
    match request
    case Malformed => Reply(Failure(InvalidInputFormat), [])
    case Decoded(input) =>
      if input.op == "create_lesson" then
        var write := GraphWrite(LessonMutation(input, timestamp));
        match host(write)
        case Ok =>
          Reply(CreateLessonResponse(true, PendingLessonId, LessonCreated(input.concept, input.classId)), [write])
        case Err => Reply(Failure(GraphWriteFailed), [write])
      else
        Reply(Failure(UnknownOperation), [])
  }

  lemma MalformedRejected(host: Host, timestamp: u64)
    ensures Run(host, timestamp, Malformed) == Reply(Failure(InvalidInputFormat), [])
  {
  }

  lemma UnknownOperationRejected(host: Host, timestamp: u64, input: CreateLessonInput)
    requires input.op != "create_lesson"
    ensures Run(host, timestamp, Decoded(input)) == Reply(Failure(UnknownOperation), [])
  {
  }

  lemma WriteRefused(host: Host, timestamp: u64, input: CreateLessonInput)
    requires input.op == "create_lesson" && host(GraphWrite(LessonMutation(input, timestamp))) == Err
    ensures Run(host, timestamp, Decoded(input)) == Reply(Failure(GraphWriteFailed), [GraphWrite(LessonMutation(input, timestamp))])
  {
  }

  /** An accepted write is reported with a message that names both the concept and the class. */
  lemma LessonCreation(host: Host, timestamp: u64, input: CreateLessonInput)
    requires input.op == "create_lesson" && host(GraphWrite(LessonMutation(input, timestamp))) == Ok
    ensures var response := Run(host, timestamp, Decoded(input)).response;
      && response.success
      && response.lessonId == PendingLessonId
      && response.message == LessonCreated(input.concept, input.classId)
      && Contains(response.message, input.concept)
      && Contains(response.message, input.classId)
  {
    MessageNamesConceptAndClass(input.concept, input.classId);
  }

  /** The concept follows the first prefix and the class the second one. */
  lemma MessageNamesConceptAndClass(concept: string, classId: string)
    ensures OccursAt(LessonCreated(concept, classId), concept, |ConceptPrefix|)
    ensures OccursAt(LessonCreated(concept, classId), classId, |ConceptPrefix| + |concept| + |ClassPrefix|)
    ensures Contains(LessonCreated(concept, classId), concept)
    ensures Contains(LessonCreated(concept, classId), classId)
  {
    var message := LessonCreated(concept, classId);
    ContainsIffOccurs(message, concept);
    ContainsIffOccurs(message, classId);
  }

  /** Lessons that differ in concept, class or content are written differently. */
  lemma MutationNamesLesson(i1: CreateLessonInput, i2: CreateLessonInput, timestamp: u64)
    requires i1.concept != i2.concept || i1.classId != i2.classId || i1.content != i2.content
    ensures LessonMutation(i1, timestamp) != LessonMutation(i2, timestamp)
  {
    var m1, m2 := LessonMutation(i1, timestamp), LessonMutation(i2, timestamp);
    assert m1["concept"] == JString(i1.concept) && m2["concept"] == JString(i2.concept);
    assert m1["class_id"] == JString(i1.classId) && m2["class_id"] == JString(i2.classId);
    assert m1["content"] == JString(i1.content) && m2["content"] == JString(i2.content);
  }
}
