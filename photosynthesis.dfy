/**
 * The biology.photosynthesis topic agent: starting a lesson rewards
 * curiosity, grading a submission computes a mastery delta from the lesson's
 * difficulty and a patience delta from the time spent, and records both
 * virtue rewards with the metrics capability.
 */
module Photosynthesis {
  import opened Wire
  import opened Capabilities
  import opened Scoring

  datatype LessonData = LessonData(concept: string, difficulty: real, timeSpent: u64)

  /** The decoded request; `lessonData` may be absent. */
  datatype TopicInput = TopicInput(op: string, studentId: string, lessonData: Option<LessonData>)

  datatype VirtueDeltas = VirtueDeltas(curiosity: real, patience: real, honesty: real)

  datatype TopicResponse = TopicResponse(
    success: bool,
    message: string,
    masteryDelta: real,
    virtueDeltas: VirtueDeltas)

  const NoDeltas := VirtueDeltas(0.0, 0.0, 0.0)

  const LessonStarted := "Photosynthesis lesson started successfully via real metrics recording"
  const SubmissionGraded := "Submission graded successfully via real metrics recording"
  const MissingLessonData := "Missing lesson data"
  const UnknownOperation := "Unknown operation"
  const InvalidInputFormat := "Invalid input format"

  /** The curiosity reward for starting a lesson. */
  const StartCuriosity := 0.1
  /** The fixed curiosity and honesty deltas reported for a graded submission. */
  const GradeCuriosity := 0.05
  const GradeHonesty := 0.1

  /** Seconds above which a submission earns the larger patience reward. */
  const PatienceThreshold: u64 := 300

  /** One tenth of the difficulty, capped at 0.2. */
  function MasteryDelta(difficulty: real): (delta: real)
    ensures delta <= 0.2
    ensures delta == 0.2 <==> difficulty >= 2.0
    ensures difficulty < 2.0 ==> delta == difficulty / 10.0
  {
    Min(difficulty * 0.1, 0.2)
  }

  /** 0.15 for more than 300 seconds spent on the lesson, 0.05 otherwise. */
  function PatienceDelta(timeSpent: u64): (delta: real)
    ensures delta == 0.05 || delta == 0.15
    ensures delta == 0.15 <==> timeSpent > PatienceThreshold
  {
    if timeSpent > PatienceThreshold then 0.15 else 0.05
  }

  /** The cap is not matched by a floor: a negative difficulty gives a delta below any bound. */
  lemma MasteryDeltaUnboundedBelow(bound: real)
    ensures MasteryDelta(10.0 * bound - 10.0) < bound
  {
  }

  /** More difficult lessons never earn less mastery. */
  lemma MasteryDeltaMonotone(d1: real, d2: real)
    requires d1 <= d2
    ensures MasteryDelta(d1) <= MasteryDelta(d2)
  {
  }

  /** Every failure: not successful, no mastery and no virtue deltas. */
  function Failure(message: string): TopicResponse {
    TopicResponse(false, message, 0.0, NoDeltas)
  }

  /**
   * The entry point `run`. Its only calls are virtue metrics whose answer is
   * discarded, so the reply depends on the request alone.
   */
  function Run(request: Decoded<TopicInput>): (reply: Reply<TopicResponse>)
    ensures reply.response.success <==>
      request.Decoded? &&
      (request.input.op == "start_lesson" ||
       (request.input.op == "grade_submission" && request.input.lessonData.Some?))
    ensures !reply.response.success ==>
      reply.calls == [] && reply.response.masteryDelta == 0.0 && reply.response.virtueDeltas == NoDeltas
    ensures request.Decoded? ==> forall i :: 0 <= i < |reply.calls| ==>
      reply.calls[i].RecordVirtue? && reply.calls[i].subjectId == request.input.studentId
  {
    match request
    case Malformed => Reply(Failure(InvalidInputFormat), [])
    case Decoded(input) =>
      if input.op == "start_lesson" then
        Reply(
          TopicResponse(true, LessonStarted, 0.0, VirtueDeltas(StartCuriosity, 0.0, 0.0)),
          [RecordVirtue(input.studentId, "curiosity", StartCuriosity)])
      else if input.op == "grade_submission" then
        match input.lessonData
        case Some(lesson) =>
          var patience := PatienceDelta(lesson.timeSpent);
          Reply(
            TopicResponse(true, SubmissionGraded, MasteryDelta(lesson.difficulty),
              VirtueDeltas(GradeCuriosity, patience, GradeHonesty)),
            [RecordVirtue(input.studentId, "patience", patience),
             RecordVirtue(input.studentId, "honesty", GradeHonesty)])
        case None => Reply(Failure(MissingLessonData), [])
      else
        Reply(Failure(UnknownOperation), [])
  }

  /** A failed reply with the given message and no host calls. */
  predicate FailedWith(reply: Reply<TopicResponse>, message: string) {
    reply.response == Failure(message) && reply.calls == []
  }

  lemma MalformedRejected()
    ensures FailedWith(Run(Malformed), InvalidInputFormat)
  {
  }

  lemma UnknownOperationRejected(input: TopicInput)
    requires input.op != "start_lesson" && input.op != "grade_submission"
    ensures FailedWith(Run(Decoded(input)), UnknownOperation)
  {
  }

  /** Starting a lesson records curiosity 0.1 once and needs no lesson data. */
  lemma LessonStart(input: TopicInput)
    requires input.op == "start_lesson"
    ensures var reply := Run(Decoded(input));
      && reply.response == TopicResponse(true, LessonStarted, 0.0, VirtueDeltas(0.1, 0.0, 0.0))
      && reply.calls == [RecordVirtue(input.studentId, "curiosity", 0.1)]
  {
  }

  /**
   * Grading records patience and then honesty, and reports the virtue deltas
   * it recorded: the reported patience and honesty are exactly the recorded ones.
   */
  lemma SubmissionGrading(input: TopicInput)
    requires input.op == "grade_submission" && input.lessonData.Some?
    ensures var reply := Run(Decoded(input));
      var lesson := input.lessonData.value;
      var deltas := reply.response.virtueDeltas;
      && reply.response.success
      && reply.response.message == SubmissionGraded
      && reply.response.masteryDelta == MasteryDelta(lesson.difficulty)
      && reply.response.masteryDelta <= 0.2
      && deltas == VirtueDeltas(0.05, PatienceDelta(lesson.timeSpent), 0.1)
      && reply.calls == [
        RecordVirtue(input.studentId, "patience", deltas.patience),
        RecordVirtue(input.studentId, "honesty", deltas.honesty)]
  {
  }

  lemma MissingLessonDataRejected(input: TopicInput)
    requires input.op == "grade_submission" && input.lessonData.None?
    ensures FailedWith(Run(Decoded(input)), MissingLessonData)
  {
  }

  /** The patience reward steps up between 300 and 301 seconds. */
  lemma PatienceBoundary()
    ensures PatienceDelta(300) == 0.05
    ensures PatienceDelta(301) == 0.15
  {
  }
}
