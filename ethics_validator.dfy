/**
 * The ethics validator: an operation is checked against the subject's virtue
 * scores, then against hand-written "SHACL" rules about the request, then
 * against role rules keyed on the subject's id prefix. The first failing
 * stage decides the response.
 */
module Ethics {
  import opened Wire
  import opened Text

  /** Virtue thresholds in the order the configuration lists them. */
  type Thresholds = seq<(string, real)>

  datatype ValidationRequest = ValidationRequest(
    operation: string,
    subject: string,
    concept: Option<string>,
    virtues: map<string, real>,
    content: Option<string>,
    provenance: Option<seq<string>>)

  /** What the graph lookup of the subject returns: no node, or a node whose `virtues` may be null. */
  datatype SubjectRecord = NoRecord | Record(virtues: Option<map<string, real>>)

  /** The reason the virtue stage gives; the source formats it into a sentence. */
  datatype VirtueReason =
    | SubjectNotFound
    | Insufficient(virtue: string, score: real, threshold: real)
    | AllThresholdsMet

  datatype VirtueCheck = VirtueCheck(passed: bool, reason: VirtueReason, required: Thresholds)

  datatype ShaclCheck = ShaclCheck(passed: bool, violations: seq<string>)

  datatype RuleCheck = RuleCheck(passed: bool, reason: string)

  /** The response reason: the virtue stage's reason behind "Virtue threshold not met: ", or a fixed text. */
  datatype Reason = VirtueThresholdNotMet(detail: VirtueReason) | Literal(text: string)

  datatype ValidationResponse = ValidationResponse(
    approved: bool,
    reason: Reason,
    requiredVirtues: Thresholds,
    shaclViolations: seq<string>)

  /** The threshold configuration: absent, or present with or without a `thresholds` entry. */
  datatype ThresholdsFile = Missing | Present(thresholds: Option<Thresholds>)

  const DefaultThresholds: Thresholds := [
    ("honesty", 0.7),
    ("curiosity", 0.6),
    ("patience", 0.5),
    ("justice", 0.7),
    ("transparency", 0.6),
    ("fairness", 0.7)]

  const SuperposedWithoutProvenance := "Superposed claims must have provenance"
  /** The text as the source file spells it: the bytes of "≥" decoded one by one as Windows-1252. */
  const LowHonestyVerification := "Claim verification requires high honesty (\U{E2}\U{2030}\U{A5}0.8)"
  const VerificationHonesty: real := 0.8

  const OnlyStudents := "Only students can update mastery"
  const OnlyTeachers := "Only teachers can create lessons"
  const ParentsReadOnly := "Parents have read-only access"
  const RulesSatisfied := "Operation rules satisfied"

  const ShaclFailed := "SHACL validation failed"
  const Approved := "Operation approved by ethics validator"

  /** The thresholds the validator starts with. */
  function LoadThresholds(file: ThresholdsFile): (t: Thresholds)
    ensures file.Missing? ==> t == DefaultThresholds
    ensures file.Present? && file.thresholds.None? ==> t == []
    ensures file.Present? && file.thresholds.Some? ==> t == file.thresholds.value
  {
    match file
    case Missing => DefaultThresholds
    case Present(thresholds) => thresholds.GetOr([])
  }

  // ---------------------------------------------------------------------------
  // Virtue thresholds
  // ---------------------------------------------------------------------------

  /** A subject's score for `virtue`; a virtue it has no score for counts as 0. */
  function ScoreOf(virtues: map<string, real>, virtue: string): (r: real)
    ensures virtue in virtues ==> r == virtues[virtue]
    ensures virtue !in virtues ==> r == 0.0
  {
    if virtue in virtues then virtues[virtue] else 0.0
  }

  /** A threshold entry the scores meet: a score equal to the threshold passes. */
  predicate Meets(virtues: map<string, real>, entry: (string, real)) {
    ScoreOf(virtues, entry.0) >= entry.1
  }

  /** The subject's virtues; a null `virtues` property is an empty map. */
  function CurrentVirtues(record: SubjectRecord): (r: map<string, real>)
    requires record.Record?
    ensures record.virtues.Some? ==> r == record.virtues.value
    ensures record.virtues.None? ==> r == map[]
  {
    record.virtues.GetOr(map[])
  }

  /** The position of the first threshold, in configuration order, whose score falls short. */
  function FirstShortfall(t: Thresholds, virtues: map<string, real>): (r: Option<nat>)
    ensures r.None? <==> forall i :: 0 <= i < |t| ==> Meets(virtues, t[i])
    ensures r.Some? ==>
      && r.value < |t|
      && !Meets(virtues, t[r.value])
      && forall i :: 0 <= i < r.value ==> Meets(virtues, t[i])
  {
    if t == [] then None
    else if !Meets(virtues, t[0]) then Some(0)
    else
      match FirstShortfall(t[1..], virtues)
      case None => None
      case Some(k) => Some(k + 1)
  }

  /** `_check_virtue_thresholds`, given the result of looking the subject up. */
  function VirtueStage(t: Thresholds, record: SubjectRecord): (check: VirtueCheck)
    ensures check.required == t
    ensures check.passed <==> record.Record? && forall i :: 0 <= i < |t| ==> Meets(CurrentVirtues(record), t[i])
  {
    match record
    case NoRecord => VirtueCheck(false, SubjectNotFound, t)
    case Record(_) =>
      var virtues := CurrentVirtues(record);
      match FirstShortfall(t, virtues)
      case Some(i) => VirtueCheck(false, Insufficient(t[i].0, ScoreOf(virtues, t[i].0), t[i].1), t)
      case None => VirtueCheck(true, AllThresholdsMet, t)
  }

  // ---------------------------------------------------------------------------
  // The "SHACL" rules
  // ---------------------------------------------------------------------------

  /** A `create_claim` with non-empty content mentioning "superposed" and no (or an empty) provenance list. */
  predicate SuperposedWithoutSources(request: ValidationRequest) {
    && request.operation == "create_claim"
    && request.content.Some? && request.content.value != ""
    && Contains(request.content.value, "superposed")
    && (request.provenance.None? || request.provenance.value == [])
  }

  /** A `verify_claim` whose request carries no honesty score of at least 0.8. */
  predicate VerifierLacksHonesty(request: ValidationRequest) {
    request.operation == "verify_claim" && !(ScoreOf(request.virtues, "honesty") >= VerificationHonesty)
  }

  /** The violations `_check_shacl_constraints` reports, in the order it checks them. */
  function ShaclViolations(request: ValidationRequest): (violations: seq<string>)
    ensures SuperposedWithoutProvenance in violations <==> SuperposedWithoutSources(request)
    ensures LowHonestyVerification in violations <==> VerifierLacksHonesty(request)
    ensures forall v :: v in violations ==> v == SuperposedWithoutProvenance || v == LowHonestyVerification
  {
    (if SuperposedWithoutSources(request) then [SuperposedWithoutProvenance] else [])
    + (if VerifierLacksHonesty(request) then [LowHonestyVerification] else [])
  }

  /** The two rules concern different operations, so a request breaks at most one. */
  lemma AtMostOneViolation(request: ValidationRequest)
    ensures |ShaclViolations(request)| <= 1
  {
  }

  // ---------------------------------------------------------------------------
  // Role rules
  // ---------------------------------------------------------------------------

  /** An operation that changes the graph, which parents may not perform. */
  predicate Writes(operation: string) {
    operation == "create_claim" || operation == "update_mastery" || operation == "create_lesson"
  }

  /** `_check_operation_rules`: the role each operation needs, read off the subject id's prefix. */
  function OperationRule(request: ValidationRequest): (check: RuleCheck)
    ensures check.passed <==> check.reason == RulesSatisfied
  {
    if request.operation == "update_mastery" && !("student_" <= request.subject) then
      RuleCheck(false, OnlyStudents)
    else if request.operation == "create_lesson" && !("teacher_" <= request.subject) then
      RuleCheck(false, OnlyTeachers)
    else if Writes(request.operation) && "parent_" <= request.subject then
      RuleCheck(false, ParentsReadOnly)
    else
      RuleCheck(true, RulesSatisfied)
  }

  /** No subject id starts with two of the role prefixes. */
  lemma RolePrefixesExclusive(subject: string)
    ensures !("student_" <= subject && "parent_" <= subject)
    ensures !("teacher_" <= subject && "parent_" <= subject)
  {
    if "parent_" <= subject {
      assert subject[0] == 'p';
    }
  }

  /**
   * `update_mastery` passes exactly for `student_` subjects, `create_lesson`
   * exactly for `teacher_` subjects, `create_claim` for every subject but a
   * `parent_` one, and every other operation for everyone.
   */
  lemma {:induction false} RoleRules(request: ValidationRequest)
    ensures request.operation == "update_mastery" ==>
      (OperationRule(request).passed <==> "student_" <= request.subject)
    ensures request.operation == "create_lesson" ==>
      (OperationRule(request).passed <==> "teacher_" <= request.subject)
    ensures request.operation == "create_claim" ==>
      (OperationRule(request).passed <==> !("parent_" <= request.subject))
    ensures !Writes(request.operation) ==> OperationRule(request).passed
  {
    RolePrefixesExclusive(request.subject);
  }

  /** A parent's mastery update or lesson is already refused by the prefix rules, so only a claim meets the read-only rule. */
  lemma {:induction false} ReadOnlyOnlyForClaims(request: ValidationRequest)
    ensures OperationRule(request).reason == ParentsReadOnly <==>
      request.operation == "create_claim" && "parent_" <= request.subject
  {
    RolePrefixesExclusive(request.subject);
  }

  // ---------------------------------------------------------------------------
  // The whole validation
  // ---------------------------------------------------------------------------

  /** `validate_operation`: virtue stage, then SHACL rules, then role rules; the first failure decides. */
  function Validate(t: Thresholds, request: ValidationRequest, record: SubjectRecord): (response: ValidationResponse)
    ensures response.requiredVirtues == t
    ensures response.shaclViolations != [] ==> response.reason == Literal(ShaclFailed)
  {
    var virtue := VirtueStage(t, record);
    if !virtue.passed then
      ValidationResponse(false, VirtueThresholdNotMet(virtue.reason), virtue.required, [])
    else
      var violations := ShaclViolations(request);
      if violations != [] then
        ValidationResponse(false, Literal(ShaclFailed), virtue.required, violations)
      else
        var rule := OperationRule(request);
        if !rule.passed then
          ValidationResponse(false, Literal(rule.reason), virtue.required, [])
        else
          ValidationResponse(true, Literal(Approved), virtue.required, [])
  }

  /** An operation is approved exactly when every stage passes, and then with the approval reason. */
  lemma ApprovedIffAllStagesPass(t: Thresholds, request: ValidationRequest, record: SubjectRecord)
    ensures var response := Validate(t, request, record);
      response.approved <==>
        && record.Record?
        && (forall i :: 0 <= i < |t| ==> Meets(CurrentVirtues(record), t[i]))
        && ShaclViolations(request) == []
        && OperationRule(request).passed
    ensures var response := Validate(t, request, record);
      response.approved <==> response.reason == Literal(Approved)
  {
  }

  /**
   * The first failing stage decides: a virtue failure hides any SHACL or role
   * problem, and a SHACL failure hides any role problem.
   */
  lemma FirstFailureWins(t: Thresholds, request: ValidationRequest, record: SubjectRecord)
    ensures var response := Validate(t, request, record);
      var virtue := VirtueStage(t, record);
      && (!virtue.passed ==> response.reason == VirtueThresholdNotMet(virtue.reason) && response.shaclViolations == [])
      && (virtue.passed && ShaclViolations(request) != [] ==> response.shaclViolations == ShaclViolations(request))
      && (virtue.passed && ShaclViolations(request) == [] && !OperationRule(request).passed ==>
            response.reason == Literal(OperationRule(request).reason) && !response.approved)
  {
  }

  /** A subject the graph does not know is refused at the first stage. */
  lemma UnknownSubjectRefused(t: Thresholds, request: ValidationRequest)
    ensures Validate(t, request, NoRecord)
         == ValidationResponse(false, VirtueThresholdNotMet(SubjectNotFound), t, [])
  {
  }

  /** The virtue stage names the first threshold in order that the subject misses, with its score. */
  lemma {:induction false} FirstShortfallReported(t: Thresholds, virtues: map<string, real>, i: nat)
    requires i < |t| && !Meets(virtues, t[i])
    requires forall j :: 0 <= j < i ==> Meets(virtues, t[j])
    ensures VirtueStage(t, Record(Some(virtues))).reason == Insufficient(t[i].0, ScoreOf(virtues, t[i].0), t[i].1)
  {
    var r := FirstShortfall(t, virtues);
    assert r.Some?;
  }

  /** With the default thresholds a subject without any scores misses honesty first. */
  lemma NoScoresMissHonesty()
    ensures VirtueStage(DefaultThresholds, Record(None)).reason == Insufficient("honesty", 0.0, 0.7)
  {
    FirstShortfallReported(DefaultThresholds, map[], 0);
  }

  /** With the default thresholds, scores equal to every threshold pass. */
  lemma DefaultThresholdsMetAtBounds()
    ensures VirtueStage(DefaultThresholds, Record(Some(BoundaryScores))).passed
  {
    var t, v := DefaultThresholds, BoundaryScores;
    assert ScoreOf(v, t[0].0) == t[0].1 && ScoreOf(v, t[1].0) == t[1].1 && ScoreOf(v, t[2].0) == t[2].1;
    assert ScoreOf(v, t[3].0) == t[3].1 && ScoreOf(v, t[4].0) == t[4].1 && ScoreOf(v, t[5].0) == t[5].1;
    EqualScoresPass(t, v);
  }

  /** A score exactly at its threshold is not below it, so scores equal to every threshold pass. */
  lemma EqualScoresPass(t: Thresholds, virtues: map<string, real>)
    requires forall i :: 0 <= i < |t| ==> ScoreOf(virtues, t[i].0) == t[i].1
    ensures VirtueStage(t, Record(Some(virtues))).passed
  {
  }

  /** No virtue is named twice, as in a configuration mapping. */
  predicate DistinctNames(t: Thresholds) {
    forall i, j :: 0 <= i < j < |t| ==> t[i].0 != t[j].0
  }

  /** The defaults name six different virtues, each with a threshold strictly between 0 and 1. */
  lemma DefaultThresholdsWellFormed()
    ensures |DefaultThresholds| == 6 && DistinctNames(DefaultThresholds)
    ensures forall i :: 0 <= i < |DefaultThresholds| ==> 0.0 < DefaultThresholds[i].1 < 1.0
  {
  }

  /** Each default virtue scored exactly at its threshold. */
  const BoundaryScores: map<string, real> := map[
    "honesty" := 0.7, "curiosity" := 0.6, "patience" := 0.5,
    "justice" := 0.7, "transparency" := 0.6, "fairness" := 0.7]

  /** A claim mentioning "superposed" needs a non-empty provenance list; any one source lifts the violation. */
  lemma SuperposedClaimNeedsProvenance(request: ValidationRequest, sources: seq<string>)
    requires request.operation == "create_claim" && request.content.Some?
    requires Contains(request.content.value, "superposed")
    ensures request.provenance.None? ==> ShaclViolations(request) == [SuperposedWithoutProvenance]
    ensures sources != [] ==> ShaclViolations(request.(provenance := Some(sources))) == []
  {
  }

  // ---------------------------------------------------------------------------
  // The validator object
  // ---------------------------------------------------------------------------

  /** `EthicsValidator`: the thresholds it loads once, and its checks. The graph driver is not part of the model. */
  class EthicsValidator {
    const virtueThresholds: Thresholds

    constructor(file: ThresholdsFile)
      ensures virtueThresholds == LoadThresholds(file)
    {
      virtueThresholds := LoadThresholds(file);
    }

    /** `_check_virtue_thresholds`: the thresholds in order, returning at the first one missed. */
    method CheckVirtueThresholds(record: SubjectRecord) returns (check: VirtueCheck)
      ensures check == VirtueStage(virtueThresholds, record)
    {
      if record.NoRecord? {
        return VirtueCheck(false, SubjectNotFound, virtueThresholds);
      }
      var virtues := CurrentVirtues(record);
      var i := 0;
      while i < |virtueThresholds|
        invariant 0 <= i <= |virtueThresholds|
        invariant forall j :: 0 <= j < i ==> Meets(virtues, virtueThresholds[j])
      {
        var (virtue, threshold) := virtueThresholds[i];
        var score := ScoreOf(virtues, virtue);
        if score < threshold {
          FirstShortfallReported(virtueThresholds, virtues, i);
          return VirtueCheck(false, Insufficient(virtue, score, threshold), virtueThresholds);
        }
        i := i + 1;
      }
      return VirtueCheck(true, AllThresholdsMet, virtueThresholds);
    }

    /** `_check_shacl_constraints`: each broken rule appends its violation. */
    method CheckShaclConstraints(request: ValidationRequest) returns (check: ShaclCheck)
      ensures check.violations == ShaclViolations(request)
      ensures check.passed <==> check.violations == []
    {
      var violations := [];
      if request.operation == "create_claim" && request.content.Some? && request.content.value != "" {
        if Contains(request.content.value, "superposed") && (request.provenance.None? || request.provenance.value == []) {
          violations := violations + [SuperposedWithoutProvenance];
        }
      }
      if request.operation == "verify_claim" {
        if !(ScoreOf(request.virtues, "honesty") >= VerificationHonesty) {
          violations := violations + [LowHonestyVerification];
        }
      }
      return ShaclCheck(|violations| == 0, violations);
    }

    /** `validate_operation`, given the subject's graph record. */
    method ValidateOperation(request: ValidationRequest, record: SubjectRecord) returns (response: ValidationResponse)
      ensures response == Validate(virtueThresholds, request, record)
    {
      var virtueCheck := CheckVirtueThresholds(record);
      if !virtueCheck.passed {
        return ValidationResponse(false, VirtueThresholdNotMet(virtueCheck.reason), virtueCheck.required, []);
      }
      var shaclCheck := CheckShaclConstraints(request);
      if !shaclCheck.passed {
        return ValidationResponse(false, Literal(ShaclFailed), virtueCheck.required, shaclCheck.violations);
      }
      var operationCheck := OperationRule(request);
      if !operationCheck.passed {
        return ValidationResponse(false, Literal(operationCheck.reason), virtueCheck.required, []);
      }
      return ValidationResponse(true, Literal(Approved), virtueCheck.required, []);
    }
  }
}
