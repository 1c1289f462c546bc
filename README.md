# FoTEducation core, modelled in Dafny

FoTEducation is an education platform built from small WebAssembly "agents" and a Python ethics service.
This project models three parts of it.

- **The five agents' `run` entry points.** These are the harmonic resonance engine, the
  biology.photosynthesis topic agent and the student, parent and teacher agents.
  - Each `run` becomes a total function from a decoded request to a `Reply`. A reply is the response
    record plus the ordered list of capability calls the agent issued: graph read or write, resonance
    or virtue metric, resonance event.
  - A request that fails to decode is `Malformed`. A field the Rust input struct declares without
    `Option` is therefore always present in a `Decoded` request.
  - Agents that make a graph call take a `Host`, a function from each call to `Ok` or `Err`. They
    also take the clock reading that stamps the payload.
  - Metric and event calls are fire-and-forget. The harmonic engine and the photosynthesis agent make
    no other calls, so they take no host at all: their reply depends on the request alone.
- **The scoring engine** (module `Scoring`). It covers context relevance, truth-field strength,
  coherence, resonance measurement and the resonance spectrum. The student agent's copies of these
  helpers use the same formulas, so the student model calls the same functions.
  - Numbers are `real`.
  - `ln`, `cos`, `sin` and `exp` are fields of a `Math` value. The only facts about them that any
    proof uses are collected in `Lawful`: `|cos x| <= 1`, `cos 0 = 1`, `exp x >= 0` and `exp 0 = 1`.
  - Rust's `str::len()` counts UTF-8 bytes (`Utf8Length`). `split_whitespace` splits on the Unicode
    White_Space characters (`IsWhitespace`).
- **The ethics validator.** The class `EthicsValidator` loads its thresholds once. Its
  `ValidateOperation` runs three checks in a fixed order, and the first failure decides:
  1. the subject's virtue scores against the thresholds;
  2. two hand-written "SHACL" rules about the request;
  3. role rules keyed on the subject id's prefix.

  Each method is proved equal to a pure specification function. The lemmas state the properties of
  that function.

Three details of the code deserve a note:

- **Empty subject.** The code does not guard an empty subject: `ln(0)` is −∞, the cosine is NaN, and
  `NaN.min(1.0)` is 1.0. `TruthField` follows the code and returns 1.0 for an empty subject.
- **Code-point sums.** The code sums code points in `u32`. The model's coherence, which the agents
  use, takes exact sums instead; the 32-bit sums are modelled separately (`CodeSum32`,
  `CoherenceAsWritten`) and the difference is recorded under "## Findings".
- **Honesty violation text.** Its text keeps the characters the source file holds: U+00E2 U+2030
  U+00A5, the UTF-8 bytes of "≥" decoded one by one.

## Model

| member | source | states |
|---|---|---|
| Text.SplitWhitespace | agents/harmonic_resonance_engine/src/lib.rs:247 | every word produced is non-empty and free of whitespace; there are at most as many words as characters, and none exactly when the text is all whitespace |
| Text.WordCount | agents/harmonic_resonance_engine/src/lib.rs:247 | the word count is at most the length, and 0 exactly for an all-whitespace text |
| Text.WordCountIsWordStarts | agents/harmonic_resonance_engine/src/lib.rs:247 | the number of words equals the number of positions where a non-whitespace character follows whitespace or the start |
| Text.WordCountGrowsWithSuffix | agents/harmonic_resonance_engine/src/lib.rs:247 | appending text never lowers the word count |
| Text.UppercaseCount | agents/harmonic_resonance_engine/src/lib.rs:248 | the number of ASCII uppercase letters is at most the length |
| Text.UppercaseCountAppend | agents/harmonic_resonance_engine/src/lib.rs:248 | uppercase counts add up over concatenation |
| Text.NoWordsNoUppercase | agents/harmonic_resonance_engine/src/lib.rs:247-248 | a text without words has no uppercase letters |
| Text.CodeSum | agents/harmonic_resonance_engine/src/lib.rs:206-207 | the exact code-point sum is at most 0x10FFFF per character |
| Text.CodeSumAppend | agents/harmonic_resonance_engine/src/lib.rs:206-207 | code-point sums add up over concatenation |
| Text.CodeSumRepeat | agents/harmonic_resonance_engine/src/lib.rs:206-207 | n copies of a character sum to n times its code point |
| Text.Utf8Width | agents/harmonic_resonance_engine/src/lib.rs:192 | a character takes 1 to 4 UTF-8 bytes |
| Text.Utf8Length | agents/harmonic_resonance_engine/src/lib.rs:192 | the byte length lies between the character count and four times it, and is 0 exactly for the empty text |
| Text.Contains | services/ethics-measurement/fot_ethics/validator.py:138 | a pattern at the start is found, and a found pattern is no longer than the text |
| Text.ContainsAt | services/ethics-measurement/fot_ethics/validator.py:138 | whenever substring search succeeds, the pattern occurs at the position returned |
| Text.OccurrenceContained | services/ethics-measurement/fot_ethics/validator.py:138 | an occurrence at any position is found by substring search |
| Text.ContainsIffOccurs | services/ethics-measurement/fot_ethics/validator.py:138 | substring search succeeds exactly when the pattern occurs at some position |
| Scoring.Relevance | agents/harmonic_resonance_engine/src/lib.rs:250 | relevance lies in [0, 1] and reaches 1 exactly when 2·words + uppercase >= 20 |
| Scoring.RelevanceMonotone | agents/harmonic_resonance_engine/src/lib.rs:250 | relevance never decreases in either count |
| Scoring.ContextRelevance | agents/harmonic_resonance_engine/src/lib.rs:245-251 | the relevance of any context lies in [0, 1] |
| Scoring.ContextRelevanceGrowsWithSuffix | agents/harmonic_resonance_engine/src/lib.rs:245-251 | extending a context never lowers its relevance |
| Scoring.BlankContextIrrelevant | agents/harmonic_resonance_engine/src/lib.rs:247-250 | a context without words has relevance 0 |
| Scoring.TruthField | agents/harmonic_resonance_engine/src/lib.rs:190-199 | with lawful library functions the strength lies in [0.5, 1] |
| Scoring.HarmonicStrength | agents/harmonic_resonance_engine/src/lib.rs:192-198 | with lawful library functions the formula for a non-empty subject lies in [0.5, 1] |
| Scoring.EmptySubjectFullStrength | agents/harmonic_resonance_engine/src/lib.rs:192-198 | an empty subject yields strength 1 (the NaN path) |
| Scoring.BlankContextFullStrength | agents/harmonic_resonance_engine/src/lib.rs:192-198 | a context without words yields strength 1 for every subject |
| Scoring.IrrelevantContextFullStrength | agents/harmonic_resonance_engine/src/lib.rs:192-198 | at relevance 0 the formula gives 1 for any byte length, given cos 0 = 1 |
| Scoring.PhaseDifference | agents/harmonic_resonance_engine/src/lib.rs:206-209 | the phase difference is 0 exactly when the code-point sums are equal |
| Scoring.Coherence | agents/harmonic_resonance_engine/src/lib.rs:204-213 | coherence lies in [0, 1] and is 1 when both code-point sums are equal |
| Scoring.CoherenceSymmetric | agents/harmonic_resonance_engine/src/lib.rs:204-213 | coherence does not depend on the order of its two texts |
| Scoring.CodeSum32 | agents/harmonic_resonance_engine/src/lib.rs:206-207 | the 32-bit sum stays below 2^32 and is exact while the true sum fits |
| Scoring.PhaseDifferenceAsWritten | agents/harmonic_resonance_engine/src/lib.rs:206-209 | the phase difference on 32-bit sums is below 2^32, and 0 exactly when the wrapped sums agree |
| Scoring.CoherenceAsWritten | agents/harmonic_resonance_engine/src/lib.rs:204-213 | coherence on 32-bit sums still lies in [0, 1] |
| Scoring.WrappedSumMasksDifference | agents/harmonic_resonance_engine/src/lib.rs:206-207 | a 3856-character text and the empty text differ by 2^32 in code-point sum, yet 32-bit sums give them coherence 1 |
| Scoring.MeasureResonanceAtZero | agents/harmonic_resonance_engine/src/lib.rs:218-224 | at frequency 0 the resonance is amplitude × context relevance |
| Scoring.Sinc | agents/harmonic_resonance_engine/src/lib.rs:220 | the sinc factor is 1 at frequency 0 |
| Scoring.ResonanceProduct | agents/harmonic_resonance_engine/src/lib.rs:223 | the product is 0 at zero amplitude or zero relevance, and amplitude × relevance when the sinc and Gaussian factors are 1 |
| Scoring.MeasureResonance | agents/harmonic_resonance_engine/src/lib.rs:218-224 | the resonance is 0 at zero amplitude and in a context of relevance 0 |
| Scoring.ProductKeepsSign | agents/harmonic_resonance_engine/src/lib.rs:223 | non-negative Gaussian and relevance factors keep the amplitude's sign or make the product 0 |
| Scoring.MeasureResonanceSign | agents/harmonic_resonance_engine/src/lib.rs:218-224 | the resonance never has the opposite sign to the amplitude (it is 0 when the relevance or the sinc is 0) |
| Scoring.SpectrumSample | agents/harmonic_resonance_engine/src/lib.rs:231-238 | the sample at k bandwidths from the centre is 0 at a non-positive frequency and exp(−k²/2) otherwise |
| Scoring.Spectrum | agents/harmonic_resonance_engine/src/lib.rs:227-242 | the spectrum has 11 samples, none negative under lawful exp |
| Scoring.SpectrumShape | agents/harmonic_resonance_engine/src/lib.rs:227-242 | 11 samples; sample k is 0 when centre + (k−5)·0.1 <= 0 and exp(−(k−5)²/2) otherwise |
| Scoring.SpectrumCentre | agents/harmonic_resonance_engine/src/lib.rs:231-238 | the middle sample is 1 for a positive centre and 0 otherwise |
| Scoring.GenerateResonanceSpectrum | agents/harmonic_resonance_engine/src/lib.rs:227-242 | the push loop over offsets −5..5 builds exactly the spectrum |
| HarmonicEngine.Run | agents/harmonic_resonance_engine/src/lib.rs:40-179 | success exactly for a decoded known operation with its fields; every failure has no calls, zero numbers and an empty spectrum; a success carries 11 samples |
| HarmonicEngine.MalformedRejected | agents/harmonic_resonance_engine/src/lib.rs:162-177 | undecodable input fails with "Invalid input format", zeros, no spectrum and no calls |
| HarmonicEngine.UnknownOperationRejected | agents/harmonic_resonance_engine/src/lib.rs:144-159 | any other operation fails with "Unknown operation", zeros and no calls |
| HarmonicEngine.MissingClaimRejected | agents/harmonic_resonance_engine/src/lib.rs:90-105 | a truth-field request without a claim fails and neither records nor emits |
| HarmonicEngine.TruthFieldCalculation | agents/harmonic_resonance_engine/src/lib.rs:49-82 | a claim yields success, the record-then-emit calls with frequency = amplitude = strength, and (lawfully) a strength in [0.5, 1] and a spectrum whose middle is 1 |
| HarmonicEngine.CoherenceIgnoresClaim | agents/harmonic_resonance_engine/src/lib.rs:79 | the coherence reported does not depend on the claim |
| HarmonicEngine.ResonanceMeasurement | agents/harmonic_resonance_engine/src/lib.rs:107-119 | a measurement succeeds without calls and reports the resonance as the strength, centring the spectrum on it |
| HarmonicEngine.MissingFrequencyOrAmplitudeRejected | agents/harmonic_resonance_engine/src/lib.rs:127-142 | a measurement lacking frequency or amplitude fails with its message, zeros and no calls |
| Photosynthesis.MasteryDelta | agents/topics/biology.photosynthesis/src/lib.rs:81 | the delta is at most 0.2, equals 0.2 exactly from difficulty 2, and is difficulty/10 below that |
| Photosynthesis.MasteryDeltaUnboundedBelow | agents/topics/biology.photosynthesis/src/lib.rs:81 | for every bound some difficulty gives a lower delta |
| Photosynthesis.MasteryDeltaMonotone | agents/topics/biology.photosynthesis/src/lib.rs:81 | a harder lesson never earns less mastery |
| Photosynthesis.PatienceDelta | agents/topics/biology.photosynthesis/src/lib.rs:82 | the delta is 0.05 or 0.15, and 0.15 exactly when more than 300 seconds were spent |
| Photosynthesis.PatienceBoundary | agents/topics/biology.photosynthesis/src/lib.rs:82 | 300 seconds give 0.05, 301 give 0.15 |
| Photosynthesis.Run | agents/topics/biology.photosynthesis/src/lib.rs:34-183 | success exactly for start_lesson or a graded submission with lesson data; failures carry no calls and zero deltas; every call is a virtue metric for the requesting student |
| Photosynthesis.MalformedRejected | agents/topics/biology.photosynthesis/src/lib.rs:163-181 | undecodable input fails with "Invalid input format", zeros and no calls |
| Photosynthesis.UnknownOperationRejected | agents/topics/biology.photosynthesis/src/lib.rs:142-160 | any other operation fails with "Unknown operation", zeros and no calls |
| Photosynthesis.LessonStart | agents/topics/biology.photosynthesis/src/lib.rs:42-76 | starting a lesson succeeds, records curiosity 0.1 once and reports deltas (0.1, 0, 0) with mastery 0 |
| Photosynthesis.SubmissionGrading | agents/topics/biology.photosynthesis/src/lib.rs:78-114 | grading records patience then honesty, reporting exactly the recorded deltas, curiosity 0.05 and the capped mastery delta |
| Photosynthesis.MissingLessonDataRejected | agents/topics/biology.photosynthesis/src/lib.rs:122-140 | grading without lesson data fails with "Missing lesson data", zeros and no calls |
| StudentAgent.ContextOf | agents/student/src/lib.rs:31 | the effective context is the request's, or "general_learning" when absent |
| StudentAgent.MasteryMutation | agents/student/src/lib.rs:37-48 | the mutation has exactly the seven keys of the source, with operation "update_mastery" and the effective context |
| StudentAgent.Run | agents/student/src/lib.rs:22-136 | success exactly when a decoded update_mastery's write is accepted; the write is always the first call of such a request; failures carry zeros; other requests make no calls |
| StudentAgent.MalformedRejected | agents/student/src/lib.rs:119-134 | undecodable input fails with "Invalid input format" and no calls |
| StudentAgent.UnknownOperationRejected | agents/student/src/lib.rs:102-117 | any other operation fails with "Unknown operation", zeros and no calls |
| StudentAgent.MasteryUpdate | agents/student/src/lib.rs:56-76 | an accepted write yields success, new mastery = input delta, and the write followed by one resonance metric carrying the same strength that is reported |
| StudentAgent.WriteRefused | agents/student/src/lib.rs:85-100 | a refused write yields "Graph write operation failed", zeros and no metric |
| StudentAgent.DefaultContextWritten | agents/student/src/lib.rs:31-48 | without a context the mutation carries "general_learning" |
| StudentAgent.ScoresInRange | agents/student/src/lib.rs:142-172 | with lawful library functions a success reports a strength in [0.5, 1], and every reply a coherence in [0, 1] |
| StudentAgent.OnlyGraphOutcomeMatters | agents/student/src/lib.rs:53-66 | two hosts that answer graph calls alike yield the same reply, whatever the metric returns |
| ParentAgent.Run | agents/parent/src/lib.rs:34-138 | no concepts and zero virtues ever; a get_child_progress issues exactly one read, echoes the child and succeeds exactly when the read is accepted; any other request makes no call and names no child |
| ParentAgent.ProgressQuery | agents/parent/src/lib.rs:43-50 | the query has exactly the keys operation, child_id and timestamp, naming "get_child_progress" and the child |
| ParentAgent.ChildEchoedIffQueried | agents/parent/src/lib.rs:58-108 | for a non-empty child id, the reply names the child exactly when the graph was queried |
| ParentAgent.SuccessNeedsAcceptedRead | agents/parent/src/lib.rs:55-77 | a success implies one graph read that the host accepted |
| ParentAgent.QueryNamesChild | agents/parent/src/lib.rs:43-50 | different children get different queries |
| TeacherAgent.Run | agents/teacher/src/lib.rs:20-108 | the lesson id is non-empty exactly on success, then "pending_graph_id"; create_lesson issues exactly one write and succeeds exactly when it is accepted; other requests make no call |
| TeacherAgent.LessonMutation | agents/teacher/src/lib.rs:34-40 | the mutation has exactly the keys operation, concept, class_id, content and timestamp, naming "create_lesson" and the clock reading |
| TeacherAgent.LessonCreated | agents/teacher/src/lib.rs:53 | the message holds the concept right after its prefix and the class right after the second prefix |
| TeacherAgent.MalformedRejected | agents/teacher/src/lib.rs:93-98 | undecodable input fails with "Invalid input format" and an empty lesson id |
| TeacherAgent.UnknownOperationRejected | agents/teacher/src/lib.rs:78-90 | any other operation fails with "Unknown operation" and an empty lesson id |
| TeacherAgent.WriteRefused | agents/teacher/src/lib.rs:63-68 | a refused write yields "Graph write operation failed" and an empty lesson id |
| TeacherAgent.LessonCreation | agents/teacher/src/lib.rs:48-54 | an accepted write yields success, the placeholder id and a message containing the concept and the class |
| TeacherAgent.MessageNamesConceptAndClass | agents/teacher/src/lib.rs:53 | the concept and the class occur in the message at the positions after their labels |
| TeacherAgent.MutationNamesLesson | agents/teacher/src/lib.rs:34-40 | lessons differing in concept, class or content get different mutations |
| Ethics.LoadThresholds | services/ethics-measurement/fot_ethics/validator.py:36-51 | a missing file gives the six defaults, a file without `thresholds` none, otherwise the file's thresholds |
| Ethics.DefaultThresholdsWellFormed | services/ethics-measurement/fot_ethics/validator.py:44-51 | the defaults name six different virtues, each threshold strictly between 0 and 1 |
| Ethics.ScoreOf | services/ethics-measurement/fot_ethics/validator.py:115 | a virtue's score is the recorded one, or 0.0 when none is recorded |
| Ethics.CurrentVirtues | services/ethics-measurement/fot_ethics/validator.py:111 | a null `virtues` property reads as no scores, otherwise the recorded scores |
| Ethics.FirstShortfall | services/ethics-measurement/fot_ethics/validator.py:114-121 | none exactly when every threshold is met, otherwise the first threshold in order that is missed |
| Ethics.VirtueStage | services/ethics-measurement/fot_ethics/validator.py:94-127 | passes exactly for a known subject meeting every threshold, a missing score counting 0; always returns the thresholds as required |
| Ethics.FirstShortfallReported | services/ethics-measurement/fot_ethics/validator.py:113-121 | the reason names the first missed threshold, its score and its threshold |
| Ethics.NoScoresMissHonesty | services/ethics-measurement/fot_ethics/validator.py:111-121 | with the defaults a subject with null virtues misses honesty (0.0 < 0.7) first |
| Ethics.DefaultThresholdsMetAtBounds | services/ethics-measurement/fot_ethics/validator.py:114-116 | scores equal to every default threshold pass |
| Ethics.EqualScoresPass | services/ethics-measurement/fot_ethics/validator.py:114-116 | scores exactly equal to every threshold pass the virtue stage, since only a score strictly below fails |
| Ethics.ShaclViolations | services/ethics-measurement/fot_ethics/validator.py:129-149 | the provenance violation appears exactly for a superposed claim without sources, the honesty one exactly for a verify_claim below 0.8, and nothing else appears |
| Ethics.AtMostOneViolation | services/ethics-measurement/fot_ethics/validator.py:137-144 | no request breaks both rules |
| Ethics.SuperposedClaimNeedsProvenance | services/ethics-measurement/fot_ethics/validator.py:137-139 | a superposed claim without provenance has exactly the provenance violation, and any non-empty source list removes it |
| Ethics.OperationRule | services/ethics-measurement/fot_ethics/validator.py:151-181 | the rules pass exactly when the reason is "Operation rules satisfied" |
| Ethics.RolePrefixesExclusive | services/ethics-measurement/fot_ethics/validator.py:156-172 | no subject id carries both the parent prefix and the student or teacher prefix |
| Ethics.RoleRules | services/ethics-measurement/fot_ethics/validator.py:154-176 | update_mastery passes exactly for student_ subjects, create_lesson exactly for teacher_, create_claim for all but parent_, other operations always |
| Ethics.ReadOnlyOnlyForClaims | services/ethics-measurement/fot_ethics/validator.py:155-176 | "Parents have read-only access" is the reason exactly for a parent_ subject's create_claim |
| Ethics.Validate | services/ethics-measurement/fot_ethics/validator.py:53-92 | every response carries the thresholds as required virtues, and only the SHACL failure carries violations |
| Ethics.ApprovedIffAllStagesPass | services/ethics-measurement/fot_ethics/validator.py:53-92 | approved exactly when all three stages pass, and exactly when the reason is the approval text |
| Ethics.FirstFailureWins | services/ethics-measurement/fot_ethics/validator.py:57-85 | a virtue failure decides before SHACL, and SHACL before the role rules |
| Ethics.UnknownSubjectRefused | services/ethics-measurement/fot_ethics/validator.py:103-109 | an unknown subject is refused with "Subject not found" and no violations |
| Ethics.EthicsValidator.constructor | services/ethics-measurement/fot_ethics/validator.py:32-34 | the validator holds the loaded thresholds |
| Ethics.EthicsValidator.CheckVirtueThresholds | services/ethics-measurement/fot_ethics/validator.py:94-127 | the loop with early return computes exactly the virtue stage |
| Ethics.EthicsValidator.CheckShaclConstraints | services/ethics-measurement/fot_ethics/validator.py:129-149 | the appended violations are exactly the rule violations, and the check passes exactly when there are none |
| Ethics.EthicsValidator.ValidateOperation | services/ethics-measurement/fot_ethics/validator.py:53-92 | the method computes exactly the specified validation |

## Left out

- The raw-pointer boundary is not modelled: reading the buffer, lossy UTF-8 decoding and handing back a leaked pointer. Responses are values.
- JSON decoding is abstracted to `Malformed | Decoded(record)`, and serialisation is not modelled.
- The `unwrap` panics on serialisation and on the clock are not modelled.
- The host capabilities' own behaviour is not modelled. Only their arguments, their order and the accept/refuse outcome of graph calls are.
- The clock is a `timestamp` parameter. The photosynthesis agent reads the clock in start_lesson but never uses the reading, so the model has none there.
- Floating point is modelled as real arithmetic. Rounding, infinities and NaN are not modelled, except the empty-subject path written out in `Scoring.TruthField`.
- The `{:.4}`-formatted success messages of the engine and the student agent are constructors that carry the printed numbers. The Python f-string for a missed virtue is likewise a `VirtueReason` value. Rendering them as text is not modelled.
- HarmonicEngine.Run, StudentAgent.Run: once a code-point sum reaches 2^32, the reported coherence uses exact sums, so it matches neither build of the program: a release build wraps (as `Scoring.CoherenceAsWritten` models) and a debug build panics (see Findings).
- The structs `TruthFieldCalculation` and `AgentResonance` in the engine are never built and are not modelled.
- Ethics.LoadThresholds: a loaded threshold list may name a virtue twice, which a YAML mapping cannot; the model does not require `DistinctNames` of a loaded file, and every property holds for any list.
- A file holding `thresholds: null` is not modelled: `.get` then returns `None` and `.items()` raises.
- YAML loading is abstracted to `ThresholdsFile`. Malformed YAML, an empty file (`config` is then `None` and `.get` fails) and non-numeric thresholds are not modelled.
- The Neo4j driver, session and `close` are not modelled. The subject lookup is the `SubjectRecord` argument.
- Logging, and pydantic's validation of `ValidationRequest`, are not modelled: a request is a typed record.
- Comparisons involving NaN in the validator are not modelled.
- The command-line tool and the end-to-end HTTP tests are not part of this model.

## Findings

| source | as written | input that shows it | evidently intended | confidence | as-written member | corrected member |
|---|---|---|---|---|---|---|
| agents/harmonic_resonance_engine/src/lib.rs:206-207 | the code-point sums are taken as `u32`, which wraps modulo 2^32 in a release build (the student agent's copy at agents/student/src/lib.rs:156-157 does the same) | agent id = 3855 × U+10FFFF followed by U+10F0F (exact sum 2^32), context = "" | the phase difference is the exact difference of the two sums (here 2^32), so the coherence is the absolute cosine of 0.01 · 2^32 | not executed | Scoring.WrappedSumMasksDifference | Scoring.Coherence |
