/**
 * The scoring engine shared by the agents: context relevance, truth-field
 * strength, harmonic coherence, resonance measurement and the resonance
 * spectrum. Floating-point numbers are modelled as `real`; the library
 * functions `ln`, `cos`, `sin` and `exp` are parameters, of which only the
 * facts in `Lawful` are assumed.
 */
module Scoring {
  import opened Text

  /** The transcendental functions the formulas call. */
  datatype Math = Math(ln: real -> real, cos: real -> real, sin: real -> real, exp: real -> real)

  /** The only facts about the library functions that the proofs use. */
  ghost predicate Lawful(m: Math) {
    && (forall x :: -1.0 <= m.cos(x) <= 1.0)
    && m.cos(0.0) == 1.0
    && (forall x :: 0.0 <= m.exp(x))
    && m.exp(0.0) == 1.0
  }

  /** `std::f64::consts::PI` as a decimal. */
  const Pi: real := 3.141592653589793

  function Abs(x: real): real {
    if x < 0.0 then -x else x
  }

  /** `f64::min` on numbers. */
  function Min(a: real, b: real): real {
    if a <= b then a else b
  }

  function Square(x: real): real {
    x * x
  }

  // ---------------------------------------------------------------------------
  // Context relevance
  // ---------------------------------------------------------------------------

  /** `context_relevance_score` once the words and uppercase letters are counted. */
  function Relevance(words: nat, uppercase: nat): (r: real)
    ensures 0.0 <= r <= 1.0
    ensures r == 1.0 <==> 2 * words + uppercase >= 20
  {
    Min(words as real * 0.1 + uppercase as real * 0.05, 1.0)
  }

  /** More words or more uppercase letters never lower the relevance. */
  lemma RelevanceMonotone(words: nat, uppercase: nat, words': nat, uppercase': nat)
    requires words <= words' && uppercase <= uppercase'
    ensures Relevance(words, uppercase) <= Relevance(words', uppercase')
  {
  }

  /** `context_relevance_score`: 0.1 per whitespace-separated word plus 0.05 per ASCII uppercase letter, capped at 1. */
  function ContextRelevance(context: string): (r: real)
    ensures 0.0 <= r <= 1.0
  {
    Relevance(WordCount(context), UppercaseCount(context))
  }

  /** Extending a context never lowers its relevance. */
  lemma ContextRelevanceGrowsWithSuffix(s: string, t: string)
    ensures ContextRelevance(s) <= ContextRelevance(s + t)
  {
    WordCountGrowsWithSuffix(s, t);
    UppercaseCountAppend(s, t);
    RelevanceMonotone(WordCount(s), UppercaseCount(s), WordCount(s + t), UppercaseCount(s + t));
  }

  /** A context without words has no uppercase letters either, so its relevance is 0. */
  lemma BlankContextIrrelevant(context: string)
    requires WordCount(context) == 0
    ensures ContextRelevance(context) == 0.0
  {
    NoWordsNoUppercase(context);
  }

  // ---------------------------------------------------------------------------
  // Truth field
  // ---------------------------------------------------------------------------

  /**
   * `calculate_harmonic_truth_field`: `min(|cos(ln(len(subject)) * relevance * PI)| * 0.5 + 0.5, 1)`,
   * where `len` counts UTF-8 bytes. For an empty subject the source takes
   * ln(0) = -infinity; the product is then -infinity or NaN, its cosine NaN,
   * and `NaN.min(1.0)` returns 1.0. The model writes that outcome out.
   */
  function TruthField(m: Math, subject: string, context: string): (r: real)
    ensures Lawful(m) ==> 0.5 <= r <= 1.0
  {
    var bytes := Utf8Length(subject);
    if bytes == 0 then 1.0 else HarmonicStrength(m, bytes, ContextRelevance(context))
  }

  /** The truth-field formula for a non-empty subject of `bytes` bytes and a context of the given relevance. */
  function HarmonicStrength(m: Math, bytes: nat, relevance: real): (r: real)
    ensures Lawful(m) ==> 0.5 <= r <= 1.0
  {
    var baseResonance := m.ln(bytes as real) * relevance;
    var harmonicFactor := Abs(m.cos(baseResonance * Pi));
    Min(harmonicFactor * 0.5 + 0.5, 1.0)
  }

  /** The empty subject, through the NaN path, always reaches full strength. */
  lemma EmptySubjectFullStrength(m: Math, context: string)
    ensures TruthField(m, "", context) == 1.0
  {
  }

  /** With a context of no words the base resonance is 0 and the strength is 1. */
  lemma BlankContextFullStrength(m: Math, subject: string, context: string)
    requires Lawful(m)
    requires WordCount(context) == 0
    ensures TruthField(m, subject, context) == 1.0
  {
    BlankContextIrrelevant(context);
    if Utf8Length(subject) != 0 {
      IrrelevantContextFullStrength(m, Utf8Length(subject));
    }
  }

  lemma IrrelevantContextFullStrength(m: Math, bytes: nat)
    requires m.cos(0.0) == 1.0
    ensures HarmonicStrength(m, bytes, 0.0) == 1.0
  {
    assert m.ln(bytes as real) * 0.0 * Pi == 0.0;
  }

  // ---------------------------------------------------------------------------
  // Coherence
  // ---------------------------------------------------------------------------

  /** `|hash(a) - hash(b)|` with the code-point sums taken without overflow. */
  function PhaseDifference(a: string, b: string): (d: nat)
    ensures d == 0 <==> CodeSum(a) == CodeSum(b)
  {
    if CodeSum(a) >= CodeSum(b) then CodeSum(a) - CodeSum(b) else CodeSum(b) - CodeSum(a)
  }

  /** `calculate_harmonic_coherence`: `|cos(0.01 * |hash(a) - hash(b)|)|`. */
  function Coherence(m: Math, a: string, b: string): (r: real)
    ensures Lawful(m) ==> 0.0 <= r <= 1.0
    ensures Lawful(m) && CodeSum(a) == CodeSum(b) ==> r == 1.0
  {
    Abs(m.cos(PhaseDifference(a, b) as real * 0.01))
  }

  lemma CoherenceSymmetric(m: Math, a: string, b: string)
    ensures Coherence(m, a, b) == Coherence(m, b, a)
  {
  }

  const U32Modulus: nat := 0x1_0000_0000

  /** The code-point sum as the source computes it: `sum::<u32>()`, which wraps in a release build. */
  function CodeSum32(s: string): (h: nat)
    ensures h < U32Modulus
    ensures CodeSum(s) < U32Modulus ==> h == CodeSum(s)
  {
    CodeSum(s) % U32Modulus
  }

  /** The phase difference on 32-bit sums: below 2^32, and 0 exactly when the wrapped sums agree. */
  function PhaseDifferenceAsWritten(a: string, b: string): (d: nat)
    ensures d < U32Modulus
    ensures d == 0 <==> CodeSum32(a) == CodeSum32(b)
  {
    if CodeSum32(a) >= CodeSum32(b) then CodeSum32(a) - CodeSum32(b) else CodeSum32(b) - CodeSum32(a)
  }

  /** `calculate_harmonic_coherence` with the 32-bit sums of the source. */
  function CoherenceAsWritten(m: Math, a: string, b: string): (r: real)
    ensures Lawful(m) ==> 0.0 <= r <= 1.0
  {
    Abs(m.cos(PhaseDifferenceAsWritten(a, b) as real * 0.01))
  }

  /** A string of 3856 characters whose code points add up to exactly 2^32. */
  function WrappingString(): string {
    seq(3855, _ => '\U{10FFFF}') + ['\U{10F0F}']
  }

  /**
   * With 32-bit sums, a 3856-character string and the empty string get a
   * phase difference of 0 and hence perfect coherence; on exact sums their
   * phase difference is 2^32.
   */
  lemma WrappedSumMasksDifference(m: Math)
    requires Lawful(m)
    ensures CodeSum(WrappingString()) != CodeSum("")
    ensures PhaseDifference(WrappingString(), "") == U32Modulus
    ensures PhaseDifferenceAsWritten(WrappingString(), "") == 0
    ensures CoherenceAsWritten(m, WrappingString(), "") == 1.0
  {
    CodeSumRepeat('\U{10FFFF}', 3855);
    CodeSumAppend(seq(3855, _ => '\U{10FFFF}'), ['\U{10F0F}']);
    assert CodeSum(['\U{10F0F}']) == 0x10F0F;
    assert CodeSum(WrappingString()) == U32Modulus;
  }

  // ---------------------------------------------------------------------------
  // Resonance measurement
  // ---------------------------------------------------------------------------

  /** The sinc factor `sin(PI f) / (PI f)`, defined as 1 at f = 0. */
  function Sinc(m: Math, frequency: real): (r: real)
    ensures frequency == 0.0 ==> r == 1.0
  {
    if frequency == 0.0 then 1.0 else m.sin(Pi * frequency) / (Pi * frequency)
  }

  /** The product `amplitude * |sinc| * gaussian * relevance` that `measure_agent_resonance` returns. */
  function ResonanceProduct(amplitude: real, sinc: real, gaussian: real, relevance: real): (r: real)
    ensures amplitude == 0.0 || relevance == 0.0 ==> r == 0.0
    ensures sinc == 1.0 && gaussian == 1.0 ==> r == amplitude * relevance
  {
    amplitude * Abs(sinc) * gaussian * relevance
  }

  /** `measure_agent_resonance`: no resonance at zero amplitude or in an irrelevant context. */
  function MeasureResonance(m: Math, frequency: real, amplitude: real, context: string): (r: real)
    ensures amplitude == 0.0 || ContextRelevance(context) == 0.0 ==> r == 0.0
  {
    var contextFactor := ContextRelevance(context);
    var sincFactor := Sinc(m, frequency);
    var gaussianFactor := m.exp(-frequency * frequency / 2.0);
    ResonanceProduct(amplitude, sincFactor, gaussianFactor, contextFactor)
  }

  /** At frequency 0 both the sinc and the Gaussian factor are exactly 1 (the latter as exp(0) = 1). */
  lemma MeasureResonanceAtZero(m: Math, amplitude: real, context: string)
    requires m.exp(0.0) == 1.0
    ensures MeasureResonance(m, 0.0, amplitude, context) == amplitude * ContextRelevance(context)
  {
    var gaussianFactor := m.exp(-0.0 * 0.0 / 2.0);
    assert gaussianFactor == 1.0 by {
      assert -0.0 * 0.0 / 2.0 == 0.0;
    }
    var relevance := ContextRelevance(context);
    assert MeasureResonance(m, 0.0, amplitude, context) == ResonanceProduct(amplitude, 1.0, gaussianFactor, relevance);
  }

  /** Every factor but the amplitude is non-negative, so the result never has the opposite sign. */
  lemma MeasureResonanceSign(m: Math, frequency: real, amplitude: real, context: string)
    requires Lawful(m)
    ensures amplitude >= 0.0 ==> MeasureResonance(m, frequency, amplitude, context) >= 0.0
    ensures amplitude <= 0.0 ==> MeasureResonance(m, frequency, amplitude, context) <= 0.0
  {
    var gaussianFactor := m.exp(-frequency * frequency / 2.0);
    assert gaussianFactor >= 0.0;
    ProductKeepsSign(amplitude, Sinc(m, frequency), gaussianFactor, ContextRelevance(context));
  }

  /** Scaling by non-negative factors keeps the sign. */
  lemma ProductKeepsSign(amplitude: real, sinc: real, gaussian: real, relevance: real)
    requires 0.0 <= gaussian && 0.0 <= relevance
    ensures 0.0 <= amplitude ==> 0.0 <= ResonanceProduct(amplitude, sinc, gaussian, relevance)
    ensures amplitude <= 0.0 ==> ResonanceProduct(amplitude, sinc, gaussian, relevance) <= 0.0
  {
    KeepsSign(amplitude, Abs(sinc));
    KeepsSign(amplitude * Abs(sinc), gaussian);
    KeepsSign(amplitude * Abs(sinc) * gaussian, relevance);
  }

  lemma KeepsSign(x: real, factor: real)
    requires 0.0 <= factor
    ensures 0.0 <= x ==> 0.0 <= x * factor
    ensures x <= 0.0 ==> x * factor <= 0.0
  {
  }

  // ---------------------------------------------------------------------------
  // Resonance spectrum
  // ---------------------------------------------------------------------------

  const Bandwidth: real := 0.1

  /** The sample at `offset` bandwidths from the centre: a Gaussian bump, zero at non-positive frequencies. */
  function SpectrumSample(m: Math, center: real, offset: int): (r: real)
    ensures center + offset as real * Bandwidth <= 0.0 ==> r == 0.0
    ensures center + offset as real * Bandwidth > 0.0 ==> r == m.exp(-Square(offset as real) / 2.0)
  {
    var freq := center + offset as real * Bandwidth;
    assert (freq - center) / Bandwidth == offset as real;
    if freq > 0.0 then m.exp(-Square((freq - center) / Bandwidth) / 2.0) else 0.0
  }

  /** `generate_resonance_spectrum`: the samples at offsets -5..5, leftmost first. */
  function Spectrum(m: Math, center: real): (r: seq<real>)
    ensures |r| == 11
    ensures Lawful(m) ==> forall k :: 0 <= k < |r| ==> 0.0 <= r[k]
  {
    seq(11, k => SpectrumSample(m, center, k - 5))
  }

  /**
   * The spectrum has 11 entries; entry k belongs to frequency center + (k - 5) * 0.1,
   * is 0 when that frequency is not positive and exp(-(k - 5)^2 / 2) otherwise.
   */
  lemma SpectrumShape(m: Math, center: real)
    ensures |Spectrum(m, center)| == 11
    ensures forall k :: 0 <= k < 11 && center + (k - 5) as real * 0.1 <= 0.0 ==> Spectrum(m, center)[k] == 0.0
    ensures forall k :: 0 <= k < 11 && center + (k - 5) as real * 0.1 > 0.0 ==>
      Spectrum(m, center)[k] == m.exp(-Square((k - 5) as real) / 2.0)
  {
    forall k | 0 <= k < 11 && center + (k - 5) as real * 0.1 > 0.0
      ensures Spectrum(m, center)[k] == m.exp(-Square((k - 5) as real) / 2.0)
    {
      var freq := center + (k - 5) as real * Bandwidth;
      assert (freq - center) / Bandwidth == (k - 5) as real;
    }
  }

  /** The middle entry is exp(0) = 1 for a positive centre and 0 otherwise. */
  lemma SpectrumCentre(m: Math, center: real)
    requires Lawful(m)
    ensures center > 0.0 ==> Spectrum(m, center)[5] == 1.0
    ensures center <= 0.0 ==> Spectrum(m, center)[5] == 0.0
  {
    assert Spectrum(m, center)[5] == SpectrumSample(m, center, 0);
  }

  /** The loop of `generate_resonance_spectrum`: one sample pushed per offset -5..5. */
  method GenerateResonanceSpectrum(m: Math, centralFrequency: real) returns (spectrum: seq<real>)
    ensures spectrum == Spectrum(m, centralFrequency)
  {
    spectrum := [];
    for i := -5 to 6
      invariant |spectrum| == i + 5
      invariant forall k :: 0 <= k < |spectrum| ==> spectrum[k] == SpectrumSample(m, centralFrequency, k - 5)
    {
      var freq := centralFrequency + i as real * Bandwidth;
      var amplitude := if freq > 0.0 then m.exp(-Square((freq - centralFrequency) / Bandwidth) / 2.0) else 0.0;
      spectrum := spectrum + [amplitude];
    }
  }
}
