/**
 * `SentimentAnalysisTool._run` of src/similarity.py: classify the polarity,
 * round both scores, attach the fixed metric descriptions and a sample of the
 * text, and construct the validated record. The external analyzer's two
 * scores are parameters; serialising the record to JSON is not modelled.
 */
module SentimentTool {
  import opened Wrappers
  import opened Schema
  import opened Rounding

  /** A polarity strictly above this is Positive: the exact value of the double Python reads from 0.2. */
  const PositiveThreshold: real := 0.200000000000000011102230246251565404236316680908203125
  /** A polarity strictly below this is Negative: the exact value of the double Python reads from -0.2. */
  const NegativeThreshold: real := -PositiveThreshold

  /** Number of characters of the text kept in the sample. */
  const SampleLength: nat := 100
  /** Marker appended to a truncated sample. */
  const Ellipsis: string := "..."

  const PolarityDescription: string := "Ranges from -1.0 (very negative) to 1.0 (very positive)"
  const SubjectivityDescription: string := "Ranges from 0.0 (objective) to 1.0 (subjective)"

  /** The threshold rule; every polarity falls in exactly one of the three regions. */
  function Classify(polarity: real): (l: Label)
    ensures l == Positive <==> polarity > PositiveThreshold
    ensures l == Negative <==> polarity < NegativeThreshold
    ensures l == Neutral <==> NegativeThreshold <= polarity <= PositiveThreshold
  {
    if polarity > PositiveThreshold then Positive
    else if polarity < NegativeThreshold then Negative
    else Neutral
  }

  /** The doubles 0.2 and -0.2 themselves are Neutral; the double just above 0.2 is Positive. */
  lemma ClassifyAtThresholds()
    ensures Classify(PositiveThreshold) == Neutral && Classify(NegativeThreshold) == Neutral
    ensures Classify(0.20000000000000003885780586188047891482710838317871093750) == Positive
    ensures Classify(-0.20000000000000003885780586188047891482710838317871093750) == Negative
  {
  }

  /** A higher polarity never gets a lower class. */
  lemma ClassifyMonotone(p: real, q: real)
    requires p <= q
    ensures Classify(p).Rank() <= Classify(q).Rank()
  {
  }

  /** The `sentiment` string `_run` computes always passes `validate_sentiment`. */
  lemma ClassifyValidates(polarity: real)
    ensures ValidateSentiment(Classify(polarity).Name()) == Ok(Classify(polarity).Name())
  {
    LabelNameValidates(Classify(polarity));
  }

  /** The `text_sample` field: the text itself, or its first 100 characters and "...". */
  function Sample(text: string): (r: string)
    ensures |text| <= SampleLength ==> r == text
    ensures |text| > SampleLength ==>
              |r| == SampleLength + |Ellipsis|
              && r[..SampleLength] == text[..SampleLength]
              && r[SampleLength..] == Ellipsis
  {
    if |text| > SampleLength then text[..SampleLength] + Ellipsis else text
  }

  /** Sampling a sample changes nothing: a truncated sample is itself over 100 characters and truncates to itself. */
  lemma {:induction false} SampleIdempotent(text: string)
    ensures Sample(Sample(text)) == Sample(text)
  {
    if |text| > SampleLength {
      var s := Sample(text);
      assert s[..SampleLength] + Ellipsis == s by {
        assert s == s[..SampleLength] + s[SampleLength..];
      }
    }
  }

  /** The sample is never longer than 103 characters and always begins with the start of the text. */
  lemma SampleBounds(text: string)
    ensures |Sample(text)| <= SampleLength + |Ellipsis|
    ensures |Sample(text)| <= |text| + |Ellipsis|
    ensures var k := if |text| < SampleLength then |text| else SampleLength;
            Sample(text)[..k] == text[..k]
  {
  }

  /** The `analysis` field: exactly the two metric names, each with its fixed description. */
  function AnalysisDescriptions(): (m: map<string, string>)
    ensures m.Keys == {"polarity", "subjectivity"} && |m| == 2
    ensures m["polarity"] == PolarityDescription
    ensures m["subjectivity"] == SubjectivityDescription
  {
    map["polarity" := PolarityDescription, "subjectivity" := SubjectivityDescription]
  }

  /**
   * `_run` on a text whose analyzer scores are `polarity` and `subjectivity`.
   * The class comes from the unrounded polarity; the record holds the rounded
   * scores, and its constructor rejects them when rounding leaves them out of range.
   */
  function Run(text: string, polarity: real, subjectivity: real): (r: Result<SentimentAnalysis, seq<FieldError>>)
    ensures r.Ok? <==> PolarityInRange(Round2(polarity)) && SubjectivityInRange(Round2(subjectivity))
    ensures r.Ok? ==>
              WellFormed(r.value)
              && r.value.sentiment == Classify(polarity).Name()
              && r.value.polarityScore == Round2(polarity)
              && r.value.subjectivityScore == Round2(subjectivity)
              && r.value.analysis == AnalysisDescriptions()
              && r.value.textSample == Sample(text)
    ensures r.Err? ==> forall e :: e in r.error ==> !e.SentimentNotAllowed?
    ensures r.Err? ==>
              r.error != []
              && (PolarityOutOfRange(Round2(polarity)) in r.error <==> !PolarityInRange(Round2(polarity)))
              && (SubjectivityOutOfRange(Round2(subjectivity)) in r.error
                  <==> !SubjectivityInRange(Round2(subjectivity)))
  {
    Build(Classify(polarity).Name(), Round2(polarity), Round2(subjectivity),
          AnalysisDescriptions(), Sample(text))
  }

  /** Scores in the analyzer's ranges always produce a record; the scores move by at most 0.005. */
  lemma {:induction false} RunAcceptsAnalyzerRange(text: string, polarity: real, subjectivity: real)
    requires PolarityInRange(polarity) && SubjectivityInRange(subjectivity)
    ensures Run(text, polarity, subjectivity).Ok?
    ensures Abs(Run(text, polarity, subjectivity).value.polarityScore - polarity) <= 0.005
    ensures Abs(Run(text, polarity, subjectivity).value.subjectivityScore - subjectivity) <= 0.005
  {
    Round2Within(PolarityMin, polarity, PolarityMax);
    Round2Within(SubjectivityMin, subjectivity, SubjectivityMax);
  }

  /** Both thresholds round to the two-decimal values they are written as. */
  lemma Round2OfThresholds()
    ensures Round2(PositiveThreshold) == 0.2 && Round2(NegativeThreshold) == -0.2
  {
    assert RoundedHundredths(PositiveThreshold) == 20;
    assert RoundedHundredths(NegativeThreshold) == -20;
  }

  /**
   * The stored, rounded polarity agrees with the stored class up to the
   * threshold itself: rounding can carry a Positive or Negative polarity onto
   * the boundary 0.2 or -0.2, never past it.
   */
  lemma {:induction false} RunScoreAgreesWithLabel(text: string, polarity: real, subjectivity: real)
    requires Run(text, polarity, subjectivity).Ok?
    ensures var r := Run(text, polarity, subjectivity).value;
            (r.sentiment == "Positive" ==> r.polarityScore >= 0.2)
            && (r.sentiment == "Negative" ==> r.polarityScore <= -0.2)
            && (r.sentiment == "Neutral" ==> -0.2 <= r.polarityScore <= 0.2)
  {
    Round2OfThresholds();
    match Classify(polarity)
    case Positive => Round2Monotone(PositiveThreshold, polarity);
    case Negative => Round2Monotone(polarity, NegativeThreshold);
    case Neutral =>
      Round2Monotone(NegativeThreshold, polarity);
      Round2Monotone(polarity, PositiveThreshold);
  }

  /**
   * The boundary case of RunScoreAgreesWithLabel is reached by a whole band of
   * polarities on each side: they are stored as Positive with score 0.2 (or
   * Negative with -0.2), a score that would classify as Neutral on its own.
   */
  lemma {:induction false} RunStoresBoundaryScore(text: string, polarity: real, subjectivity: real)
    requires PositiveThreshold < polarity <= 0.205 || -0.205 <= polarity < NegativeThreshold
    requires SubjectivityInRange(subjectivity)
    ensures Run(text, polarity, subjectivity).Ok?
    ensures var r := Run(text, polarity, subjectivity).value;
            (polarity > 0.0 ==> r.sentiment == "Positive" && r.polarityScore == 0.2)
            && (polarity < 0.0 ==> r.sentiment == "Negative" && r.polarityScore == -0.2)
            && Classify(r.polarityScore) == Neutral
  {
    RunAcceptsAnalyzerRange(text, polarity, subjectivity);
    if polarity > 0.0 {
      assert (polarity * Scale).Floor == 20;
      assert RoundedHundredths(polarity) == 20;
    } else {
      assert (polarity * Scale).Floor == -21;
      assert RoundedHundredths(polarity) == -20;
    }
  }
}
