/**
 * The `SentimentAnalysis` record of src/similarity.py and the checks its
 * constructor runs: the `validate_sentiment` validator on the label and the
 * range constraints on the two scores.
 */
module Schema {
  import opened Wrappers

  /** The three sentiment classes, ordered from most negative to most positive. */
  datatype Label = Negative | Neutral | Positive {

    /** The string `_run` stores in the record's `sentiment` field for this class. */
    function Name(): string {
      match this
      case Positive => "Positive"
      case Negative => "Negative"
      case Neutral => "Neutral"
    }

    /** Position in the order Negative < Neutral < Positive. */
    function Rank(): nat {
      match this
      case Negative => 0
      case Neutral => 1
      case Positive => 2
    }
  }

  /** The list the validator checks a sentiment string against, in the order `validate_sentiment` lists them. */
  const AllowedValues: seq<string> := ["Positive", "Negative", "Neutral"]

  /** The lower and upper bounds the record's fields declare with `ge` / `le`. */
  const PolarityMin: real := -1.0
  const PolarityMax: real := 1.0
  const SubjectivityMin: real := 0.0
  const SubjectivityMax: real := 1.0

  /** One entry of the validation error raised when the record is constructed from bad fields. */
  datatype FieldError =
    | SentimentNotAllowed(value: string)
    | PolarityOutOfRange(score: real)
    | SubjectivityOutOfRange(score: real)
  {
    /** Position of the failing field in the record's declaration. */
    function Field(): nat {
      match this
      case SentimentNotAllowed(_) => 0
      case PolarityOutOfRange(_) => 1
      case SubjectivityOutOfRange(_) => 2
    }
  }

  /** The result schema: one analysis of one text. */
  datatype SentimentAnalysis = SentimentAnalysis(
    sentiment: string,
    polarityScore: real,
    subjectivityScore: real,
    analysis: map<string, string>,
    textSample: string)

  predicate PolarityInRange(p: real) {
    PolarityMin <= p <= PolarityMax
  }

  predicate SubjectivityInRange(s: real) {
    SubjectivityMin <= s <= SubjectivityMax
  }

  /** Every constraint the record's declaration places on its fields holds. */
  predicate WellFormed(r: SentimentAnalysis) {
    r.sentiment in AllowedValues
    && PolarityInRange(r.polarityScore)
    && SubjectivityInRange(r.subjectivityScore)
  }

  /** `validate_sentiment`: returns its argument when it is allowed, raises otherwise. */
  function ValidateSentiment(v: string): (r: Result<string, FieldError>)
    ensures r.Ok? ==> r.value == v
    ensures r.Err? ==> r.error == SentimentNotAllowed(v)
  {
    if v in AllowedValues then Ok(v) else Err(SentimentNotAllowed(v))
  }

  /** The validator accepts exactly the names of the three classes. */
  lemma {:induction false} ValidateSentimentAcceptsExactlyLabels(v: string)
    ensures ValidateSentiment(v).Ok? <==> exists l: Label :: l.Name() == v
  {
    if v in AllowedValues {
      var l: Label :| l.Name() == v by {
        if v == "Positive" {
          assert Positive.Name() == v;
        } else if v == "Negative" {
          assert Negative.Name() == v;
        } else {
          assert Neutral.Name() == v;
        }
      }
    }
  }

  /** The name of any class passes the validator unchanged, so its error branch needs a name from elsewhere. */
  lemma LabelNameValidates(l: Label)
    ensures ValidateSentiment(l.Name()) == Ok(l.Name())
  {
  }

  /** The three names are distinct: the stored string determines the class. */
  lemma LabelNameInjective(l: Label, m: Label)
    requires l.Name() == m.Name()
    ensures l == m
  {
  }

  /**
   * The errors the constructor reports, one per failing field, in the order
   * the fields are declared (sentiment, polarity_score, subjectivity_score).
   */
  function FieldErrors(sentiment: string, polarity: real, subjectivity: real): (errs: seq<FieldError>)
    ensures SentimentNotAllowed(sentiment) in errs <==> sentiment !in AllowedValues
    ensures PolarityOutOfRange(polarity) in errs <==> !PolarityInRange(polarity)
    ensures SubjectivityOutOfRange(subjectivity) in errs <==> !SubjectivityInRange(subjectivity)
    ensures forall e :: e in errs ==>
              e == SentimentNotAllowed(sentiment)
              || e == PolarityOutOfRange(polarity)
              || e == SubjectivityOutOfRange(subjectivity)
    ensures forall i, j :: 0 <= i < j < |errs| ==> errs[i].Field() < errs[j].Field()
  {
    var v := ValidateSentiment(sentiment);
    (if v.Err? then [v.error] else [])
    + (if PolarityInRange(polarity) then [] else [PolarityOutOfRange(polarity)])
    + (if SubjectivityInRange(subjectivity) then [] else [SubjectivityOutOfRange(subjectivity)])
  }

  /**
   * `SentimentAnalysis(...)`: yields the record when every field constraint
   * holds and raises a validation error listing every failing field otherwise.
   * The `analysis` and `text_sample` fields accept any value.
   */
  function Build(sentiment: string, polarity: real, subjectivity: real,
                 analysis: map<string, string>, sample: string): (r: Result<SentimentAnalysis, seq<FieldError>>)
    ensures r.Ok? <==> WellFormed(SentimentAnalysis(sentiment, polarity, subjectivity, analysis, sample))
    ensures r.Ok? ==> r.value == SentimentAnalysis(sentiment, polarity, subjectivity, analysis, sample)
    ensures r.Err? ==> r.error != [] && r.error == FieldErrors(sentiment, polarity, subjectivity)
  {
    var errs := FieldErrors(sentiment, polarity, subjectivity);
    if errs == [] then Ok(SentimentAnalysis(sentiment, polarity, subjectivity, analysis, sample))
    else Err(errs)
  }
}
