# Sentiment result builder

This project models the only logic the repository writes itself: the sentiment
tool in `src/similarity.py`. The tool takes a text and the two scores an
external sentiment analyzer gives it:

- a polarity, from -1.0 (very negative) to 1.0 (very positive);
- a subjectivity, from 0.0 (objective) to 1.0 (subjective).

It then does four things:

- classifies the polarity as Positive, Negative or Neutral with two fixed thresholds;
- rounds both scores to two decimal places;
- attaches a fixed map that describes the two metrics;
- keeps a sample of at most the first 100 characters of the text.

Finally it builds a validated `SentimentAnalysis` record. The record's constructor
checks the label against the three allowed names (`validate_sentiment`). It also
checks each score against its declared range. If any check fails it raises a
validation error.

Modules:

- `Wrappers` (`wrappers.dfy`): the `Result` type, which models "returns or raises".
- `Rounding` (`rounding.dfy`): `round(x, 2)`, the nearest hundredth with exact ties going to the even hundredth.
- `Schema` (`schema.dfy`): the record, the three labels, the validator and the constructor's field checks.
- `SentimentTool` (`tool.dfy`): `_run`, which covers the classifier, the sample, the description map and record assembly.

Everything is pure: datatypes, functions and lemmas. The source has no loops
and changes no state here.

Main results:

- The classifier's three regions are stated as "if and only if" rules. They partition the reals, with the doubles ±0.2 themselves going to Neutral.
- The classifier is monotone.
- The validator accepts exactly the three class names, and the name of any class passes it. So the only way `_run` can fail is through a score that is out of range after rounding. It never fails on the label.
- In-range analyzer scores always produce a well-formed record.
- The sample obeys exact length and prefix laws, and sampling twice gives the same result as sampling once.
- The stored, rounded polarity agrees with the stored label except exactly on a threshold.

The score fields are described as ranging from -1.0 to 1.0 and from 0.0 to
1.0 (src/similarity.py:18, 24). The stored scores lie in those ranges only
because the constructor raises otherwise. Rounding (src/similarity.py:75-76)
happens before that check, so 1.004 is stored as 1.0 and accepted. `Run`
states exactly when it succeeds. The class is computed from the unrounded
polarity (line 65), while the record stores the rounded one (line 75). So every
polarity above the double 0.2 and up to 0.205 is stored as Positive with score 0.2
(`RunStoresBoundaryScore`), and likewise on the negative side.

Every real in the model stands for the exact value of a double. The thresholds
are therefore the exact value of the double 0.2 and its negation, so the double
0.2 itself is Neutral, as in Python.

## Model

| member | source | states |
|---|---|---|
| `Rounding.RoundedHundredths` | src/similarity.py:75-76 | the integer chosen is within 1/2 of 100·x, and is even when exactly 1/2 away (round half to even) |
| `Rounding.Round2` | src/similarity.py:75-76 | the rounded score has at most two decimal places and differs from the input by at most 0.005 |
| `Rounding.RoundedHundredthsNearest` | src/similarity.py:75-76 | no integer is nearer to 100·x than the one chosen; an equally near one is either it or odd |
| `Rounding.Round2OfHundredth` | src/similarity.py:75-76 | a value that already has two decimal places is returned unchanged |
| `Rounding.Round2Monotone` | src/similarity.py:75-76 | rounding preserves the order of two scores |
| `Rounding.Round2OfDouble2675` | src/similarity.py:75-76 | the double read from 2.675 rounds to 2.67, while the exact decimal 2.675 would round to 2.68 |
| `Rounding.Round2Within` | src/similarity.py:75-76 | a score between two two-decimal bounds is still between them after rounding |
| `Schema.ValidateSentiment` | src/similarity.py:37-42 | an accepted value is returned unchanged; a rejection reports that value |
| `Schema.ValidateSentimentAcceptsExactlyLabels` | src/similarity.py:37-42 | the validator accepts a string if and only if it is the name of one of the three classes |
| `Schema.LabelNameValidates` | src/similarity.py:37-42 | the name of every class passes the validator unchanged |
| `Schema.LabelNameInjective` | src/similarity.py:39-39 | the three allowed names are distinct, so a stored name determines its class |
| `Schema.FieldErrors` | src/similarity.py:12-42 | the reported errors name exactly the fields whose constraints fail (invalid label, polarity outside [-1, 1], subjectivity outside [0, 1]) and nothing else, at most once each, in declaration order |
| `Schema.Build` | src/similarity.py:8-42 | the constructor yields a record holding exactly the given fields if and only if the record is well formed; otherwise it raises with the non-empty list of field errors |
| `SentimentTool.Classify` | src/similarity.py:64-70 | Positive if and only if polarity > the double 0.2; Negative if and only if polarity < the double -0.2; Neutral if and only if it lies between them, bounds included |
| `SentimentTool.ClassifyAtThresholds` | src/similarity.py:64-70 | the doubles 0.2 and -0.2 are Neutral; the next doubles beyond them are Positive and Negative |
| `SentimentTool.ClassifyMonotone` | src/similarity.py:64-70 | p ≤ q implies the class of p is not above the class of q in Negative < Neutral < Positive |
| `SentimentTool.ClassifyValidates` | src/similarity.py:64-70 | the label `_run` computes always passes `validate_sentiment` unchanged |
| `SentimentTool.Sample` | src/similarity.py:81-81 | text of at most 100 characters is kept whole; longer text gives its first 100 characters followed by "...", 103 characters in all |
| `SentimentTool.SampleIdempotent` | src/similarity.py:81-81 | taking the sample of a sample changes nothing |
| `SentimentTool.SampleBounds` | src/similarity.py:81-81 | the sample has at most 103 characters, at most 3 more than the text, and begins with the first min(len, 100) characters of the text |
| `SentimentTool.AnalysisDescriptions` | src/similarity.py:77-80 | the map has exactly the keys "polarity" and "subjectivity", with their two fixed descriptions |
| `SentimentTool.Run` | src/similarity.py:48-82 | `_run` succeeds if and only if both rounded scores are in range; the result is well formed and holds the class of the unrounded polarity, the rounded scores, the descriptions and the sample; a failure is non-empty, never involves the label, and names each rounded score exactly when it is out of range |
| `SentimentTool.RunAcceptsAnalyzerRange` | src/similarity.py:73-82 | scores inside [-1, 1] and [0, 1] always give a record, each stored score within 0.005 of its input |
| `SentimentTool.Round2OfThresholds` | src/similarity.py:65-76 | the threshold doubles round to exactly 0.2 and -0.2 |
| `SentimentTool.RunScoreAgreesWithLabel` | src/similarity.py:64-76 | a Positive record stores polarity ≥ 0.2, a Negative one ≤ -0.2, a Neutral one in [-0.2, 0.2] |
| `SentimentTool.RunStoresBoundaryScore` | src/similarity.py:64-76 | every polarity above the double 0.2 and up to 0.205 is stored as Positive with score 0.2, and every one from -0.205 to below the double -0.2 as Negative with -0.2; either score would classify as Neutral on its own |

## Left out

- The TextBlob analyzer (src/similarity.py:58-62) is a foreign library. Its polarity and subjectivity are parameters of `Run`. Their usual ranges appear only as the precondition of `RunAcceptsAnalyzerRange`, because the code itself accepts any value.
- SentimentTool.Classify, Rounding.Round2: a real stands for the exact value of a double, but the inputs are not restricted to values that are doubles. A decimal written as a real is not the double Python reads from it. So `Round2(2.675)` is 2.68, while CPython's `round(2.675, 2)` is 2.67, because that double is 2.67499999…. To get Python's results, pass the double's exact value (`Round2OfDouble2675`). Exact binary ties arise only at odd multiples of 1/8.
- Rounding.Round2: returns the exact decimal, not the double nearest to it, so the stored scores are idealised decimals.
- NaN and infinities are not modelled.
- `model_dump_json()` (src/similarity.py:85) is the JSON serialiser of an external library. `Run` returns the record itself instead of its JSON text.
- Schema.FieldErrors: each error carries the failing field and value, not the library's message text (for `validate_sentiment`, "Sentiment must be one of [...]").
- The tool's `name` and `description` attributes (src/similarity.py:45-46) are fixed strings with no behaviour.
- `build_crew` and the script entry point (src/similarity.py:88-134) only configure an external agent framework, call it and print the result. The same holds for src/support-agents.py and src/tool-test.py. Those two files are not part of this model, and neither is the placeholder `_run` in src/tool-test.py, a single formatted string with no behaviour.
- Python string lengths count code points. Dafny's `string` here is a sequence of Unicode scalar values, so lone surrogates are not modelled.
