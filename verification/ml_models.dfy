/** The signal extractors and the canned-response index (src/services/ml_models.py).
    The transformer pipelines and the embedding model are oracles: what they
    returned (or that they raised) is an input, and the cosine similarities of a
    query against the indexed descriptors arrive as a sequence of reals. */
module MachineLearning {
  import opened Wrappers
  import opened Text
  import opened Models

  /** What the zero-shot intent pipeline returned, or that it raised. */
  datatype IntentRun = IntentRaised | IntentLabels(labels: seq<string>, scores: seq<real>)

  datatype IntentResult = IntentResult(intent: string, confidence: real, allScores: map<string, real>)

  datatype LabelScore = LabelScore(name: string, score: real)

  /** What the sentiment pipeline returned (one entry per input), or that it raised. */
  datatype SentimentRun = SentimentRaised | SentimentLabels(results: seq<LabelScore>)

  datatype SentimentResult = SentimentResult(sentiment: string, confidence: real)

  /** The outcome of a nearest-match lookup: `(None, 0.0)` or a catalogue entry with its score. */
  datatype Match = NoMatch | Best(entry: CannedResponse, score: real) {
    function Score(): real {
      if NoMatch? then 0.0 else score
    }
  }

  function Min(a: nat, b: nat): nat {
    if a <= b then a else b
  }

  /** `dict(zip(labels, scores))`: pairs up to the shorter length, a later label overriding. */
  function ZipDict(labels: seq<string>, scores: seq<real>): (d: map<string, real>)
    ensures forall k :: k in d <==> exists i :: 0 <= i < Min(|labels|, |scores|) && labels[i] == k
  {
    var n := Min(|labels|, |scores|);
    if n == 0 then map[]
    else
      var d := ZipDict(labels[..n - 1], scores[..n - 1]);
      assert Min(|labels[..n - 1]|, |scores[..n - 1]|) == n - 1;
      assert forall i :: 0 <= i < n - 1 ==> labels[..n - 1][i] == labels[i];
      d[labels[n - 1] := scores[n - 1]]
  }

  /** `classify_intent`: the top label and its score; on an exception (including the
      `IndexError` of an empty result) the neutral default. */
  function ClassifyIntent(run: IntentRun): (r: IntentResult)
    ensures (run.IntentRaised? || run.labels == [] || run.scores == []) ==>
      r == IntentResult("general question", 0.5, map[])
    ensures (run.IntentLabels? && run.labels != [] && run.scores != []) ==>
      r.intent == run.labels[0] && r.confidence == run.scores[0] && r.intent in r.allScores
  {
    match run
    case IntentRaised => IntentResult("general question", 0.5, map[])
    case IntentLabels(labels, scores) =>
      if labels == [] || scores == [] then IntentResult("general question", 0.5, map[])
      else IntentResult(labels[0], scores[0], ZipDict(labels, scores))
  }

  /** `analyze_sentiment`: the first result's label and score, or `NEUTRAL` at 0.5 when
      the pipeline raised or returned nothing. */
  function AnalyzeSentiment(run: SentimentRun): (r: SentimentResult)
    ensures (run.SentimentRaised? || run.results == []) ==> r == SentimentResult("NEUTRAL", 0.5)
    ensures (run.SentimentLabels? && run.results != []) ==>
      r.sentiment == run.results[0].name && r.confidence == run.results[0].score
  {
    match run
    case SentimentRaised => SentimentResult("NEUTRAL", 0.5)
    case SentimentLabels(results) =>
      if results == [] then SentimentResult("NEUTRAL", 0.5)
      else SentimentResult(results[0].name, results[0].score)
  }

  /** The separators `strip(', ')` removes from both ends. */
  const Separators: set<char> := {',', ' '}

  /** The descriptive text embedded for a catalogue entry: `"{intent}, {keyword}, {category}"`
      with the characters ',' and ' ' stripped from both ends. */
  function Descriptor(e: CannedResponse): (d: string)
    ensures d == [] || (d[0] !in Separators && d[|d| - 1] !in Separators)
  {
    StripCharsProperties(e.intent + ", " + e.keyword + ", " + e.category, Separators);
    StripChars(e.intent + ", " + e.keyword + ", " + e.category, Separators)
  }

  /** An entry whose three fields are empty (or missing, which `.get(..., '')` reads as
      empty) is described by the empty string. */
  lemma DescriptorOfEmptyEntry(e: CannedResponse)
    requires e.intent == "" && e.keyword == "" && e.category == ""
    ensures Descriptor(e) == ""
  {
    var combined := e.intent + ", " + e.keyword + ", " + e.category;
    assert combined == ", , ";
    assert forall i :: 0 <= i < |combined| ==> combined[i] in Separators;
    StripCharsProperties(combined, Separators);
  }

  /** When the intent does not start and the category does not end with a separator,
      the strip removes nothing: the descriptor is the plain join. */
  lemma DescriptorOfCleanEntry(e: CannedResponse)
    requires e.intent != "" && e.intent[0] !in Separators
    requires e.category != "" && e.category[|e.category| - 1] !in Separators
    ensures Descriptor(e) == e.intent + ", " + e.keyword + ", " + e.category
  {
    var combined := e.intent + ", " + e.keyword + ", " + e.category;
    assert combined[0] == e.intent[0];
    assert combined[|combined| - 1] == e.category[|e.category| - 1];
    StripCharsProperties(combined, Separators);
  }

  /** `check_toxicity`: the word list is commented out, so nothing is ever toxic. */
  function CheckToxicity(text: string): (r: (bool, Option<string>))
    ensures !r.0 && r.1 == None
  {
    (false, None)
  }

  /** The models object; its state is the canned-response index. */
  class MLModels {
    /** `canned_responses`: the catalogue the index was built from. */
    var cannedResponses: seq<CannedResponse>
    /** The descriptors whose embeddings form `canned_intent_embeddings`. */
    var intentTexts: seq<string>
    /** `canned_intent_embeddings is not None`. */
    var indexed: bool

    ghost predicate Valid()
      reads this
    {
      |intentTexts| == |cannedResponses|
    }

    constructor ()
      ensures Valid() && !indexed && cannedResponses == [] && intentTexts == []
    {
      cannedResponses := [];
      intentTexts := [];
      indexed := false;
    }

    /** `build_canned_response_index`: one descriptor per entry, in catalogue order,
        replacing any earlier index. The index exists afterwards even for an empty catalogue. */
    method BuildCannedResponseIndex(responses: seq<CannedResponse>)
      modifies this
      ensures Valid() && indexed && cannedResponses == responses
      ensures |intentTexts| == |responses|
      ensures forall k :: 0 <= k < |responses| ==> intentTexts[k] == Descriptor(responses[k])
    {
      var texts: seq<string> := [];
      for i := 0 to |responses|
        invariant |texts| == i
        invariant forall k :: 0 <= k < i ==> texts[k] == Descriptor(responses[k])
      {
        var combined := Descriptor(responses[i]);
        texts := texts + [combined];
      }
      cannedResponses, intentTexts, indexed := responses, texts, true;
    }

    /** `find_similar_response` given `scores`, the cosine similarity of the query against
        each indexed descriptor (or that embedding the query raised). Without an index it
        reports no match; with an index it returns an entry of maximal score, and an empty
        index raises (`cosine_similarity` and `results[0]` both fail on no rows). */
    method FindSimilarResponse(scores: Outcome<seq<real>>) returns (r: Outcome<Match>)
      requires Valid()
      requires indexed && scores.Ok? ==> |scores.value| == |cannedResponses|
      ensures !indexed ==> r == Ok(NoMatch)
      ensures indexed && (scores.Raised? || cannedResponses == []) ==> r.Raised?
      ensures indexed && scores.Ok? && cannedResponses != [] ==>
        r.Ok? && r.value.Best? &&
        (exists k :: 0 <= k < |cannedResponses| &&
           r.value.entry == cannedResponses[k] && r.value.score == scores.value[k]) &&
        (forall j :: 0 <= j < |scores.value| ==> scores.value[j] <= r.value.score)
    {
      if !indexed {
        return Ok(NoMatch);
      }
      if scores.Raised? {
        return Raised(scores.error);
      }
      var sims := scores.value;
      if |sims| == 0 {
        return Raised("index 0 is out of bounds");
      }
      // The first element of the reversed ascending argsort: a position of maximal score.
      var best := 0;
      for i := 1 to |sims|
        invariant 0 <= best < i
        invariant forall j :: 0 <= j < i ==> sims[j] <= sims[best]
      {
        if sims[i] >= sims[best] {
          best := i;
        }
      }
      r := Ok(Best(cannedResponses[best], sims[best]));
    }
  }
}
