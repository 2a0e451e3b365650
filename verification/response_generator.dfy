/** The response-decision engine (src/services/response_generator.py): choose a canned,
    generated or fallback reply from the extractor signals, sanitise it, and apply the
    toxicity gate. Everything the engine learns from its collaborators for one post is
    bundled in `Signals`; the text generator is a function of the request it receives. */
module ResponseGeneration {
  import opened Wrappers
  import opened Text
  import opened Settings
  import opened Models
  import opened MachineLearning

  const FALLBACK_TEXT: string := "Thanks for reaching out! We'll get back to you soon. \U{1F60A}"
  const SAFE_TEXT: string := "Thank you for your message. We appreciate your feedback!"
  /** The closing sentence `" Feel free to reach out if you have more questions!"`, written
      word group by word group so that facts about its characters are proved piece by piece. */
  const FILLER: string := " Feel free" + " to reach" + " out if" + " you have" + " more" + " questions!"
  const ELLIPSIS: string := "..."
  const LINK: string := "[LINK]"

  /** The four values `generate_response` can put under `'type'`. */
  datatype ResponseType = Canned | Ai | Fallback | SafeFallback {
    function Name(): string {
      match this
      case Canned => "canned"
      case Ai => "ai"
      case Fallback => "fallback"
      case SafeFallback => "safe_fallback"
    }
  }

  /** The dictionary `generate_response` returns. */
  datatype Decision = Decision(
    text: string,
    kind: ResponseType,
    intent: string,
    sentiment: string,
    confidence: real,
    similarityScore: real)

  /** The arguments of `generate_with_context`. */
  datatype GenerationRequest = GenerationRequest(
    postContent: string,
    intent: string,
    sentiment: string,
    cannedExamples: string)

  /** The collaborators' answers for one post: the two classifier runs, the canned-index
      lookup (which may raise), and the generator, which answers `None` on any failure. */
  datatype Signals = Signals(
    intentRun: IntentRun,
    sentimentRun: SentimentRun,
    lookup: Outcome<Match>,
    generator: GenerationRequest -> Option<string>)

  // ---------------------------------------------------------------------------
  // validate_response, one step at a time

  /** `.replace('**', '').replace('*', '')`: every asterisk is gone, nothing else changes. */
  function RemoveMarkdown(s: string): (r: string)
    ensures r == RemoveChar(s, '*')
    ensures '*' !in r
    ensures '*' !in s ==> r == s
  {
    var t := ReplaceAll(s, "**", "");
    ReplaceCharIsRemove(t, '*');
    ReplacePairThenRemove(s, '*');
    ReplaceAll(t, "*", "")
  }

  /** `response[:MAX-3] + '...'` when longer than MAX. */
  function Truncate(s: string): (r: string)
    ensures |s| > MAX_RESPONSE_LENGTH ==>
      |r| == MAX_RESPONSE_LENGTH && r[..MAX_RESPONSE_LENGTH - 3] == s[..MAX_RESPONSE_LENGTH - 3] &&
      r[MAX_RESPONSE_LENGTH - 3..] == ELLIPSIS
    ensures |s| <= MAX_RESPONSE_LENGTH ==> r == s
    ensures '*' !in s ==> '*' !in r
  {
    if |s| > MAX_RESPONSE_LENGTH then
      assert forall c :: c in s[..MAX_RESPONSE_LENGTH - 3] ==> c in s;
      s[..MAX_RESPONSE_LENGTH - 3] + ELLIPSIS
    else s
  }

  /** `f"{response} Feel free ..."` when shorter than MIN. */
  function Pad(s: string): (r: string)
    ensures |r| >= MIN_RESPONSE_LENGTH
    ensures |s| >= MIN_RESPONSE_LENGTH ==> r == s
    ensures |s| < MIN_RESPONSE_LENGTH ==> r == s + FILLER
    ensures '*' !in s ==> '*' !in r
  {
    FillerHasNoStar();
    if |s| < MIN_RESPONSE_LENGTH then s + FILLER else s
  }

  /** The closing sentence holds no asterisk, so padding keeps the text free of them. */
  lemma FillerHasNoStar()
    ensures '*' !in FILLER && |FILLER| == 51
  {
    assert '*' !in " Feel free" && '*' !in " to reach" && '*' !in " out if";
    assert '*' !in " you have" && '*' !in " more" && '*' !in " questions!";
  }

  /** Length of the longest prefix of `s` without whitespace (what `\S+` consumes). */
  function NonSpaceRun(s: string): (n: nat)
    ensures n <= |s|
  {
    if s == [] || IsSpace(s[0]) then 0 else 1 + NonSpaceRun(s[1..])
  }

  /** The run is maximal: no whitespace inside it, and whitespace (or the end) right after it. */
  lemma {:induction false} NonSpaceRunIsMaximal(s: string)
    ensures forall i :: 0 <= i < NonSpaceRun(s) ==> !IsSpace(s[i])
    ensures NonSpaceRun(s) == |s| || IsSpace(s[NonSpaceRun(s)])
  {
    if s != [] && !IsSpace(s[0]) {
      NonSpaceRunIsMaximal(s[1..]);
      assert forall i :: 1 <= i < NonSpaceRun(s) ==> s[i] == s[1..][i - 1];
    }
  }

  /** What `http\S+` matches at position `i`: `http` followed by a non-whitespace character. */
  predicate UrlAt(r: string, i: int) {
    0 <= i && i + 5 <= |r| &&
    r[i] == 'h' && r[i + 1] == 't' && r[i + 2] == 't' && r[i + 3] == 'p' && !IsSpace(r[i + 4])
  }

  /** `re.sub(r'http\S+', '[LINK]', s)`: scanning left to right, each `http` followed by at
      least one non-whitespace character, together with the whole run of non-whitespace
      after it, becomes `[LINK]`. */
  function SubUrls(s: string): string
    decreases |s|
  {
    if UrlAt(s, 0) then
      LINK + SubUrls(s[4 + NonSpaceRun(s[4..])..])
    else if s == [] then []
    else [s[0]] + SubUrls(s[1..])
  }

  /** The URL step: rewritten only when `'[LINK]'` is absent and `'http'` is present. */
  function ScrubLinks(s: string): (r: string)
    ensures Contains(s, LINK) || !Contains(s, "http") ==> r == s
  {
    if !Contains(s, LINK) && Contains(s, "http") then SubUrls(s) else s
  }

  /** The rewrite leaves no URL behind: every `http` left in its result is followed by
      whitespace or ends the text. */
  lemma {:induction false} SubUrlsLeavesNoUrl(s: string)
    ensures forall i :: !UrlAt(SubUrls(s), i)
    decreases |s|
  {
    var r := SubUrls(s);
    if UrlAt(s, 0) {
      var t := s[4 + NonSpaceRun(s[4..])..];
      SubUrlsLeavesNoUrl(t);
      forall i ensures !UrlAt(r, i) {
        if i < 0 {
        } else if i < |LINK| {
          assert r[i] == LINK[i] != 'h';
        } else {
          UrlAtShift(LINK, SubUrls(t), i);
        }
      }
    } else if s != [] {
      SubUrlsLeavesNoUrl(s[1..]);
      forall i ensures !UrlAt(r, i) {
        if i < 0 {
        } else if i == 0 {
          if s[0] == 'h' {
            NoUrlAfterCopiedH(s);
          }
        } else {
          UrlAtShift([s[0]], SubUrls(s[1..]), i);
        }
      }
    }
  }

  /** A URL past a prefix is a URL of the rest, shifted. */
  lemma UrlAtShift(x: string, t: string, i: int)
    requires |x| <= i
    ensures UrlAt(x + t, i) == UrlAt(t, i - |x|)
  {
  }

  /** The first character of a rewritten text is '[' or the text's own first character; a
      text not starting with 'h' has its first character copied. */
  lemma SubUrlsHead(t: string)
    requires t != []
    ensures SubUrls(t) != [] && (SubUrls(t)[0] == '[' || SubUrls(t)[0] == t[0])
    ensures t[0] != 'h' ==> SubUrls(t) == [t[0]] + SubUrls(t[1..])
  {
    if UrlAt(t, 0) {
      assert SubUrls(t)[0] == LINK[0] == '[';
    }
  }

  /** An 'h' that the rewrite copies does not start a URL in the result: either what follows
      is not `ttp`, or the `http` is followed by whitespace or the end. */
  lemma NoUrlAfterCopiedH(s: string)
    requires s != [] && s[0] == 'h' && !UrlAt(s, 0)
    ensures !UrlAt([s[0]] + SubUrls(s[1..]), 0)
  {
    var r := [s[0]] + SubUrls(s[1..]);
    if |s| >= 4 && s[1] == 't' && s[2] == 't' && s[3] == 'p' {
      CopiedPrefix(s, 4);
      if |s| >= 5 {
        SubUrlsHead(s[4..]);
        assert r[4] == SubUrls(s[4..])[0] == s[4];
      }
    } else {
      // `k` is where `s` first leaves "http" (or ends)
      var k := if |s| < 2 || s[1] != 't' then 1 else if |s| < 3 || s[2] != 't' then 2 else 3;
      CopiedPrefix(s, k);
      if k < |s| {
        SubUrlsHead(s[k..]);
        assert r[k] == SubUrls(s[k..])[0];
      }
    }
  }

  /** Characters other than 'h' after the first are copied by the rewrite. */
  lemma CopiedPrefix(s: string, k: nat)
    requires 1 <= k <= |s| && forall i :: 1 <= i < k ==> s[i] != 'h'
    ensures [s[0]] + SubUrls(s[1..]) == s[..k] + SubUrls(s[k..])
  {
    assert 'h' !in s[1..k];
    assert s[1..] == s[1..k] + s[k..];
    SubUrlsCopiesPlainText(s[1..k], s[k..]);
    assert s[..k] == [s[0]] + s[1..k];
  }

  /** When the URL step runs, it leaves no URL in the text. */
  lemma ScrubLinksRemovesUrls(s: string)
    requires !Contains(s, LINK) && Contains(s, "http")
    ensures forall i :: !UrlAt(ScrubLinks(s), i)
  {
    SubUrlsLeavesNoUrl(s);
  }

  /** `validate_response` (its unused `original_post` argument is dropped). */
  function ValidateResponse(response: string): (r: string)
    ensures '*' !in r
    ensures r == [] || (!IsSpace(r[0]) && !IsSpace(r[|r| - 1]))
  {
    var padded := Pad(Truncate(RemoveMarkdown(response)));
    ScrubThenStripIsClean(padded);
    Strip(ScrubLinks(padded))
  }

  /** The last two steps add no asterisk and leave no whitespace at either end. */
  lemma ScrubThenStripIsClean(s: string)
    requires '*' !in s
    ensures var r := Strip(ScrubLinks(s));
      '*' !in r && (r == [] || (!IsSpace(r[0]) && !IsSpace(r[|r| - 1])))
  {
    var scrubbed := ScrubLinks(s);
    assert '*' !in scrubbed by {
      SubUrlsKeepsNoStar(s);
    }
    StripProperties(scrubbed);
  }

  lemma {:induction false} SubUrlsKeepsNoStar(s: string)
    requires '*' !in s
    ensures '*' !in SubUrls(s)
    decreases |s|
  {
    if UrlAt(s, 0) {
      var k := 4 + NonSpaceRun(s[4..]);
      assert forall c :: c in s[k..] ==> c in s;
      SubUrlsKeepsNoStar(s[k..]);
    } else if s != [] {
      assert forall c :: c in s[1..] ==> c in s;
      SubUrlsKeepsNoStar(s[1..]);
    }
  }

  /** After truncation and padding the length lies in [MIN, MAX], and no text is both
      truncated and padded. */
  lemma TruncateThenPadBounds(s: string)
    ensures MIN_RESPONSE_LENGTH <= |Pad(Truncate(s))| <= MAX_RESPONSE_LENGTH
    ensures |s| > MAX_RESPONSE_LENGTH ==> Pad(Truncate(s)) == Truncate(s)
    ensures |s| < MIN_RESPONSE_LENGTH ==> Pad(Truncate(s)) == s + FILLER
  {
  }

  /** Text without asterisks whose length is within bounds reaches the URL step unchanged. */
  lemma UntouchedBeforeLinks(s: string)
    requires '*' !in s && MIN_RESPONSE_LENGTH <= |s| <= MAX_RESPONSE_LENGTH
    ensures Pad(Truncate(RemoveMarkdown(s))) == s
  {
    assert RemoveMarkdown(s) == s;
  }

  /** Text that is already clean (no asterisk, no `http`, trimmed, length within bounds)
      passes through `validate_response` unchanged. */
  lemma {:induction false} ValidateResponseKeepsCleanText(s: string)
    requires '*' !in s && !Contains(s, "http")
    requires s == [] || (!IsSpace(s[0]) && !IsSpace(s[|s| - 1]))
    requires MIN_RESPONSE_LENGTH <= |s| <= MAX_RESPONSE_LENGTH
    ensures ValidateResponse(s) == s
  {
    UntouchedBeforeLinks(s);
    assert ScrubLinks(s) == s;
    StripProperties(s);
  }

  /** Blank text of an acceptable length passes the padding test untouched and is then
      stripped to nothing: the final text can be shorter than MIN (here, empty). */
  lemma ValidateCanReturnEmpty(s: string)
    requires MIN_RESPONSE_LENGTH <= |s| <= MAX_RESPONSE_LENGTH
    requires forall i :: 0 <= i < |s| ==> s[i] == ' '
    ensures ValidateResponse(s) == ""
  {
    assert '*' !in s;
    UntouchedBeforeLinks(s);
    NotContainsWithoutFirstChar(s, "http");
    assert ScrubLinks(s) == s;
    assert forall i :: 0 <= i < |s| ==> IsSpace(s[i]);
    StripProperties(s);
  }

  /** Text without an `h` holds no URL: the rewrite copies it and goes on after it. */
  lemma {:induction false} SubUrlsCopiesPlainText(x: string, t: string)
    requires 'h' !in x
    ensures SubUrls(x + t) == x + SubUrls(t)
  {
    if x != [] {
      var s := x + t;
      assert SubUrls(s) == [x[0]] + SubUrls(x[1..] + t) by {
        assert s[0] == x[0] != 'h';
        SubUrlsHead(s);
        assert s[1..] == x[1..] + t;
      }
      assert SubUrls(x[1..] + t) == x[1..] + SubUrls(t) by {
        assert 'h' !in x[1..] by {
          assert x == [x[0]] + x[1..];
        }
        SubUrlsCopiesPlainText(x[1..], t);
      }
      assert [x[0]] + (x[1..] + SubUrls(t)) == x + SubUrls(t) by {
        assert x == [x[0]] + x[1..];
      }
    } else {
      assert x + t == t;
    }
  }

  /** The shortest URL the pattern accepts, `httpa`, becomes the longer `[LINK]`. */
  lemma SubUrlsOfShortUrl()
    ensures SubUrls("httpa") == LINK
  {
    var s := "httpa";
    assert UrlAt(s, 0) by { assert !IsSpace('a'); }
    assert s[4..][1..] == [];
    assert NonSpaceRun(s[4..]) == 1;
    assert s[5..] == [];
    assert SubUrls([]) == [];
  }

  /** Plain text followed by `httpa` is rewritten: it holds `http` and no `[LINK]`. */
  lemma ScrubUrlAfterPlainText(x: string)
    requires 'h' !in x && '[' !in x
    ensures ScrubLinks(x + "httpa") == x + LINK
  {
    var s := x + "httpa";
    assert !Contains(s, LINK) by {
      assert '[' !in "httpa";
      assert '[' !in s;
      NotContainsWithoutFirstChar(s, LINK);
    }
    assert Contains(s, "http") by {
      assert "http" <= s[|x|..];
      ContainsAt(s, "http", |x|);
    }
    SubUrlsCopiesPlainText(x, "httpa");
    SubUrlsOfShortUrl();
  }

  /** A text of exactly MAX characters that ends in the URL `httpa` needs neither truncation
      nor padding, but the URL rewrite lengthens it by one: the final text is longer than MAX. */
  lemma ValidateCanExceedMax(x: string)
    requires |x| == MAX_RESPONSE_LENGTH - 5
    requires '*' !in x && 'h' !in x && '[' !in x && !IsSpace(x[0])
    ensures |ValidateResponse(x + "httpa")| == MAX_RESPONSE_LENGTH + 1
  {
    var s := x + "httpa";
    var r := x + LINK;
    assert ValidateResponse(s) == r by {
      assert '*' !in s by {
        assert '*' !in "httpa";
      }
      UntouchedBeforeLinks(s);
      ScrubUrlAfterPlainText(x);
      assert Strip(r) == r by {
        assert r[0] == x[0] && r[|r| - 1] == ']' && !IsSpace(']');
        StripProperties(r);
      }
    }
  }

  // ---------------------------------------------------------------------------
  // generate_response

  /** The toxicity gate: a toxic verdict replaces text and type, whatever the branch was. */
  function ApplyToxicityGate(text: string, kind: ResponseType, verdict: (bool, Option<string>)): (r: (string, ResponseType))
    ensures verdict.0 ==> r == (SAFE_TEXT, SafeFallback)
    ensures !verdict.0 ==> r == (text, kind)
  {
    if verdict.0 then (SAFE_TEXT, SafeFallback) else (text, kind)
  }

  /** What the generator is asked: the match's text as the example, `""` without a match. */
  function RequestFor(postContent: string, intent: string, sentiment: string, m: Match): (q: GenerationRequest)
    ensures q.cannedExamples == (if m.Best? then m.entry.text else "")
    ensures q.postContent == postContent && q.intent == intent && q.sentiment == sentiment
  {
    GenerationRequest(postContent, intent, sentiment, if m.Best? then m.entry.text else "")
  }

  /** `generate_response`. A lookup that raised propagates; otherwise the decision carries the
      classifier results and the lookup's score unchanged, its type is canned at or above the
      threshold and ai or fallback below it, and its text is the validated chosen text. */
  function GenerateResponse(postContent: string, s: Signals): (r: Outcome<Decision>)
    ensures r.Raised? <==> s.lookup.Raised?
    ensures r.Ok? ==>
      var intent := ClassifyIntent(s.intentRun);
      r.value.intent == intent.intent && r.value.confidence == intent.confidence &&
      r.value.sentiment == AnalyzeSentiment(s.sentimentRun).sentiment &&
      r.value.similarityScore == s.lookup.value.Score()
    ensures r.Ok? && s.lookup.value.Score() >= CANNED_RESPONSE_THRESHOLD ==>
      s.lookup.value.Best? && r.value.kind == Canned &&
      r.value.text == ValidateResponse(s.lookup.value.entry.text)
    ensures r.Ok? && s.lookup.value.Score() < CANNED_RESPONSE_THRESHOLD ==>
      var reply := s.generator(RequestFor(postContent, ClassifyIntent(s.intentRun).intent,
                                          AnalyzeSentiment(s.sentimentRun).sentiment, s.lookup.value));
      if reply.Some? && reply.value != "" then
        r.value.kind == Ai && r.value.text == ValidateResponse(reply.value)
      else
        r.value.kind == Fallback && r.value.text == ValidateResponse(FALLBACK_TEXT)
  {
    var intent := ClassifyIntent(s.intentRun);
    var sentiment := AnalyzeSentiment(s.sentimentRun);
    match s.lookup
    case Raised(e) => Raised(e)
    case Ok(m) =>
      var chosen: (string, ResponseType) :=
        if m.Score() >= CANNED_RESPONSE_THRESHOLD then
          assert m.Best?;
          (m.entry.text, Canned)
        else
          var reply := s.generator(RequestFor(postContent, intent.intent, sentiment.sentiment, m));
          if reply.Some? && reply.value != "" then (reply.value, Ai) else (FALLBACK_TEXT, Fallback);
      var text := ValidateResponse(chosen.0);
      var gated := ApplyToxicityGate(text, chosen.1, CheckToxicity(text));
      Ok(Decision(gated.0, gated.1, intent.intent, sentiment.sentiment, intent.confidence, m.Score()))
  }

  /** With `check_toxicity` constant, the safe fallback is never produced. */
  lemma SafeFallbackUnreachable(postContent: string, s: Signals)
    ensures GenerateResponse(postContent, s).Ok? ==> GenerateResponse(postContent, s).value.kind != SafeFallback
  {
  }

  /** A classifier outage still yields a decision, with the neutral intent and confidence 0.5. */
  lemma IntentOutageFailsOpen(postContent: string, s: Signals)
    requires s.intentRun.IntentRaised? && s.lookup.Ok?
    ensures GenerateResponse(postContent, s).Ok?
    ensures GenerateResponse(postContent, s).value.intent == "general question"
    ensures GenerateResponse(postContent, s).value.confidence == 0.5
  {
  }

  /** A catalogue match at or above the threshold whose text is already clean is sent
      verbatim, typed canned, with the match's score. */
  lemma CleanCannedTextSentVerbatim(postContent: string, s: Signals, e: CannedResponse, score: real)
    requires s.lookup == Ok(Best(e, score)) && score >= CANNED_RESPONSE_THRESHOLD
    requires '*' !in e.text && !Contains(e.text, "http")
    requires e.text == [] || (!IsSpace(e.text[0]) && !IsSpace(e.text[|e.text| - 1]))
    requires MIN_RESPONSE_LENGTH <= |e.text| <= MAX_RESPONSE_LENGTH
    ensures GenerateResponse(postContent, s).Ok?
    ensures GenerateResponse(postContent, s).value.text == e.text
    ensures GenerateResponse(postContent, s).value.kind == Canned
    ensures GenerateResponse(postContent, s).value.similarityScore == score
  {
    ValidateResponseKeepsCleanText(e.text);
    CannedMatchIsValidated(postContent, s, e, score);
  }

  /** A catalogue match at or above the threshold is sent as its validated text. */
  lemma CannedMatchIsValidated(postContent: string, s: Signals, e: CannedResponse, score: real)
    requires s.lookup == Ok(Best(e, score)) && score >= CANNED_RESPONSE_THRESHOLD
    ensures var d := GenerateResponse(postContent, s);
      d.Ok? && d.value.kind == Canned && d.value.similarityScore == score &&
      d.value.text == ValidateResponse(e.text)
  {
    assert s.lookup.value.Score() == score;
  }
}
