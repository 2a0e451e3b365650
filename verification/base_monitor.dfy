/** The platform-independent processing loop (src/services/monitors/base_monitor.py).
    A concrete monitor contributes its name, its keywords and three hooks (search one
    keyword, recognise its own posts, post a reply); the decision engine contributes the
    extractor signals for each text; the operator contributes the answers at the
    interactive prompt. The loop is `BaseMonitor.ProcessMentions`, specified by the pure
    fold `RunKeywords`, about which the loop's promises are proved. */
module Monitors {
  import opened Wrappers
  import opened Models
  import opened MachineLearning
  import opened ResponseGeneration

  /** A mention dictionary as the platform monitors build it. */
  datatype Mention = Mention(id: string, author: string, content: string, url: string, parentId: Option<string>)

  /** What calling `post_reply` amounted to: True, False, or an exception. */
  datatype PostOutcome = Posted | NotPosted | PostRaised(error: string)

  /** The operator at the prompt: any answer but `y` or `skip` keeps the text, `y` is
      followed by the replacement text; either `input` call may raise. */
  datatype UserChoice = Keep | Edit(text: string) | Skip | InputFailed(error: string)

  /** `get_monitor_keywords` of the Mastodon and YouTube monitors: the platform's own keyword
      list when the configuration defines one, the general keywords otherwise. */
  function GetMonitorKeywords(platformKeywords: Option<seq<string>>, monitorKeywords: seq<string>): (r: seq<string>)
    ensures platformKeywords.Some? ==> r == platformKeywords.value
    ensures platformKeywords.None? ==> r == monitorKeywords
  {
    if platformKeywords.Some? then platformKeywords.value else monitorKeywords
  }

  /** The hooks a concrete monitor overrides. */
  datatype Platform = Platform(
    name: string,
    keywords: seq<string>,
    search: string -> Outcome<seq<Mention>>,
    isOwnPost: Mention -> bool,
    postReply: (string, string) -> PostOutcome)

  /** The response generator's collaborators for each text, and the interactive setting. */
  datatype Responder = Responder(
    signals: string -> Signals,
    interactive: bool,
    operator: Mention -> UserChoice)

  /** A reply that was handed to `post_reply`: the mention's ledger key, the id it was sent
      to, and the text. */
  datatype Reply = Reply(key: string, target: string, text: string)

  /** The state of one run of the loop: the ledger rows, `processed_count`, and the trace of
      mentions that reached `generate_response`, replies attempted and keywords searched. */
  datatype Progress = Progress(
    rows: seq<ProcessedPost>,
    count: nat,
    generated: seq<Mention>,
    replies: seq<Reply>,
    searched: seq<string>)

  function Start(rows: seq<ProcessedPost>): Progress {
    Progress(rows, 0, [], [], [])
  }

  /** `_is_own_post` of the base class: nothing is the bot's own post. */
  function DefaultIsOwnPost(m: Mention): (r: bool)
    ensures !r
  {
    false
  }

  /** The ledger key `f"{platform_name}_{id}"`. */
  function LedgerKey(platformName: string, id: string): (k: string)
    ensures |k| == |platformName| + 1 + |id|
    ensures k[..|platformName|] == platformName && k[|platformName|] == '_' && k[|platformName| + 1..] == id
  {
    platformName + "_" + id
  }

  /** On one platform, distinct mention ids never share a ledger key. */
  lemma LedgerKeyInjective(platformName: string, a: string, b: string)
    requires LedgerKey(platformName, a) == LedgerKey(platformName, b)
    ensures a == b
  {
    var k := LedgerKey(platformName, a);
    assert a == k[|platformName| + 1..];
  }

  /** The row `mark_processed` writes for a mention. */
  function Record(platformName: string, m: Mention, d: Decision, response: string, responseType: string): ProcessedPost {
    ProcessedPost(LedgerKey(platformName, m.id), platformName, m.content, m.author,
                  d.intent, d.sentiment, d.confidence, response, responseType, d.similarityScore)
  }

  /** Posting the reply `text` and recording the outcome: a reply that went through is
      recorded with the decision's type and counted, one that raised is recorded as
      'failed', one that was refused leaves the ledger alone. */
  function Respond(pl: Platform, m: Mention, d: Decision, text: string, p: Progress): Progress
  {
    var q := p.(replies := p.replies + [Reply(LedgerKey(pl.name, m.id), m.id, text)]);
    match pl.postReply(m.id, text)
    case Posted => q.(rows := q.rows + [Record(pl.name, m, d, text, d.kind.Name())], count := q.count + 1)
    case NotPosted => q
    case PostRaised(e) => q.(rows := q.rows + [Record(pl.name, m, d, "FAILED: " + e, "failed")])
  }

  /** Whether the reply goes out: outside interactive mode always, in it when the operator
      keeps or edits the generated text. */
  predicate Sends(rs: Responder, m: Mention) {
    !rs.interactive || rs.operator(m).Keep? || rs.operator(m).Edit?
  }

  /** The text handed to `post_reply`: the operator's edit, or else the decision's text. */
  function SentText(rs: Responder, m: Mention, d: Decision): string {
    if rs.interactive && rs.operator(m).Edit? then rs.operator(m).text else d.text
  }

  /** One pass of the inner loop body. The flag is true when an exception escaped to the
      keyword's handler, abandoning the rest of that keyword's mentions. */
  function MentionStep(pl: Platform, rs: Responder, m: Mention, p: Progress): (Progress, bool)
  {
    if HasPostId(p.rows, LedgerKey(pl.name, m.id)) || pl.isOwnPost(m) then (p, false)
    else
      var p1 := p.(generated := p.generated + [m]);
      match GenerateResponse(m.content, rs.signals(m.content))
      case Raised(_) => (p1, true)
      case Ok(d) =>
        match if rs.interactive then rs.operator(m) else Keep
        case Skip => (p1, false)
        case InputFailed(e) => (p1.(rows := p1.rows + [Record(pl.name, m, d, "FAILED: " + e, "failed")]), false)
        case Keep => (Respond(pl, m, d, d.text, p1), false)
        case Edit(text) => (Respond(pl, m, d, text, p1), false)
  }

  /** The mentions of one keyword, in order, until one abandons the keyword. */
  function RunMentions(pl: Platform, rs: Responder, ms: seq<Mention>, p: Progress): (Progress, bool)
  {
    if ms == [] then (p, false)
    else
      var prev := RunMentions(pl, rs, ms[..|ms| - 1], p);
      if prev.1 then prev else MentionStep(pl, rs, ms[|ms| - 1], prev.0)
  }

  /** One keyword: search it, then run its mentions; a failed search processes nothing. */
  function KeywordStep(pl: Platform, rs: Responder, keyword: string, p: Progress): Progress
  {
    var q := p.(searched := p.searched + [keyword]);
    match pl.search(keyword)
    case Raised(_) => q
    case Ok(ms) => RunMentions(pl, rs, ms, q).0
  }

  /** The outer loop over the keywords, in order. */
  function RunKeywords(pl: Platform, rs: Responder, keywords: seq<string>, p: Progress): Progress
  {
    if keywords == [] then p
    else KeywordStep(pl, rs, keywords[|keywords| - 1], RunKeywords(pl, rs, keywords[..|keywords| - 1], p))
  }

  // ---------------------------------------------------------------------------
  // What a run keeps true, relative to the state `p0` it started from

  /** Earlier rows are kept and the new rows never repeat a ledger key. */
  ghost predicate LedgerGrows(p0: Progress, p: Progress) {
    p0.rows <= p.rows && (UniquePostIds(p0.rows) ==> UniquePostIds(p.rows))
  }

  /** `processed_count` counts exactly the new rows that are not 'failed' records. */
  ghost predicate CountsPosted(p0: Progress, p: Progress)
    requires p0.rows <= p.rows
  {
    p.count == p0.count + (|p.rows| - |p0.rows|) - CountType(p.rows[|p0.rows|..], "failed")
  }

  /** Every mention that reached the generator was neither recorded when the run started
      nor the bot's own post. */
  ghost predicate GeneratesOnlyFresh(pl: Platform, p0: Progress, p: Progress) {
    p0.generated <= p.generated &&
    forall i :: |p0.generated| <= i < |p.generated| ==>
      !pl.isOwnPost(p.generated[i]) && !HasPostId(p0.rows, LedgerKey(pl.name, p.generated[i].id))
  }

  /** Every reply went to a mention's own id, whose ledger key was not recorded when the
      run started. */
  ghost predicate RepliesOnlyFresh(pl: Platform, p0: Progress, p: Progress) {
    p0.replies <= p.replies &&
    forall i :: |p0.replies| <= i < |p.replies| ==>
      p.replies[i].key == LedgerKey(pl.name, p.replies[i].target) && !HasPostId(p0.rows, p.replies[i].key)
  }

  ghost predicate RunInvariant(pl: Platform, p0: Progress, p: Progress) {
    LedgerGrows(p0, p) && CountsPosted(p0, p) &&
    GeneratesOnlyFresh(pl, p0, p) && RepliesOnlyFresh(pl, p0, p)
  }

  lemma RunInvariantHoldsInitially(pl: Platform, p0: Progress)
    ensures RunInvariant(pl, p0, p0)
  {
    assert p0.rows[|p0.rows|..] == [];
  }

  lemma HasPostIdGrows(a: seq<ProcessedPost>, b: seq<ProcessedPost>, key: string)
    requires a <= b && HasPostId(a, key)
    ensures HasPostId(b, key)
  {
    var i :| 0 <= i < |a| && a[i].postId == key;
    assert b[i] == a[i];
  }

  /** Appending a row under a key that is not yet present keeps the keys unique. */
  lemma AppendFreshKeepsUnique(rows: seq<ProcessedPost>, row: ProcessedPost)
    requires UniquePostIds(rows) && !HasPostId(rows, row.postId)
    ensures UniquePostIds(rows + [row])
  {
    var r := rows + [row];
    forall i, j | 0 <= i < j < |r| ensures r[i].postId != r[j].postId {
      if j == |rows| {
        assert r[i] == rows[i];
      } else {
        assert r[i] == rows[i] && r[j] == rows[j];
      }
    }
  }

  /** Appending one row to the ledger keeps the invariant, counting it when it is not a
      'failed' record. */
  lemma AppendRowKeeps(pl: Platform, p0: Progress, p: Progress, row: ProcessedPost, posted: bool)
    requires RunInvariant(pl, p0, p)
    requires !HasPostId(p.rows, row.postId)
    requires posted <==> row.responseType != "failed"
    ensures var q := p.(rows := p.rows + [row], count := p.count + (if posted then 1 else 0));
      LedgerGrows(p0, q) && CountsPosted(p0, q)
  {
    var q := p.(rows := p.rows + [row], count := p.count + (if posted then 1 else 0));
    if UniquePostIds(p0.rows) {
      AppendFreshKeepsUnique(p.rows, row);
    }
    var k := |p0.rows|;
    assert q.rows[k..] == p.rows[k..] + [row];
    CountTypeAppend(p.rows[k..], row, "failed");
  }

  /** A response type the engine produces is never 'failed'. */
  lemma DecisionTypeIsNotFailed(kind: ResponseType)
    ensures kind.Name() != "failed"
  {
  }

  lemma RespondKeeps(pl: Platform, m: Mention, d: Decision, text: string, p0: Progress, p: Progress)
    requires RunInvariant(pl, p0, p)
    requires !HasPostId(p.rows, LedgerKey(pl.name, m.id)) && !HasPostId(p0.rows, LedgerKey(pl.name, m.id))
    ensures RunInvariant(pl, p0, Respond(pl, m, d, text, p))
    ensures Respond(pl, m, d, text, p).searched == p.searched
  {
    var q := p.(replies := p.replies + [Reply(LedgerKey(pl.name, m.id), m.id, text)]);
    assert RunInvariant(pl, p0, q);
    match pl.postReply(m.id, text)
    case Posted =>
      DecisionTypeIsNotFailed(d.kind);
      AppendRowKeeps(pl, p0, q, Record(pl.name, m, d, text, d.kind.Name()), true);
    case NotPosted =>
    case PostRaised(e) =>
      AppendRowKeeps(pl, p0, q, Record(pl.name, m, d, "FAILED: " + e, "failed"), false);
  }

  lemma MentionStepKeeps(pl: Platform, rs: Responder, m: Mention, p0: Progress, p: Progress)
    requires RunInvariant(pl, p0, p)
    ensures RunInvariant(pl, p0, MentionStep(pl, rs, m, p).0)
    ensures MentionStep(pl, rs, m, p).0.searched == p.searched
  {
    var key := LedgerKey(pl.name, m.id);
    if !(HasPostId(p.rows, key) || pl.isOwnPost(m)) {
      if HasPostId(p0.rows, key) {
        HasPostIdGrows(p0.rows, p.rows, key);
      }
      var p1 := p.(generated := p.generated + [m]);
      assert RunInvariant(pl, p0, p1);
      var g := GenerateResponse(m.content, rs.signals(m.content));
      if g.Ok? {
        var d := g.value;
        match if rs.interactive then rs.operator(m) else Keep
        case Skip =>
        case InputFailed(e) =>
          AppendRowKeeps(pl, p0, p1, Record(pl.name, m, d, "FAILED: " + e, "failed"), false);
        case Keep => RespondKeeps(pl, m, d, d.text, p0, p1);
        case Edit(text) => RespondKeeps(pl, m, d, text, p0, p1);
      }
    }
  }

  lemma {:induction false} RunMentionsKeeps(pl: Platform, rs: Responder, ms: seq<Mention>, p0: Progress, p: Progress)
    requires RunInvariant(pl, p0, p)
    ensures RunInvariant(pl, p0, RunMentions(pl, rs, ms, p).0)
    ensures RunMentions(pl, rs, ms, p).0.searched == p.searched
  {
    if ms != [] {
      RunMentionsKeeps(pl, rs, ms[..|ms| - 1], p0, p);
      var prev := RunMentions(pl, rs, ms[..|ms| - 1], p);
      if !prev.1 {
        MentionStepKeeps(pl, rs, ms[|ms| - 1], p0, prev.0);
      }
    }
  }

  lemma KeywordStepKeeps(pl: Platform, rs: Responder, keyword: string, p0: Progress, p: Progress)
    requires RunInvariant(pl, p0, p)
    ensures RunInvariant(pl, p0, KeywordStep(pl, rs, keyword, p))
    ensures KeywordStep(pl, rs, keyword, p).searched == p.searched + [keyword]
  {
    var q := p.(searched := p.searched + [keyword]);
    assert RunInvariant(pl, p0, q);
    if pl.search(keyword).Ok? {
      RunMentionsKeeps(pl, rs, pl.search(keyword).value, p0, q);
    }
  }

  /** A run over `keywords` keeps the invariant and searches every keyword, one at a time and
      in order, whatever was raised on the way. */
  lemma {:induction false} RunKeywordsKeeps(pl: Platform, rs: Responder, keywords: seq<string>, p0: Progress, p: Progress)
    requires RunInvariant(pl, p0, p)
    ensures RunInvariant(pl, p0, RunKeywords(pl, rs, keywords, p))
    ensures RunKeywords(pl, rs, keywords, p).searched == p.searched + keywords
  {
    if keywords == [] {
      assert p.searched + [] == p.searched;
    } else {
      var init := keywords[..|keywords| - 1];
      var k := keywords[|keywords| - 1];
      RunKeywordsKeeps(pl, rs, init, p0, p);
      KeywordStepKeeps(pl, rs, k, p0, RunKeywords(pl, rs, init, p));
      assert init + [k] == keywords;
      assert (p.searched + init) + [k] == p.searched + keywords;
    }
  }

  /** What `process_mentions` promises, for a run started on the ledger `rows`: rows are only
      appended and stay unique; the returned count is the number of new rows that are not
      'failed'; no mention recorded beforehand, and no post of the bot's own, reaches the
      generator or `post_reply`; replies go to the mention's own id; and every keyword is
      searched, in order. */
  lemma ProcessMentionsPromises(pl: Platform, rs: Responder, rows: seq<ProcessedPost>)
    requires UniquePostIds(rows)
    ensures var p := RunKeywords(pl, rs, pl.keywords, Start(rows));
      rows <= p.rows && UniquePostIds(p.rows) &&
      p.count == |p.rows| - |rows| - CountType(p.rows[|rows|..], "failed") &&
      p.searched == pl.keywords &&
      (forall i :: 0 <= i < |p.generated| ==>
         !pl.isOwnPost(p.generated[i]) && !HasPostId(rows, LedgerKey(pl.name, p.generated[i].id))) &&
      (forall i :: 0 <= i < |p.replies| ==>
         p.replies[i].key == LedgerKey(pl.name, p.replies[i].target) && !HasPostId(rows, p.replies[i].key))
  {
    RunInvariantHoldsInitially(pl, Start(rows));
    RunKeywordsKeeps(pl, rs, pl.keywords, Start(rows), Start(rows));
    assert [] + pl.keywords == pl.keywords;
  }

  // ---------------------------------------------------------------------------
  // Platforms whose replies never go through

  /** `post_reply` always answers False and the prompt (if any) never raises. */
  ghost predicate NeverRecords(pl: Platform, rs: Responder) {
    (forall id, text :: pl.postReply(id, text) == NotPosted) &&
    (rs.interactive ==> forall m :: !rs.operator(m).InputFailed?)
  }

  lemma MentionStepRecordsNothing(pl: Platform, rs: Responder, m: Mention, p: Progress)
    requires NeverRecords(pl, rs)
    ensures MentionStep(pl, rs, m, p).0.rows == p.rows
    ensures MentionStep(pl, rs, m, p).0.count == p.count
  {
    if rs.interactive {
      assert !rs.operator(m).InputFailed?;
    }
    var g := GenerateResponse(m.content, rs.signals(m.content));
    if g.Ok? {
      var d := g.value;
      assert pl.postReply(m.id, d.text) == NotPosted;
      if rs.interactive && rs.operator(m).Edit? {
        assert pl.postReply(m.id, rs.operator(m).text) == NotPosted;
      }
    }
  }

  lemma {:induction false} RunMentionsRecordsNothing(pl: Platform, rs: Responder, ms: seq<Mention>, p: Progress)
    requires NeverRecords(pl, rs)
    ensures RunMentions(pl, rs, ms, p).0.rows == p.rows
    ensures RunMentions(pl, rs, ms, p).0.count == p.count
  {
    if ms != [] {
      RunMentionsRecordsNothing(pl, rs, ms[..|ms| - 1], p);
      var prev := RunMentions(pl, rs, ms[..|ms| - 1], p);
      if !prev.1 {
        MentionStepRecordsNothing(pl, rs, ms[|ms| - 1], prev.0);
      }
    }
  }

  /** When replies never go through, a run writes nothing to the ledger and reports zero, so
      every mention is offered again on the next poll. */
  lemma {:induction false} RunKeywordsRecordsNothing(pl: Platform, rs: Responder, keywords: seq<string>, p: Progress)
    requires NeverRecords(pl, rs)
    ensures RunKeywords(pl, rs, keywords, p).rows == p.rows
    ensures RunKeywords(pl, rs, keywords, p).count == p.count
  {
    if keywords != [] {
      var init := keywords[..|keywords| - 1];
      RunKeywordsRecordsNothing(pl, rs, init, p);
      var q0 := RunKeywords(pl, rs, init, p);
      var k := keywords[|keywords| - 1];
      if pl.search(k).Ok? {
        RunMentionsRecordsNothing(pl, rs, pl.search(k).value, q0.(searched := q0.searched + [k]));
      }
    }
  }

  // ---------------------------------------------------------------------------
  // The one-mention outcomes

  /** A mention already in the ledger, or flagged as the bot's own, changes nothing. */
  lemma SkippedMentionChangesNothing(pl: Platform, rs: Responder, m: Mention, p: Progress)
    requires HasPostId(p.rows, LedgerKey(pl.name, m.id)) || pl.isOwnPost(m)
    ensures MentionStep(pl, rs, m, p) == (p, false)
  {
  }

  /** A reply that went through writes one record with the sent text and the decision's
      type, and adds one to the count. */
  lemma PostedMentionIsRecorded(pl: Platform, rs: Responder, m: Mention, p: Progress)
    requires !HasPostId(p.rows, LedgerKey(pl.name, m.id)) && !pl.isOwnPost(m)
    requires GenerateResponse(m.content, rs.signals(m.content)).Ok?
    requires Sends(rs, m)
    requires pl.postReply(m.id, SentText(rs, m, GenerateResponse(m.content, rs.signals(m.content)).value)) == Posted
    ensures var d := GenerateResponse(m.content, rs.signals(m.content)).value;
      var r := MentionStep(pl, rs, m, p).0;
      r.rows == p.rows + [Record(pl.name, m, d, SentText(rs, m, d), d.kind.Name())] &&
      r.replies == p.replies + [Reply(LedgerKey(pl.name, m.id), m.id, SentText(rs, m, d))] &&
      r.count == p.count + 1 && r.rows[|p.rows|].postId == LedgerKey(pl.name, m.id) &&
      r.rows[|p.rows|].responseType in {"canned", "ai", "fallback", "safe_fallback"}
  {
  }

  /** A reply that did not go through writes nothing: the mention stays unprocessed. */
  lemma UnpostedMentionStaysUnprocessed(pl: Platform, rs: Responder, m: Mention, p: Progress)
    requires !HasPostId(p.rows, LedgerKey(pl.name, m.id)) && !pl.isOwnPost(m)
    requires GenerateResponse(m.content, rs.signals(m.content)).Ok?
    requires Sends(rs, m)
    requires pl.postReply(m.id, SentText(rs, m, GenerateResponse(m.content, rs.signals(m.content)).value)) == NotPosted
    ensures MentionStep(pl, rs, m, p).0.rows == p.rows
    ensures MentionStep(pl, rs, m, p).0.count == p.count
    ensures !HasPostId(MentionStep(pl, rs, m, p).0.rows, LedgerKey(pl.name, m.id))
  {
  }

  /** A post that raised writes a 'failed' record carrying the error, without counting it. */
  lemma RaisingPostIsRecordedAsFailed(pl: Platform, rs: Responder, m: Mention, p: Progress, e: string)
    requires !HasPostId(p.rows, LedgerKey(pl.name, m.id)) && !pl.isOwnPost(m)
    requires GenerateResponse(m.content, rs.signals(m.content)).Ok?
    requires Sends(rs, m)
    requires pl.postReply(m.id, SentText(rs, m, GenerateResponse(m.content, rs.signals(m.content)).value)) == PostRaised(e)
    ensures var r := MentionStep(pl, rs, m, p).0;
      |r.rows| == |p.rows| + 1 && r.rows[..|p.rows|] == p.rows &&
      r.rows[|p.rows|].responseType == "failed" && r.rows[|p.rows|].responseSent == "FAILED: " + e &&
      r.count == p.count
  {
  }

  /** The operator's `skip` writes nothing and posts nothing. */
  lemma SkippedByOperatorChangesNoLedger(pl: Platform, rs: Responder, m: Mention, p: Progress)
    requires !HasPostId(p.rows, LedgerKey(pl.name, m.id)) && !pl.isOwnPost(m)
    requires GenerateResponse(m.content, rs.signals(m.content)).Ok?
    requires rs.interactive && rs.operator(m) == Skip
    ensures MentionStep(pl, rs, m, p).0.rows == p.rows
    ensures MentionStep(pl, rs, m, p).0.replies == p.replies
    ensures MentionStep(pl, rs, m, p).0.count == p.count
  {
  }

  /** An exception from the generator abandons the keyword before anything is posted. */
  lemma GenerationFailureAbandonsKeyword(pl: Platform, rs: Responder, m: Mention, p: Progress)
    requires !HasPostId(p.rows, LedgerKey(pl.name, m.id)) && !pl.isOwnPost(m)
    requires GenerateResponse(m.content, rs.signals(m.content)).Raised?
    ensures MentionStep(pl, rs, m, p).1
    ensures MentionStep(pl, rs, m, p).0.rows == p.rows
    ensures MentionStep(pl, rs, m, p).0.replies == p.replies
  {
  }

  /** Once a keyword is abandoned, its remaining mentions are not looked at. */
  lemma {:induction false} AbandonedKeywordStops(pl: Platform, rs: Responder, ms: seq<Mention>, rest: seq<Mention>, p: Progress)
    requires RunMentions(pl, rs, ms, p).1
    ensures RunMentions(pl, rs, ms + rest, p) == RunMentions(pl, rs, ms, p)
    decreases |rest|
  {
    if rest != [] {
      var all := ms + rest;
      AbandonedKeywordStops(pl, rs, ms, rest[..|rest| - 1], p);
      assert all[..|all| - 1] == ms + rest[..|rest| - 1];
    } else {
      assert ms + [] == ms;
    }
  }

  lemma RunMentionsStep(pl: Platform, rs: Responder, ms: seq<Mention>, j: nat, p: Progress)
    requires j < |ms|
    ensures var prev := RunMentions(pl, rs, ms[..j], p);
      RunMentions(pl, rs, ms[..j + 1], p) == if prev.1 then prev else MentionStep(pl, rs, ms[j], prev.0)
  {
    assert ms[..j + 1][..j] == ms[..j];
  }

  /** The next mention of a keyword not yet abandoned is run by `MentionStep`; if that
      abandons the keyword, the rest of its mentions change nothing. */
  lemma RunMentionsNext(pl: Platform, rs: Responder, ms: seq<Mention>, j: nat, q: Progress, r: Progress)
    requires j < |ms| && RunMentions(pl, rs, ms[..j], q) == (r, false)
    ensures RunMentions(pl, rs, ms[..j + 1], q) == MentionStep(pl, rs, ms[j], r)
    ensures MentionStep(pl, rs, ms[j], r).1 ==> RunMentions(pl, rs, ms, q) == MentionStep(pl, rs, ms[j], r)
  {
    RunMentionsStep(pl, rs, ms, j, q);
    if MentionStep(pl, rs, ms[j], r).1 {
      AbandonedKeywordStops(pl, rs, ms[..j + 1], ms[j + 1..], q);
      assert ms[..j + 1] + ms[j + 1..] == ms;
    }
  }

  lemma RunKeywordsStep(pl: Platform, rs: Responder, keywords: seq<string>, i: nat, p: Progress)
    requires i < |keywords|
    ensures RunKeywords(pl, rs, keywords[..i + 1], p) == KeywordStep(pl, rs, keywords[i], RunKeywords(pl, rs, keywords[..i], p))
  {
    assert keywords[..i + 1][..i] == keywords[..i];
  }

  /** The monitor object: the ledger it shares, its platform hooks and its responder. */
  class BaseMonitor {
    const db: Database
    const platform: Platform
    const responder: Responder

    constructor (db: Database, platform: Platform, responder: Responder)
      ensures this.db == db && this.platform == platform && this.responder == responder
    {
      this.db := db;
      this.platform := platform;
      this.responder := responder;
    }

    /** Posting and recording one reply, as `Respond` describes. */
    method SendReply(m: Mention, d: Decision, text: string, ghost p: Progress) returns (posted: bool)
      requires db.Valid() && db.processed == p.rows && !HasPostId(p.rows, LedgerKey(platform.name, m.id))
      modifies db
      ensures db.Valid() && db.canned == old(db.canned)
      ensures db.processed == Respond(platform, m, d, text, p).rows
      ensures Respond(platform, m, d, text, p).count == p.count + (if posted then 1 else 0)
    {
      var outcome := platform.postReply(m.id, text);
      posted := outcome.Posted?;
      if outcome.Posted? {
        var _ := db.MarkProcessed(Record(platform.name, m, d, text, d.kind.Name()));
      } else if outcome.PostRaised? {
        var _ := db.MarkProcessed(Record(platform.name, m, d, "FAILED: " + outcome.error, "failed"));
      }
    }

    /** The inner loop body for one mention, as `MentionStep` describes. */
    method HandleMention(m: Mention, ghost p: Progress) returns (posted: bool, abandoned: bool)
      requires db.Valid() && db.processed == p.rows
      modifies db
      ensures db.Valid() && db.canned == old(db.canned)
      ensures db.processed == MentionStep(platform, responder, m, p).0.rows
      ensures MentionStep(platform, responder, m, p).0.count == p.count + (if posted then 1 else 0)
      ensures abandoned == MentionStep(platform, responder, m, p).1
    {
      posted, abandoned := false, false;
      var key := LedgerKey(platform.name, m.id);
      if db.IsProcessed(key) || platform.isOwnPost(m) {
        return;
      }
      var generated := GenerateResponse(m.content, responder.signals(m.content));
      if generated.Raised? {
        abandoned := true;
        return;
      }
      var d := generated.value;
      var choice := if responder.interactive then responder.operator(m) else Keep;
      ghost var p1 := p.(generated := p.generated + [m]);
      match choice
      case Skip =>
      case InputFailed(e) =>
        var _ := db.MarkProcessed(Record(platform.name, m, d, "FAILED: " + e, "failed"));
      case Keep =>
        posted := SendReply(m, d, d.text, p1);
      case Edit(text) =>
        posted := SendReply(m, d, text, p1);
    }

    /** One pass of the inner loop: the `j`-th mention of a keyword not yet abandoned. */
    method HandleNext(mentions: seq<Mention>, j: nat, ghost q: Progress, ghost r: Progress)
      returns (posted: bool, abandoned: bool, ghost r': Progress)
      requires j < |mentions| && RunMentions(platform, responder, mentions[..j], q) == (r, false)
      requires db.Valid() && db.processed == r.rows
      modifies db
      ensures db.Valid() && db.canned == old(db.canned)
      ensures RunMentions(platform, responder, mentions[..j + 1], q) == (r', abandoned)
      ensures abandoned ==> RunMentions(platform, responder, mentions, q) == (r', abandoned)
      ensures db.processed == r'.rows && r'.count == r.count + (if posted then 1 else 0)
    {
      RunMentionsNext(platform, responder, mentions, j, q, r);
      posted, abandoned := HandleMention(mentions[j], r);
      r' := MentionStep(platform, responder, mentions[j], r).0;
    }

    /** The body of the outer loop for one keyword, as `KeywordStep` describes: the mentions
        are handled in order until one abandons the keyword. */
    method HandleKeyword(keyword: string, ghost p: Progress) returns (added: nat)
      requires db.Valid() && db.processed == p.rows
      modifies db
      ensures db.Valid() && db.canned == old(db.canned)
      ensures db.processed == KeywordStep(platform, responder, keyword, p).rows
      ensures KeywordStep(platform, responder, keyword, p).count == p.count + added
    {
      added := 0;
      ghost var q := p.(searched := p.searched + [keyword]);
      var found := platform.search(keyword);
      if found.Raised? {
        return;
      }
      var mentions := found.value;
      var j := 0;
      var abandoned := false;
      ghost var r := q;
      while j < |mentions| && !abandoned
        invariant 0 <= j <= |mentions|
        invariant (r, abandoned) == RunMentions(platform, responder, mentions[..j], q)
        invariant abandoned ==> RunMentions(platform, responder, mentions, q) == (r, abandoned)
        invariant db.Valid() && db.canned == old(db.canned)
        invariant db.processed == r.rows && r.count == p.count + added
      {
        var posted;
        posted, abandoned, r := HandleNext(mentions, j, q, r);
        if posted {
          added := added + 1;
        }
        j := j + 1;
      }
      if !abandoned {
        assert mentions[..j] == mentions;
      }
    }

    /** `process_mentions`: the ledger and the returned count are those of the fold
        `RunKeywords`, whose promises `ProcessMentionsPromises` states. */
    method ProcessMentions() returns (count: nat)
      requires db.Valid()
      modifies db
      ensures db.Valid() && db.canned == old(db.canned)
      ensures db.processed == RunKeywords(platform, responder, platform.keywords, Start(old(db.processed))).rows
      ensures count == RunKeywords(platform, responder, platform.keywords, Start(old(db.processed))).count
    {
      count := 0;
      ghost var p0 := Start(db.processed);
      ghost var p := p0;
      var keywords := platform.keywords;
      for i := 0 to |keywords|
        invariant db.Valid() && db.canned == old(db.canned)
        invariant p == RunKeywords(platform, responder, keywords[..i], p0)
        invariant db.processed == p.rows && count == p.count
      {
        RunKeywordsStep(platform, responder, keywords, i, p0);
        var added := HandleKeyword(keywords[i], p);
        count := count + added;
        p := KeywordStep(platform, responder, keywords[i], p);
      }
      assert keywords[..|keywords|] == keywords;
    }
  }
}
