/** The Reddit monitor (src/services/monitors/reddit_monitor.py). The PRAW client is
    replaced by what it answers: for each searched keyword, the submission search and
    the comment stream of r/all (either may raise), and for each reply the outcome of
    `reply`. */
module Reddit {
  import opened Wrappers
  import opened Text
  import opened Settings
  import opened Monitors

  datatype Submission = Submission(id: string, title: string, selftext: string, author: string, permalink: string)

  datatype Comment = Comment(id: string, body: string, author: string, permalink: string)

  /** What the two listings produced while one keyword was searched. */
  datatype KeywordListing = KeywordListing(submissions: Outcome<seq<Submission>>, comments: Outcome<seq<Comment>>)

  /** The object a reply is sent to. */
  datatype Target = SubmissionTarget(id: string) | CommentTarget(id: string) | UnknownTarget

  /** The monitor's client state: whether `authenticate` succeeded, the configured
      `REDDIT_USERNAME` (unset is `None`), and the answers of the API. */
  datatype Session = Session(
    authenticated: bool,
    username: Option<string>,
    listing: string -> KeywordListing,
    deliver: (Target, string) -> Outcome<()>)

  const NOT_AUTHENTICATED: string := "Reddit not authenticated. Call authenticate() first."

  /** The mention built from a submission. */
  function PostMention(s: Submission): (m: Mention)
    ensures m.id == "post_" + s.id && m.content == s.title + ". " + s.selftext
    ensures m.author == s.author && m.url == "https://reddit.com" + s.permalink
  {
    Mention("post_" + s.id, s.author, s.title + ". " + s.selftext, "https://reddit.com" + s.permalink, None)
  }

  /** The mention built from a comment. */
  function CommentMention(c: Comment): (m: Mention)
    ensures m.id == "comment_" + c.id && m.content == c.body
    ensures m.author == c.author && m.url == "https://reddit.com" + c.permalink
  {
    Mention("comment_" + c.id, c.author, c.body, "https://reddit.com" + c.permalink, None)
  }

  /** Every submission, in listing order. */
  function PostMentions(ss: seq<Submission>): (r: seq<Mention>)
    ensures |r| == |ss|
    ensures forall i :: 0 <= i < |ss| ==> r[i] == PostMention(ss[i])
  {
    if ss == [] then [] else PostMentions(ss[..|ss| - 1]) + [PostMention(ss[|ss| - 1])]
  }

  /** The comments whose body mentions one of `keywords`, ignoring case, in stream order. */
  function MatchingComments(cs: seq<Comment>, keywords: seq<string>): seq<Mention>
  {
    if cs == [] then []
    else
      var c := cs[|cs| - 1];
      MatchingComments(cs[..|cs| - 1], keywords) + (if AnyKeywordIn(keywords, c.body) then [CommentMention(c)] else [])
  }

  /** What one keyword adds: its submissions, then the matching comments; a raising search
      adds nothing, a raising comment stream adds the submissions only. */
  function KeywordMentions(l: KeywordListing, keywords: seq<string>): seq<Mention>
  {
    match l.submissions
    case Raised(_) => []
    case Ok(ss) =>
      PostMentions(ss) + (if l.comments.Ok? then MatchingComments(l.comments.value, keywords) else [])
  }

  /** The mentions collected for the first searched keywords (comments are filtered against
      the whole `keywords` list). */
  function Collect(s: Session, searched: seq<string>, keywords: seq<string>): seq<Mention>
  {
    if searched == [] then []
    else Collect(s, searched[..|searched| - 1], keywords) + KeywordMentions(s.listing(searched[|searched| - 1]), keywords)
  }

  lemma CollectStep(s: Session, searched: seq<string>, i: nat, keywords: seq<string>)
    requires i < |searched|
    ensures Collect(s, searched[..i + 1], keywords) ==
      Collect(s, searched[..i], keywords) + KeywordMentions(s.listing(searched[i]), keywords)
  {
    assert searched[..i + 1][..i] == searched[..i];
  }

  /** The inner loop over a keyword's submissions. */
  method AppendPosts(mentions: seq<Mention>, submissions: seq<Submission>) returns (r: seq<Mention>)
    ensures r == mentions + PostMentions(submissions)
  {
    r := mentions;
    for j := 0 to |submissions|
      invariant r == mentions + PostMentions(submissions[..j])
    {
      assert submissions[..j + 1][..j] == submissions[..j];
      r := r + [PostMention(submissions[j])];
    }
    assert submissions[..|submissions|] == submissions;
  }

  /** The inner loop over the comment stream, skipping comments that mention no keyword. */
  method AppendMatchingComments(mentions: seq<Mention>, comments: seq<Comment>, keywords: seq<string>) returns (r: seq<Mention>)
    ensures r == mentions + MatchingComments(comments, keywords)
  {
    r := mentions;
    for j := 0 to |comments|
      invariant r == mentions + MatchingComments(comments[..j], keywords)
    {
      assert comments[..j + 1][..j] == comments[..j];
      if AnyKeywordIn(keywords, comments[j].body) {
        r := r + [CommentMention(comments[j])];
      }
    }
    assert comments[..|comments|] == comments;
  }

  /** The body of the keyword loop: the submissions, then (when the comment stream did not
      raise) the matching comments; nothing when the submission search raised. */
  method AppendKeywordMentions(mentions: seq<Mention>, listing: KeywordListing, keywords: seq<string>) returns (r: seq<Mention>)
    ensures r == mentions + KeywordMentions(listing, keywords)
  {
    r := mentions;
    if listing.submissions.Ok? {
      r := AppendPosts(r, listing.submissions.value);
      if listing.comments.Ok? {
        r := AppendMatchingComments(r, listing.comments.value, keywords);
        assert r == mentions + (PostMentions(listing.submissions.value) +
                                MatchingComments(listing.comments.value, keywords));
      }
    }
  }

  /** `search_mentions`. */
  method SearchMentions(s: Session, keywords: seq<string>) returns (r: Outcome<seq<Mention>>)
    ensures !s.authenticated ==> r == Raised(NOT_AUTHENTICATED)
    ensures s.authenticated ==> r == Ok(Collect(s, keywords, keywords))
  {
    if !s.authenticated {
      return Raised(NOT_AUTHENTICATED);
    }
    var mentions: seq<Mention> := [];
    for i := 0 to |keywords|
      invariant mentions == Collect(s, keywords[..i], keywords)
    {
      mentions := AppendKeywordMentions(mentions, s.listing(keywords[i]), keywords);
      CollectStep(s, keywords, i, keywords);
    }
    assert keywords[..|keywords|] == keywords;
    return Ok(mentions);
  }

  /** A comment reaches the mentions exactly when some keyword occurs in its body, ignoring
      case; submissions are never filtered. */
  lemma {:induction false} MatchingCommentsFilter(cs: seq<Comment>, keywords: seq<string>)
    ensures forall m :: m in MatchingComments(cs, keywords) ==>
      exists i :: 0 <= i < |cs| && m == CommentMention(cs[i]) && AnyKeywordIn(keywords, cs[i].body)
    ensures forall i :: 0 <= i < |cs| && AnyKeywordIn(keywords, cs[i].body) ==>
      CommentMention(cs[i]) in MatchingComments(cs, keywords)
  {
    if cs != [] {
      var init := cs[..|cs| - 1];
      MatchingCommentsFilter(init, keywords);
      forall m | m in MatchingComments(cs, keywords)
        ensures exists i :: 0 <= i < |cs| && m == CommentMention(cs[i]) && AnyKeywordIn(keywords, cs[i].body)
      {
        if m in MatchingComments(init, keywords) {
          var i :| 0 <= i < |init| && m == CommentMention(init[i]) && AnyKeywordIn(keywords, init[i].body);
          assert cs[i] == init[i];
        }
      }
      forall i | 0 <= i < |cs| && AnyKeywordIn(keywords, cs[i].body)
        ensures CommentMention(cs[i]) in MatchingComments(cs, keywords)
      {
        if i < |cs| - 1 {
          assert init[i] == cs[i];
        }
      }
    }
  }

  /** Every collected mention id carries the `post_` or the `comment_` prefix. */
  lemma {:induction false} CollectedIdsArePrefixed(s: Session, searched: seq<string>, keywords: seq<string>)
    ensures forall m :: m in Collect(s, searched, keywords) ==>
      exists x :: m.id == "post_" + x || m.id == "comment_" + x
  {
    if searched != [] {
      CollectedIdsArePrefixed(s, searched[..|searched| - 1], keywords);
      var l := s.listing(searched[|searched| - 1]);
      if l.submissions.Ok? {
        forall m | m in PostMentions(l.submissions.value) ensures exists x :: m.id == "post_" + x {
          var i :| 0 <= i < |l.submissions.value| && m == PostMentions(l.submissions.value)[i];
          assert m.id == "post_" + l.submissions.value[i].id;
        }
        if l.comments.Ok? {
          MatchingCommentsFilter(l.comments.value, keywords);
          forall m | m in MatchingComments(l.comments.value, keywords) ensures exists x :: m.id == "comment_" + x {
            var i :| 0 <= i < |l.comments.value| && m == CommentMention(l.comments.value[i]);
            assert m.id == "comment_" + l.comments.value[i].id;
          }
        }
      }
    }
  }

  /** `post_id.split('_', 1)[1] if '_' in post_id else post_id`. */
  function NativeId(postId: string): (r: string)
    ensures '_' !in postId ==> r == postId
    ensures '_' in postId ==> |r| < |postId| && r == postId[|postId| - |r|..] && postId[|postId| - |r| - 1] == '_'
    ensures '_' in postId ==> '_' !in postId[..|postId| - |r| - 1]
  {
    if '_' in postId then postId[IndexOf(postId, '_') + 1..] else postId
  }

  /** The native id survives the prefix round trip, even when it contains `_` itself. */
  lemma NativeIdRoundTrip(x: string)
    ensures NativeId("post_" + x) == x
    ensures NativeId("comment_" + x) == x
  {
    var p := "post_" + x;
    assert forall j :: 0 <= j < 4 ==> p[j] != '_';
    assert p[4] == '_' && p[..4] == "post" && p[5..] == x;
    var c := "comment_" + x;
    assert forall j :: 0 <= j < 7 ==> c[j] != '_';
    assert c[7] == '_' && c[..7] == "comment" && c[8..] == x;
  }

  /** The prefix dispatch of `post_reply`. */
  function ReplyTarget(postId: string): (t: Target)
    ensures t.SubmissionTarget? <==> "post_" <= postId
    ensures t.CommentTarget? <==> "comment_" <= postId
    ensures !t.UnknownTarget? ==> t.id == NativeId(postId)
  {
    if "post_" <= postId then
      assert postId[0] == 'p';
      SubmissionTarget(NativeId(postId))
    else if "comment_" <= postId then CommentTarget(NativeId(postId))
    else UnknownTarget
  }

  /** A mention built by the search is replied to on the object it was built from. */
  lemma ReplyGoesBackToSource(sub: Submission, c: Comment)
    ensures ReplyTarget(PostMention(sub).id) == SubmissionTarget(sub.id)
    ensures ReplyTarget(CommentMention(c).id) == CommentTarget(c.id)
  {
    NativeIdRoundTrip(sub.id);
    NativeIdRoundTrip(c.id);
    assert "post_" <= PostMention(sub).id;
    var cid := CommentMention(c).id;
    assert cid[0] == 'c';
  }

  /** `post_reply`: true exactly when the id has a known prefix, the client exists and the
      reply call returned; every failure, including an unknown prefix, is false and nothing
      escapes as an exception. */
  function PostReply(s: Session, postId: string, text: string): (r: bool)
    ensures r <==> s.authenticated && !ReplyTarget(postId).UnknownTarget? && s.deliver(ReplyTarget(postId), text).Ok?
  {
    var target := ReplyTarget(postId);
    if target.UnknownTarget? then false
    else if !s.authenticated then false
    else s.deliver(target, text).Ok?
  }

  /** `_is_own_post`: the author is the configured user name (an unset name matches nobody). */
  function IsOwnPost(m: Mention, username: Option<string>): (r: bool)
    ensures r <==> username.Some? && m.author == username.value
  {
    username.Some? && m.author == username.value
  }

  /** The Reddit monitor as the base loop sees it: searching one keyword at a time, with the
      configured keywords, and a `post_reply` that never raises. */
  function AsPlatform(s: Session): (pl: Platform)
    ensures pl.name == "reddit" && pl.keywords == MONITOR_KEYWORDS
    ensures forall k :: pl.search(k) == (if s.authenticated then Ok(Collect(s, [k], [k])) else Raised(NOT_AUTHENTICATED))
    ensures forall id, text :: !pl.postReply(id, text).PostRaised?
    ensures forall id, text :: pl.postReply(id, text).Posted? <==> PostReply(s, id, text)
  {
    Platform("reddit", MONITOR_KEYWORDS,
             k => if s.authenticated then Ok(Collect(s, [k], [k])) else Raised(NOT_AUTHENTICATED),
             m => IsOwnPost(m, s.username),
             (id, text) => if PostReply(s, id, text) then Posted else NotPosted)
  }
}
