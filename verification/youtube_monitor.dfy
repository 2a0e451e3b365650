/** The YouTube monitor (src/services/monitors/youtube_monitor.py). The Data API client is
    replaced by what it answers: the videos a keyword search finds, the comment threads of a
    video and the replies of a comment, each of which may raise. */
module YouTube {
  import opened Wrappers
  import opened Text
  import opened Models
  import opened Settings
  import opened Monitors

  datatype Video = Video(videoId: string, title: string)

  /** A comment thread: its top-level comment and the thread's reply count. */
  datatype Thread = Thread(commentId: string, author: string, text: string, totalReplyCount: int)

  /** An item of a reply listing. */
  datatype ReplyItem = ReplyItem(id: string, author: string, text: string)

  /** A comment dictionary; replies carry the id of the comment they answer. */
  datatype Comment = Comment(id: string, author: string, text: string, parentId: Option<string>)

  /** The monitor's client state: whether `authenticate` succeeded and the API's answers. */
  datatype Session = Session(
    authenticated: bool,
    videos: string -> Outcome<seq<Video>>,
    threads: string -> Outcome<seq<Thread>>,
    replies: string -> Outcome<seq<ReplyItem>>)

  const NOT_AUTHENTICATED: string := "YouTube not authenticated. Call authenticate() first."

  /** The keyword rule of both listings: an empty keyword keeps everything, otherwise the
      keyword must occur in the text, ignoring case. */
  predicate Keeps(keyword: string, text: string) {
    keyword == [] || ContainsIgnoreCase(text, keyword)
  }

  // ---------------------------------------------------------------------------
  // _get_comment_replies

  function ReplyComment(item: ReplyItem): Comment {
    Comment(item.id, item.author, item.text, None)
  }

  /** The kept replies of a listing, in order. */
  function KeptReplies(items: seq<ReplyItem>, keyword: string): seq<Comment>
  {
    if items == [] then []
    else
      var it := items[|items| - 1];
      KeptReplies(items[..|items| - 1], keyword) + (if Keeps(keyword, it.text) then [ReplyComment(it)] else [])
  }

  /** What `_get_comment_replies` returns: the kept replies, or nothing when the call raised. */
  function CommentReplies(s: Session, parentId: string, keyword: string): seq<Comment>
  {
    match s.replies(parentId)
    case Raised(_) => []
    case Ok(items) => KeptReplies(items, keyword)
  }

  method GetCommentReplies(s: Session, parentId: string, keyword: string) returns (replies: seq<Comment>)
    ensures replies == CommentReplies(s, parentId, keyword)
  {
    replies := [];
    var response := s.replies(parentId);
    if response.Raised? {
      return;
    }
    var items := response.value;
    for i := 0 to |items|
      invariant replies == KeptReplies(items[..i], keyword)
    {
      assert items[..i + 1][..i] == items[..i];
      if Keeps(keyword, items[i].text) {
        replies := replies + [ReplyComment(items[i])];
      }
    }
    assert items[..|items|] == items;
  }

  // ---------------------------------------------------------------------------
  // _get_video_comments

  /** Replies tagged with the id of the comment they answer. */
  function Tagged(replies: seq<Comment>, parentId: string): (r: seq<Comment>)
    ensures |r| == |replies|
    ensures forall i :: 0 <= i < |r| ==> r[i] == replies[i].(parentId := Some(parentId))
  {
    seq(|replies|, i requires 0 <= i < |replies| => replies[i].(parentId := Some(parentId)))
  }

  /** What one thread contributes: nothing when its top-level comment is filtered out;
      otherwise that comment, followed (when the thread has replies) by its kept replies. */
  function ThreadBlock(s: Session, t: Thread, keyword: string): seq<Comment>
  {
    if !Keeps(keyword, t.text) then []
    else
      [Comment(t.commentId, t.author, t.text, None)] +
        (if t.totalReplyCount > 0 then Tagged(CommentReplies(s, t.commentId, keyword), t.commentId) else [])
  }

  function ThreadComments(s: Session, ts: seq<Thread>, keyword: string): seq<Comment>
  {
    if ts == [] then [] else ThreadComments(s, ts[..|ts| - 1], keyword) + ThreadBlock(s, ts[|ts| - 1], keyword)
  }

  /** What `_get_video_comments` returns; a thread listing that raised yields nothing. */
  function VideoComments(s: Session, videoId: string, keyword: string): seq<Comment>
  {
    match s.threads(videoId)
    case Raised(_) => []
    case Ok(ts) => ThreadComments(s, ts, keyword)
  }

  /** The loop that tags each reply with its parent and appends it. */
  method AppendTagged(comments: seq<Comment>, replies: seq<Comment>, parentId: string) returns (r: seq<Comment>)
    ensures r == comments + Tagged(replies, parentId)
  {
    r := comments;
    for i := 0 to |replies|
      invariant r == comments + Tagged(replies[..i], parentId)
    {
      var reply := replies[i].(parentId := Some(parentId));
      r := r + [reply];
    }
    assert replies[..|replies|] == replies;
  }

  /** The body of the thread loop: a kept top-level comment, then its tagged replies. */
  method AppendThread(s: Session, comments: seq<Comment>, t: Thread, keyword: string) returns (r: seq<Comment>)
    requires Keeps(keyword, t.text)
    ensures r == comments + ThreadBlock(s, t, keyword)
  {
    r := comments + [Comment(t.commentId, t.author, t.text, None)];
    if t.totalReplyCount > 0 {
      var replies := GetCommentReplies(s, t.commentId, keyword);
      r := AppendTagged(r, replies, t.commentId);
    }
  }

  method GetVideoComments(s: Session, videoId: string, keyword: string) returns (comments: seq<Comment>)
    ensures comments == VideoComments(s, videoId, keyword)
  {
    comments := [];
    var response := s.threads(videoId);
    if response.Raised? {
      return;
    }
    var items := response.value;
    for i := 0 to |items|
      invariant comments == ThreadComments(s, items[..i], keyword)
    {
      assert items[..i + 1][..i] == items[..i];
      if !Keeps(keyword, items[i].text) {
        continue;
      }
      comments := AppendThread(s, comments, items[i], keyword);
    }
    assert items[..|items|] == items;
  }

  // ---------------------------------------------------------------------------
  // search_mentions

  /** The link to a comment under its video. */
  function WatchUrl(videoId: string, commentId: string): string {
    "https://www.youtube.com/watch?v=" + videoId + "&lc=" + commentId
  }

  function CommentMention(videoId: string, c: Comment): Mention {
    Mention(c.id, c.author, c.text, WatchUrl(videoId, c.id), c.parentId)
  }

  /** The mentions of one video's comments, in order. */
  function VideoMentions(videoId: string, cs: seq<Comment>): seq<Mention>
  {
    if cs == [] then [] else VideoMentions(videoId, cs[..|cs| - 1]) + [CommentMention(videoId, cs[|cs| - 1])]
  }

  /** One mention per comment, in order, each keeping the comment's id, text and parent and
      linking to that comment under its video. */
  lemma {:induction false} VideoMentionsLinkBack(videoId: string, cs: seq<Comment>)
    ensures |VideoMentions(videoId, cs)| == |cs|
    ensures forall i :: 0 <= i < |cs| ==>
      var m := VideoMentions(videoId, cs)[i];
      m.id == cs[i].id && m.content == cs[i].text && m.parentId == cs[i].parentId &&
      m.url == WatchUrl(videoId, cs[i].id)
  {
    if cs != [] {
      VideoMentionsLinkBack(videoId, cs[..|cs| - 1]);
    }
  }

  function VideosMentions(s: Session, vs: seq<Video>, keyword: string): seq<Mention>
  {
    if vs == [] then []
    else
      var v := vs[|vs| - 1];
      VideosMentions(s, vs[..|vs| - 1], keyword) + VideoMentions(v.videoId, VideoComments(s, v.videoId, keyword))
  }

  /** What one keyword adds; a video search that raised adds nothing. */
  function KeywordMentions(s: Session, keyword: string): seq<Mention>
  {
    match s.videos(keyword)
    case Raised(_) => []
    case Ok(vs) => VideosMentions(s, vs, keyword)
  }

  function Collect(s: Session, searched: seq<string>): seq<Mention>
  {
    if searched == [] then [] else Collect(s, searched[..|searched| - 1]) + KeywordMentions(s, searched[|searched| - 1])
  }

  method AppendVideoMentions(mentions: seq<Mention>, videoId: string, cs: seq<Comment>) returns (r: seq<Mention>)
    ensures r == mentions + VideoMentions(videoId, cs)
  {
    r := mentions;
    for i := 0 to |cs|
      invariant r == mentions + VideoMentions(videoId, cs[..i])
    {
      assert cs[..i + 1][..i] == cs[..i];
      r := r + [CommentMention(videoId, cs[i])];
    }
    assert cs[..|cs|] == cs;
  }

  lemma VideosMentionsStep(s: Session, vs: seq<Video>, j: nat, keyword: string)
    requires j < |vs|
    ensures VideosMentions(s, vs[..j + 1], keyword) ==
      VideosMentions(s, vs[..j], keyword) + VideoMentions(vs[j].videoId, VideoComments(s, vs[j].videoId, keyword))
  {
    assert vs[..j + 1][..j] == vs[..j];
  }

  lemma AppendAssociative(a: seq<Mention>, b: seq<Mention>, c: seq<Mention>)
    ensures (a + b) + c == a + (b + c)
  {
  }

  /** The loop over the videos found for one keyword. */
  method AppendKeywordMentions(s: Session, mentions: seq<Mention>, vs: seq<Video>, keyword: string) returns (r: seq<Mention>)
    ensures r == mentions + VideosMentions(s, vs, keyword)
  {
    r := mentions;
    for j := 0 to |vs|
      invariant r == mentions + VideosMentions(s, vs[..j], keyword)
    {
      var comments := GetVideoComments(s, vs[j].videoId, keyword);
      r := AppendVideoMentions(r, vs[j].videoId, comments);
      VideosMentionsStep(s, vs, j, keyword);
      AppendAssociative(mentions, VideosMentions(s, vs[..j], keyword), VideoMentions(vs[j].videoId, comments));
    }
    assert vs[..|vs|] == vs;
  }

  /** `search_mentions`. */
  method SearchMentions(s: Session, keywords: seq<string>) returns (r: Outcome<seq<Mention>>)
    ensures !s.authenticated ==> r == Raised(NOT_AUTHENTICATED)
    ensures s.authenticated ==> r == Ok(Collect(s, keywords))
  {
    if !s.authenticated {
      return Raised(NOT_AUTHENTICATED);
    }
    var mentions: seq<Mention> := [];
    for i := 0 to |keywords|
      invariant mentions == Collect(s, keywords[..i])
    {
      assert keywords[..i + 1][..i] == keywords[..i];
      var found := s.videos(keywords[i]);
      if found.Ok? {
        mentions := AppendKeywordMentions(s, mentions, found.value, keywords[i]);
      }
    }
    assert keywords[..|keywords|] == keywords;
    return Ok(mentions);
  }

  // ---------------------------------------------------------------------------
  // Properties of the comment listing

  lemma {:induction false} KeptRepliesMatch(items: seq<ReplyItem>, keyword: string)
    ensures forall c :: c in KeptReplies(items, keyword) ==> Keeps(keyword, c.text) && c.parentId.None?
  {
    if items != [] {
      KeptRepliesMatch(items[..|items| - 1], keyword);
    }
  }

  /** Every listed comment, top-level or reply, satisfies the keyword rule. */
  lemma {:induction false} ThreadCommentsMatch(s: Session, ts: seq<Thread>, keyword: string)
    ensures forall c :: c in ThreadComments(s, ts, keyword) ==> Keeps(keyword, c.text)
  {
    if ts != [] {
      ThreadCommentsMatch(s, ts[..|ts| - 1], keyword);
      var t := ts[|ts| - 1];
      if s.replies(t.commentId).Ok? {
        KeptRepliesMatch(s.replies(t.commentId).value, keyword);
      }
    }
  }

  /** Each reply comes after the comment it answers, with only replies to that same
      comment in between. */
  ghost predicate RepliesFollowParents(cs: seq<Comment>) {
    forall i :: 0 <= i < |cs| && cs[i].parentId.Some? ==>
      exists j :: 0 <= j < i && cs[j].parentId.None? && cs[j].id == cs[i].parentId.value &&
        (forall k :: j < k <= i ==> cs[k].parentId == cs[i].parentId)
  }

  lemma BlockRepliesFollowParent(s: Session, prev: seq<Comment>, t: Thread, keyword: string)
    requires RepliesFollowParents(prev)
    ensures RepliesFollowParents(prev + ThreadBlock(s, t, keyword))
  {
    var b := ThreadBlock(s, t, keyword);
    var all := prev + b;
    forall i | 0 <= i < |all| && all[i].parentId.Some?
      ensures exists j :: 0 <= j < i && all[j].parentId.None? && all[j].id == all[i].parentId.value &&
                          (forall k :: j < k <= i ==> all[k].parentId == all[i].parentId)
    {
      if i < |prev| {
        assert prev[i] == all[i];
        var j :| 0 <= j < i && prev[j].parentId.None? && prev[j].id == prev[i].parentId.value &&
          (forall k :: j < k <= i ==> prev[k].parentId == prev[i].parentId);
        assert forall k :: j <= k <= i ==> all[k] == prev[k];
      } else {
        var j := |prev|;
        assert all[j] == b[0] == Comment(t.commentId, t.author, t.text, None);
        assert i > j;
        assert forall k :: j < k <= i ==> all[k] == b[k - j] && b[k - j].parentId == Some(t.commentId);
      }
    }
  }

  lemma {:induction false} ThreadRepliesFollowParents(s: Session, ts: seq<Thread>, keyword: string)
    ensures RepliesFollowParents(ThreadComments(s, ts, keyword))
  {
    if ts != [] {
      ThreadRepliesFollowParents(s, ts[..|ts| - 1], keyword);
      BlockRepliesFollowParent(s, ThreadComments(s, ts[..|ts| - 1], keyword), ts[|ts| - 1], keyword);
    }
  }

  /** The reply listing is consulted only for kept threads that have replies: two sessions
      that agree on those threads' replies list the same comments, whatever the replies of a
      filtered-out thread are. */
  lemma {:induction false} RepliesOfFilteredThreadsUnread(s: Session, s2: Session, ts: seq<Thread>, keyword: string)
    requires forall t :: t in ts && Keeps(keyword, t.text) && t.totalReplyCount > 0 ==>
      s.replies(t.commentId) == s2.replies(t.commentId)
    ensures ThreadComments(s, ts, keyword) == ThreadComments(s2, ts, keyword)
  {
    if ts != [] {
      var t := ts[|ts| - 1];
      assert forall u :: u in ts[..|ts| - 1] ==> u in ts;
      RepliesOfFilteredThreadsUnread(s, s2, ts[..|ts| - 1], keyword);
      if Keeps(keyword, t.text) && t.totalReplyCount > 0 {
        assert s.replies(t.commentId) == s2.replies(t.commentId);
      }
    }
  }

  // ---------------------------------------------------------------------------
  // post_reply and _is_own_post

  /** `post_reply`: replying needs OAuth, which is not implemented, so it always fails. */
  function PostReply(commentId: string, text: string): (r: bool)
    ensures !r
  {
    false
  }

  /** `_is_own_post`: the author is the configured channel name; without that setting,
      nothing is the bot's own. */
  function IsOwnPost(m: Mention, channelName: Option<string>): (r: bool)
    ensures channelName.None? ==> !r
    ensures channelName.Some? ==> (r <==> m.author == channelName.value)
  {
    channelName.Some? && m.author == channelName.value
  }

  /** The YouTube monitor as the base loop sees it. */
  function AsPlatform(s: Session, youtubeKeywords: Option<seq<string>>, channelName: Option<string>): (pl: Platform)
    ensures pl.name == "youtube" && pl.keywords == GetMonitorKeywords(youtubeKeywords, MONITOR_KEYWORDS)
    ensures forall k :: pl.search(k) == (if s.authenticated then Ok(Collect(s, [k])) else Raised(NOT_AUTHENTICATED))
    ensures forall id, text :: pl.postReply(id, text) == NotPosted
  {
    Platform("youtube", GetMonitorKeywords(youtubeKeywords, MONITOR_KEYWORDS),
             k => if s.authenticated then Ok(Collect(s, [k])) else Raised(NOT_AUTHENTICATED),
             m => IsOwnPost(m, channelName),
             (id, text) => if PostReply(id, text) then Posted else NotPosted)
  }

  /** Because no reply goes through, a YouTube run leaves the ledger as it was and reports
      zero (unless the operator prompt raises, which records a 'failed' row): the same
      comments are handled again on every poll. */
  lemma YouTubeRunRecordsNothing(s: Session, youtubeKeywords: Option<seq<string>>, channelName: Option<string>,
                                 rs: Responder, rows: seq<ProcessedPost>)
    requires rs.interactive ==> forall m :: !rs.operator(m).InputFailed?
    ensures var pl := AsPlatform(s, youtubeKeywords, channelName);
      RunKeywords(pl, rs, pl.keywords, Start(rows)).rows == rows &&
      RunKeywords(pl, rs, pl.keywords, Start(rows)).count == 0
  {
    var pl := AsPlatform(s, youtubeKeywords, channelName);
    assert NeverRecords(pl, rs);
    RunKeywordsRecordsNothing(pl, rs, pl.keywords, Start(rows));
  }
}
