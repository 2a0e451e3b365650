/** The Mastodon monitor (src/services/monitors/mastodon_monitor.py). The Mastodon.py client
    is replaced by what it answers: the statuses `search_v2` finds for a keyword, the
    statuses of the mention notifications, the status looked up before replying, and the
    outcome of `status_post`; each of them may raise. */
module Mastodon {
  import opened Wrappers
  import opened Text
  import opened Settings
  import opened Monitors

  datatype Account = Account(username: string, acct: string)

  /** A status (toot); `reblog` is whether the status boosts another one. */
  datatype Status = Status(
    id: string,
    account: Account,
    content: string,
    url: string,
    visibility: string,
    inReplyToId: Option<string>,
    reblog: bool)

  /** The monitor's client state: whether `authenticate` succeeded, the bot's user name from
      the verified credentials (`None` before authentication), and the answers of the API. */
  datatype Session = Session(
    authenticated: bool,
    botUsername: Option<string>,
    searchStatuses: string -> Outcome<seq<Status>>,
    notifications: Outcome<seq<Status>>,
    lookup: string -> Outcome<Status>,
    publish: (string, string, string) -> Outcome<()>)

  const NOT_AUTHENTICATED: string := "Mastodon not authenticated. Call authenticate() first."

  // ---------------------------------------------------------------------------
  // _strip_html

  /** Where the lazy pattern `<[^<]+?>` ends when it is tried at the `<` that starts `s`:
      the first `>` after at least one character, with no `<` before it. */
  function TagEnd(s: string, j: nat): (r: Option<nat>)
    requires 1 <= j
    ensures r.Some? ==> 2 <= r.value < |s| && s[r.value] == '>' && j <= r.value
    ensures r.Some? ==> forall k :: j <= k < r.value ==> s[k] != '<'
    decreases |s| - j
  {
    if j >= |s| || s[j] == '<' then None
    else if s[j] == '>' && j >= 2 then Some(j)
    else TagEnd(s, j + 1)
  }

  /** `re.sub('<[^<]+?>', '', s)`: every match, scanning left to right, is dropped. */
  function RemoveTags(s: string): (r: string)
    ensures |r| <= |s|
    decreases |s|
  {
    if s == [] then []
    else if s[0] == '<' && TagEnd(s, 1).Some? then RemoveTags(s[TagEnd(s, 1).value + 1..])
    else [s[0]] + RemoveTags(s[1..])
  }

  /** Tag removal only ever drops characters. */
  lemma {:induction false} RemoveTagsKeepsChars(s: string)
    ensures forall c :: c in RemoveTags(s) ==> c in s
    decreases |s|
  {
    if s != [] {
      if s[0] == '<' && TagEnd(s, 1).Some? {
        var rest := s[TagEnd(s, 1).value + 1..];
        RemoveTagsKeepsChars(rest);
        assert forall c :: c in rest ==> c in s;
      } else {
        RemoveTagsKeepsChars(s[1..]);
        assert forall c :: c in s[1..] ==> c in s;
      }
    }
  }

  /** Text without `<` holds no tag: tag removal leaves it unchanged. */
  lemma {:induction false} RemoveTagsWithoutOpen(s: string)
    ensures '<' !in s ==> RemoveTags(s) == s
  {
    if s != [] && '<' !in s {
      assert forall c :: c in s[1..] ==> c in s;
      RemoveTagsWithoutOpen(s[1..]);
    }
  }

  /** A tag `<t>` whose inside holds no `<` and no `>` is dropped. */
  lemma RemoveTagsDropsTag(t: string, rest: string)
    requires t != [] && '<' !in t && '>' !in t
    ensures RemoveTags("<" + t + ">" + rest) == RemoveTags(rest)
  {
    var s := "<" + t + ">" + rest;
    var e := |t| + 1;
    assert s[e] == '>';
    assert forall k :: 1 <= k < e ==> s[k] == t[k - 1];
    TagEndAt(s, 1, e);
    assert s[e + 1..] == rest;
  }

  /** The search for the closing `>` stops at `e` when nothing before it stops it. */
  lemma {:induction false} TagEndAt(s: string, j: nat, e: nat)
    requires 1 <= j <= e < |s| && 2 <= e && s[e] == '>'
    requires forall k :: j <= k < e ==> s[k] != '<' && s[k] != '>'
    ensures TagEnd(s, j) == Some(e)
    decreases e - j
  {
    if j < e {
      TagEndAt(s, j + 1, e);
    }
  }

  /** `_strip_html`: tags removed, then surrounding whitespace. */
  function StripHtml(html: string): string
  {
    Strip(RemoveTags(html))
  }

  /** The stripped text starts and ends with no whitespace, holds only characters of the
      HTML, and is plain `strip()` when the HTML holds no `<`. */
  lemma StripHtmlProperties(html: string)
    ensures var r := StripHtml(html);
      (r == [] || (!IsSpace(r[0]) && !IsSpace(r[|r| - 1]))) &&
      (forall i :: 0 <= i < |r| ==> r[i] in html) &&
      ('<' !in html ==> r == Strip(html))
  {
    RemoveTagsWithoutOpen(html);
    RemoveTagsKeepsChars(html);
    StripProperties(RemoveTags(html));
  }

  // ---------------------------------------------------------------------------
  // search_mentions

  /** The mention dictionary built from a status (both loops build the same one). */
  function StatusMention(st: Status): Mention
  {
    Mention(st.id, st.account.username, StripHtml(st.content), st.url, None)
  }

  /** The search results that are not boosts, in order. */
  function OriginalStatuses(sts: seq<Status>): seq<Mention>
  {
    if sts == [] then []
    else
      var st := sts[|sts| - 1];
      OriginalStatuses(sts[..|sts| - 1]) + (if st.reblog then [] else [StatusMention(st)])
  }

  /** The notification statuses whose stripped text mentions a keyword, ignoring case. */
  predicate MentionsKeyword(st: Status, keywords: seq<string>) {
    AnyKeywordIn(keywords, StripHtml(st.content))
  }

  function MatchingNotifications(sts: seq<Status>, keywords: seq<string>): seq<Mention>
  {
    if sts == [] then []
    else
      var st := sts[|sts| - 1];
      MatchingNotifications(sts[..|sts| - 1], keywords) + (if MentionsKeyword(st, keywords) then [StatusMention(st)] else [])
  }

  /** The search results of the first searched keywords; a raising search adds nothing. */
  function SearchResults(s: Session, searched: seq<string>): seq<Mention>
  {
    if searched == [] then []
    else
      var found := s.searchStatuses(searched[|searched| - 1]);
      SearchResults(s, searched[..|searched| - 1]) + (if found.Ok? then OriginalStatuses(found.value) else [])
  }

  /** Everything `search_mentions` returns once authenticated: the search results of every
      keyword, then the matching notifications (nothing if fetching them raised). */
  function Collect(s: Session, keywords: seq<string>): seq<Mention>
  {
    SearchResults(s, keywords) +
      (if s.notifications.Ok? then MatchingNotifications(s.notifications.value, keywords) else [])
  }

  method AppendOriginalStatuses(mentions: seq<Mention>, sts: seq<Status>) returns (r: seq<Mention>)
    ensures r == mentions + OriginalStatuses(sts)
  {
    r := mentions;
    for j := 0 to |sts|
      invariant r == mentions + OriginalStatuses(sts[..j])
    {
      assert sts[..j + 1][..j] == sts[..j];
      if !sts[j].reblog {
        r := r + [StatusMention(sts[j])];
      }
    }
    assert sts[..|sts|] == sts;
  }

  method AppendMatchingNotifications(mentions: seq<Mention>, sts: seq<Status>, keywords: seq<string>) returns (r: seq<Mention>)
    ensures r == mentions + MatchingNotifications(sts, keywords)
  {
    r := mentions;
    for j := 0 to |sts|
      invariant r == mentions + MatchingNotifications(sts[..j], keywords)
    {
      var text := StripHtml(sts[j].content);
      var contentLower := Lower(text);
      assert AnyKeywordIn(keywords, contentLower) == MentionsKeyword(sts[j], keywords) by {
        LowerKeepsMatches(keywords, text);
      }
      if AnyKeywordIn(keywords, contentLower) {
        r := r + [StatusMention(sts[j])];
      }
      assert r == mentions + MatchingNotifications(sts[..j + 1], keywords) by {
        MatchingNotificationsStep(sts, j, keywords);
      }
    }
    assert sts[..|sts|] == sts;
  }

  lemma MatchingNotificationsStep(sts: seq<Status>, j: nat, keywords: seq<string>)
    requires j < |sts|
    ensures MatchingNotifications(sts[..j + 1], keywords) ==
      MatchingNotifications(sts[..j], keywords) + (if MentionsKeyword(sts[j], keywords) then [StatusMention(sts[j])] else [])
  {
    assert sts[..j + 1][..j] == sts[..j];
  }

  /** `search_mentions`. */
  method SearchMentions(s: Session, keywords: seq<string>) returns (r: Outcome<seq<Mention>>)
    ensures !s.authenticated ==> r == Raised(NOT_AUTHENTICATED)
    ensures s.authenticated ==> r == Ok(Collect(s, keywords))
  {
    if !s.authenticated {
      return Raised(NOT_AUTHENTICATED);
    }
    var mentions: seq<Mention> := [];
    for i := 0 to |keywords|
      invariant mentions == SearchResults(s, keywords[..i])
    {
      assert keywords[..i + 1][..i] == keywords[..i];
      var found := s.searchStatuses(keywords[i]);
      if found.Ok? {
        mentions := AppendOriginalStatuses(mentions, found.value);
      }
    }
    assert keywords[..|keywords|] == keywords;
    assert mentions == SearchResults(s, keywords);
    if s.notifications.Ok? {
      mentions := AppendMatchingNotifications(mentions, s.notifications.value, keywords);
    } else {
      assert mentions == mentions + [];
    }
    return Ok(mentions);
  }

  /** Boosts never become mentions; every other search result does. */
  lemma {:induction false} OriginalStatusesSkipBoosts(sts: seq<Status>)
    ensures forall m :: m in OriginalStatuses(sts) ==>
      exists i :: 0 <= i < |sts| && !sts[i].reblog && m == StatusMention(sts[i])
    ensures forall i :: 0 <= i < |sts| && !sts[i].reblog ==> StatusMention(sts[i]) in OriginalStatuses(sts)
  {
    if sts != [] {
      var init := sts[..|sts| - 1];
      var st := sts[|sts| - 1];
      var last := if st.reblog then [] else [StatusMention(st)];
      assert OriginalStatuses(sts) == OriginalStatuses(init) + last;
      OriginalStatusesSkipBoosts(init);
      forall m | m in OriginalStatuses(sts)
        ensures exists i :: 0 <= i < |sts| && !sts[i].reblog && m == StatusMention(sts[i])
      {
        if m in OriginalStatuses(init) {
          var i :| 0 <= i < |init| && !init[i].reblog && m == StatusMention(init[i]);
          assert sts[i] == init[i];
        } else {
          assert m in last;
          assert !sts[|sts| - 1].reblog && m == StatusMention(sts[|sts| - 1]);
        }
      }
      forall i | 0 <= i < |sts| && !sts[i].reblog ensures StatusMention(sts[i]) in OriginalStatuses(sts) {
        if i < |sts| - 1 {
          assert init[i] == sts[i];
          assert StatusMention(init[i]) in OriginalStatuses(init);
        } else {
          assert last == [StatusMention(sts[i])];
        }
      }
    }
  }

  /** A notification becomes a mention exactly when its stripped text mentions a keyword. */
  lemma {:induction false} NotificationsFilteredByKeyword(sts: seq<Status>, keywords: seq<string>)
    ensures forall m :: m in MatchingNotifications(sts, keywords) ==>
      exists i :: 0 <= i < |sts| && MentionsKeyword(sts[i], keywords) && m == StatusMention(sts[i])
    ensures forall i :: 0 <= i < |sts| && MentionsKeyword(sts[i], keywords) ==>
      StatusMention(sts[i]) in MatchingNotifications(sts, keywords)
  {
    if sts != [] {
      var init := sts[..|sts| - 1];
      var st := sts[|sts| - 1];
      var keep := MentionsKeyword(st, keywords);
      var last := if keep then [StatusMention(st)] else [];
      assert MatchingNotifications(sts, keywords) == MatchingNotifications(init, keywords) + last;
      NotificationsFilteredByKeyword(init, keywords);
      forall m | m in MatchingNotifications(sts, keywords)
        ensures exists i :: 0 <= i < |sts| && MentionsKeyword(sts[i], keywords) && m == StatusMention(sts[i])
      {
        if m in MatchingNotifications(init, keywords) {
          var i :| 0 <= i < |init| && MentionsKeyword(init[i], keywords) && m == StatusMention(init[i]);
          assert sts[i] == init[i];
        } else {
          assert m in last;
          assert keep && m == StatusMention(sts[|sts| - 1]);
        }
      }
      forall i | 0 <= i < |sts| && MentionsKeyword(sts[i], keywords)
        ensures StatusMention(sts[i]) in MatchingNotifications(sts, keywords)
      {
        if i < |sts| - 1 {
          assert init[i] == sts[i];
          assert StatusMention(init[i]) in MatchingNotifications(init, keywords);
        } else {
          assert last == [StatusMention(sts[i])];
        }
      }
    }
  }

  /** A status that is both found by the search and mentioned in a notification is
      returned twice, under the same id: the list is not de-duplicated. */
  lemma SameStatusCanAppearTwice(s: Session, keyword: string, st: Status)
    requires s.searchStatuses(keyword) == Ok([st]) && !st.reblog
    requires s.notifications == Ok([st]) && MentionsKeyword(st, [keyword])
    ensures Collect(s, [keyword]) == [StatusMention(st), StatusMention(st)]
  {
    SearchResultsOfOneKeyword(s, keyword);
    OneStatusListings(st, [keyword]);
  }

  lemma SearchResultsOfOneKeyword(s: Session, keyword: string)
    ensures SearchResults(s, [keyword]) ==
      (if s.searchStatuses(keyword).Ok? then OriginalStatuses(s.searchStatuses(keyword).value) else [])
  {
    assert [keyword][..0] == [];
  }

  lemma OneStatusListings(st: Status, keywords: seq<string>)
    ensures OriginalStatuses([st]) == (if st.reblog then [] else [StatusMention(st)])
    ensures MatchingNotifications([st], keywords) == (if MentionsKeyword(st, keywords) then [StatusMention(st)] else [])
  {
    assert [st][..0] == [];
  }

  // ---------------------------------------------------------------------------
  // post_reply and _is_own_post

  /** The text actually posted: prefixed with `@acct ` unless it already mentions `@acct`. */
  function ComposeReply(acct: string, text: string): (r: string)
    ensures Contains(r, "@" + acct)
    ensures Contains(text, "@" + acct) ==> r == text
    ensures !Contains(text, "@" + acct) ==> r == "@" + acct + " " + text
  {
    var mention := "@" + acct;
    if Contains(text, mention) then text
    else
      assert mention <= mention + " " + text;
      mention + " " + text
  }

  /** `post_reply`: true exactly when the status could be looked up and the reply posted,
      with the original's visibility, in reply to it; every failure is false. */
  function PostReply(s: Session, statusId: string, text: string): (r: bool)
    ensures r <==> (s.authenticated && s.lookup(statusId).Ok? &&
                    s.publish(ComposeReply(s.lookup(statusId).value.account.acct, text), statusId,
                              s.lookup(statusId).value.visibility).Ok?)
  {
    if !s.authenticated then false
    else
      match s.lookup(statusId)
      case Raised(_) => false
      case Ok(original) =>
        var full := ComposeReply(original.account.acct, text);
        s.publish(full, statusId, original.visibility).Ok?
  }

  /** `_is_own_post`: false until the credentials are known, then whether the author is the
      bot's user name. */
  function IsOwnPost(m: Mention, botUsername: Option<string>): (r: bool)
    ensures botUsername.None? ==> !r
    ensures botUsername.Some? ==> (r <==> m.author == botUsername.value)
  {
    botUsername.Some? && m.author == botUsername.value
  }

  /** The Mastodon monitor as the base loop sees it: searching one keyword at a time, and a
      `post_reply` that never raises. */
  function AsPlatform(s: Session, mastodonKeywords: Option<seq<string>>): (pl: Platform)
    ensures pl.name == "mastodon" && pl.keywords == GetMonitorKeywords(mastodonKeywords, MONITOR_KEYWORDS)
    ensures forall k :: pl.search(k) == (if s.authenticated then Ok(Collect(s, [k])) else Raised(NOT_AUTHENTICATED))
    ensures forall id, text :: !pl.postReply(id, text).PostRaised?
    ensures forall id, text :: pl.postReply(id, text).Posted? <==> PostReply(s, id, text)
  {
    Platform("mastodon", GetMonitorKeywords(mastodonKeywords, MONITOR_KEYWORDS),
             k => if s.authenticated then Ok(Collect(s, [k])) else Raised(NOT_AUTHENTICATED),
             m => IsOwnPost(m, s.botUsername),
             (id, text) => if PostReply(s, id, text) then Posted else NotPosted)
  }
}
