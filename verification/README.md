# Social-media reply agent: mention processing and response decisions

This project is a Dafny model of the core of a social-media support agent. The agent
polls Reddit, Mastodon and YouTube for posts that mention configured keywords. It answers
each new mention once, and it records what it did in a sqlite ledger.

The model covers two parts of that agent:

- **The processing loop.** `BaseMonitor.process_mentions` works one keyword at a time. It
  searches the platform, skips mentions already in the ledger and the bot's own posts, and
  asks the decision engine for a reply. In interactive mode the operator may keep, edit or
  skip the reply. The loop then posts the reply and writes the outcome to the ledger.
- **The decision engine.** `ResponseGenerator.generate_response` reads three signals: the
  intent label, the sentiment label and the best canned-response match. It picks a canned,
  generated or fallback text. It then cleans the text with `validate_response` and applies
  the toxicity gate.

| file | module | what it models |
|---|---|---|
| `wrappers.dfy` | `Wrappers` | `Option` (Python `None`) and `Outcome` (a value or a raised exception) |
| `settings.dfy` | `Settings` | the `Config` constants the core reads |
| `text.dfy` | `Text` | Python string operations over `seq<char>`: `in`, `lower()`, `strip()`, `strip(chars)`, `replace`, `index` |
| `database.dfy` | `Models` | the `Database` class, with the two tables as sequence fields |
| `ml_models.dfy` | `MachineLearning` | the classifier result extraction and the canned-response index (class `MLModels`) |
| `response_generator.dfy` | `ResponseGeneration` | `generate_response`, `validate_response` and its steps |
| `base_monitor.dfy` | `Monitors` | the processing loop. Class `BaseMonitor` holds the imperative loop. It is specified by the pure fold `RunKeywords`, and the loop's promises are proved about that fold |
| `reddit_monitor.dfy`, `mastodon_monitor.dfy`, `youtube_monitor.dfy` | `Reddit`, `Mastodon`, `YouTube` | each platform's `search_mentions` loops (as methods proved equal to pure collectors), `post_reply`, `_is_own_post`, and the platform as the base loop sees it (`AsPlatform`) |

The model replaces the agent's collaborators with parameters:

- The outputs of the transformer pipelines become inputs.
- The embedding model's cosine similarities become inputs.
- The answer of the text generator becomes an input.
- The platform API answers become inputs.
- The operator's answers at the prompt become inputs.

Each of these may be a raised exception. Within one run, a platform call is modelled as a
function of its arguments.

## Behaviour of the code worth knowing

- **The final reply can break the length bounds.** `validate_response` fixes the length
  under its "Ensure proper length" comment (`src/services/response_generator.py:88-93`), but
  two later steps can undo it:
  - `strip()` runs after padding, so blank text of acceptable length becomes `""`. See
    `ValidateCanReturnEmpty`.
  - The URL rewrite can lengthen the text: `httpa` becomes `[LINK]`, which is one
    character longer. See `ValidateCanExceedMax`.

  The bound holds only before the URL step (`TruncateThenPadBounds`).
- **A refused reply writes no row.** A `post_reply` that returns `False` writes nothing, so
  the mention is offered again on the next poll (`UnpostedMentionStaysUnprocessed`). Only
  an exception reaches the "Mark as processed to avoid retry loops" branch
  (`src/services/monitors/base_monitor.py:157-171`) and writes a `failed` row
  (`RaisingPostIsRecordedAsFailed`). Because YouTube's `post_reply` always returns
  `False`, a YouTube run never records anything (`YouTubeRunRecordsNothing`).
- **An empty catalogue raises.** `build_canned_response_index([])` still creates an index,
  and the lookup then raises (`MLModels.FindSimilarResponse`). That exception escapes
  `generate_response` (`GenerateResponse`) and abandons the rest of the keyword
  (`GenerationFailureAbandonsKeyword`).
- **Ties go to the last entry.** Between equal top scores the lookup takes the last
  position of maximal score, which is what the reversed ascending `argsort`
  (`src/services/ml_models.py:128`) yields for short, stable-sorted score lists.
- **The sentiment threshold is unused.** `SENTIMENT_THRESHOLD` is not read by the core, so
  it is not modelled.

## Model

| member | source | states |
|---|---|---|
| `Models.TableAgreesWithRows` | src/models/database.py:35-50 | A key is in the table exactly when some row carries it. With unique keys, every row is found under its own `post_id` |
| `Models.CannedPlusAiAtMostTotal` | src/models/database.py:184-192 | The canned and ai counts together never exceed the row total |
| `Models.StatsAfterInsert` | src/models/database.py:184-192 | Inserting a row adds one to the total, and one to the canned or ai count only when that is its type. 'fallback', 'safe_fallback' and 'failed' rows count toward neither |
| `Models.Database.constructor` | src/models/database.py:8-28 | Opening a database with unique keys gives a valid ledger holding those rows |
| `Models.Database.GetAllCannedResponses` | src/models/database.py:141-155 | One entry per catalogue row, in row order, with `response_template` exposed as `text` and the other columns copied |
| `Models.Database.IsProcessed` | src/models/database.py:157-163 | True exactly when the table has a row under the key |
| `Models.Database.MarkProcessed` | src/models/database.py:165-177 | Appends the row exactly when its key is new, and then the table maps that key to the row. A duplicate key (a UNIQUE violation) leaves the table unchanged. Keys stay unique and the catalogue is untouched |
| `Models.Database.GetStats` | src/models/database.py:179-203 | The total is the row count, the canned and ai counts are the numbers of rows of those types (never more than the total together), and an empty table reports all zeros |
| `MachineLearning.ZipDict` | src/services/ml_models.py:56 | The keys of `dict(zip(labels, scores))` are exactly the labels within the shorter length |
| `MachineLearning.ClassifyIntent` | src/services/ml_models.py:39-60 | The top label and its score, which is also a key of `all_scores`. A raising pipeline or an empty result gives the default ('general question', 0.5, {}) |
| `MachineLearning.AnalyzeSentiment` | src/services/ml_models.py:62-74 | The first result's label and score. A raising pipeline or no result gives ('NEUTRAL', 0.5) |
| `MachineLearning.Descriptor` | src/services/ml_models.py:87-96 | The descriptor of an entry starts and ends with neither ',' nor ' ' |
| `MachineLearning.DescriptorOfEmptyEntry` | src/services/ml_models.py:89-95 | An entry with empty (or missing) intent, keyword and category is described by "" |
| `MachineLearning.DescriptorOfCleanEntry` | src/services/ml_models.py:95 | When the intent does not start and the category does not end with a separator, the descriptor is the plain "intent, keyword, category" join |
| `MachineLearning.CheckToxicity` | src/services/ml_models.py:148-160 | Nothing is ever toxic: (False, None) |
| `MachineLearning.MLModels.constructor` | src/services/ml_models.py:31-34 | A fresh models object has no index |
| `MachineLearning.MLModels.BuildCannedResponseIndex` | src/services/ml_models.py:81-101 | The index exists afterwards, even for an empty catalogue. It keeps the catalogue and holds one descriptor per entry, in order |
| `MachineLearning.MLModels.FindSimilarResponse` | src/services/ml_models.py:103-146 | Without an index: no match. With an index: a failed embedding or an empty catalogue raises; otherwise the result is a catalogue entry whose score is maximal among all scores |
| `Text.AnyKeywordInIsSome` | src/services/monitors/reddit_monitor.py:77 | The ordered `any(kw.lower() in text.lower() ...)` holds exactly when some keyword occurs in the text, ignoring case |
| `Text.LowerKeepsMatches` | src/services/monitors/mastodon_monitor.py:98-99 | Matching keywords against the lower-cased text is the same as matching against the text, ignoring case |
| `Text.TrimStartProperties` | src/services/ml_models.py:95 | Left stripping keeps a suffix that starts outside the set, and everything dropped was in the set |
| `Text.TrimEndProperties` | src/services/ml_models.py:95 | Right stripping keeps a prefix that ends outside the set, and everything dropped was in the set |
| `Text.StripCharsProperties` | src/services/ml_models.py:95 | `strip(chars)` leaves no set character at either end and adds no character. It is the identity when neither end is in the set, and gives "" when every character is |
| `Text.StripProperties` | src/services/response_generator.py:102 | `strip()` leaves no whitespace at either end and adds no character. It is the identity on trimmed text, and gives "" on blank text |
| `Text.ReplaceCharIsRemove` | src/services/response_generator.py:86 | `replace('*', '')` removes every '*' and nothing else |
| `Text.ReplacePairThenRemove` | src/services/response_generator.py:86 | Removing '**' first does not change the result of then removing every '*' |
| `Text.IndexOf` | src/services/monitors/reddit_monitor.py:108 | The position of the first occurrence of the character |
| `ResponseGeneration.RemoveMarkdown` | src/services/response_generator.py:86 | No asterisk is left, nothing else is removed, and text without asterisks is unchanged |
| `ResponseGeneration.Truncate` | src/services/response_generator.py:89-90 | Text longer than MAX becomes exactly MAX characters: its first MAX-3 characters and '...'. Shorter text is unchanged |
| `ResponseGeneration.Pad` | src/services/response_generator.py:92-93 | Text shorter than MIN gets the filler sentence appended. The result is at least MIN long and gains no asterisk |
| `ResponseGeneration.FillerHasNoStar` | src/services/response_generator.py:93 | The filler sentence holds no asterisk and is 51 characters long |
| `ResponseGeneration.NonSpaceRunIsMaximal` | src/services/response_generator.py:100 | What `\S+` consumes holds no whitespace and stops at whitespace or at the end |
| `ResponseGeneration.ScrubLinks` | src/services/response_generator.py:97-100 | The text is unchanged when it already holds '[LINK]' or holds no 'http'; otherwise it is rewritten (see `ScrubLinksRemovesUrls`) |
| `ResponseGeneration.SubUrlsLeavesNoUrl` | src/services/response_generator.py:100 | After the substitution no `http` is followed by a non-whitespace character: nothing `http\S+` matches is left |
| `ResponseGeneration.NoUrlAfterCopiedH` | src/services/response_generator.py:100 | An 'h' the substitution leaves in place does not start a match in its result |
| `ResponseGeneration.ScrubLinksRemovesUrls` | src/services/response_generator.py:97-100 | When the URL step runs (no '[LINK]', some 'http'), its result holds no URL |
| `ResponseGeneration.ValidateResponse` | src/services/response_generator.py:83-102 | The result holds no asterisk and has no whitespace at either end |
| `ResponseGeneration.ScrubThenStripIsClean` | src/services/response_generator.py:97-102 | The URL step and the final `strip()` add no asterisk and leave no whitespace at either end |
| `ResponseGeneration.SubUrlsKeepsNoStar` | src/services/response_generator.py:100 | The URL rewrite introduces no asterisk |
| `ResponseGeneration.TruncateThenPadBounds` | src/services/response_generator.py:88-93 | After truncation and padding the length lies in [MIN, MAX]. Long text is only truncated, short text only padded |
| `ResponseGeneration.UntouchedBeforeLinks` | src/services/response_generator.py:85-93 | Text without asterisks whose length is within the bounds reaches the URL step unchanged |
| `ResponseGeneration.ValidateResponseKeepsCleanText` | src/services/response_generator.py:83-102 | Clean text passes through unchanged. Clean means no asterisk, no 'http', no surrounding whitespace, and a length within the bounds |
| `ResponseGeneration.ValidateCanReturnEmpty` | src/services/response_generator.py:92-102 | Blank text of acceptable length becomes "", which is shorter than MIN |
| `ResponseGeneration.SubUrlsCopiesPlainText` | src/services/response_generator.py:100 | Text without an 'h' holds no URL: the rewrite copies it and continues after it |
| `ResponseGeneration.SubUrlsOfShortUrl` | src/services/response_generator.py:100 | The shortest URL the pattern accepts, 'httpa', becomes '[LINK]' |
| `ResponseGeneration.ScrubUrlAfterPlainText` | src/services/response_generator.py:97-100 | Plain text followed by 'httpa' has its URL replaced by '[LINK]' |
| `ResponseGeneration.ValidateCanExceedMax` | src/services/response_generator.py:89-102 | Some texts of exactly MAX characters come out MAX+1 long |
| `ResponseGeneration.ApplyToxicityGate` | src/services/response_generator.py:68-72 | A toxic verdict replaces the text with the safe text and the type with 'safe_fallback'. Otherwise text and type are kept |
| `ResponseGeneration.RequestFor` | src/services/response_generator.py:48-55 | The generator gets the post, intent and sentiment, with the match's text as the example ("" without a match) |
| `ResponseGeneration.GenerateResponse` | src/services/response_generator.py:15-81 | Raises exactly when the lookup raised. Otherwise the decision carries the intent, confidence, sentiment and similarity unchanged. At or above the threshold it is the validated canned text, typed canned. Below it, the validated generated text typed ai, or the validated fallback text typed fallback when the generator gave nothing |
| `ResponseGeneration.SafeFallbackUnreachable` | src/services/response_generator.py:67-72 | The type is never 'safe_fallback', since nothing is toxic |
| `ResponseGeneration.IntentOutageFailsOpen` | src/services/response_generator.py:19-21 | A raising intent classifier still yields a decision, with intent 'general question' and confidence 0.5 |
| `ResponseGeneration.CleanCannedTextSentVerbatim` | src/services/response_generator.py:38-42 | A match at or above the threshold whose text is clean is sent verbatim, typed canned, with the match's score |
| `Monitors.DefaultIsOwnPost` | src/services/monitors/base_monitor.py:183-194 | The base class treats no post as its own |
| `Monitors.LedgerKey` | src/services/monitors/base_monitor.py:107 | The key is the platform name, '_', then the mention id |
| `Monitors.LedgerKeyInjective` | src/services/monitors/base_monitor.py:107 | On one platform, distinct mention ids have distinct ledger keys |
| `Monitors.RespondKeeps` | src/services/monitors/base_monitor.py:135-171 | Posting and recording one reply keeps the run invariant |
| `Monitors.MentionStepKeeps` | src/services/monitors/base_monitor.py:106-171 | Handling one mention keeps the run invariant |
| `Monitors.RunMentionsKeeps` | src/services/monitors/base_monitor.py:106-171 | Handling a keyword's mentions keeps the run invariant |
| `Monitors.KeywordStepKeeps` | src/services/monitors/base_monitor.py:100-174 | One keyword keeps the invariant and is appended to the searched keywords, even when its search raised |
| `Monitors.RunKeywordsKeeps` | src/services/monitors/base_monitor.py:100-174 | A run keeps the invariant and searches every keyword, in order |
| `Monitors.ProcessMentionsPromises` | src/services/monitors/base_monitor.py:85-181 | Rows are only appended and keys stay unique. The returned count is the number of new rows that are not 'failed'. Every keyword is searched, in order. No mention recorded beforehand, and no own post, reaches the generator or `post_reply`, and every reply goes to the mention's own id |
| `Monitors.MentionStepRecordsNothing` | src/services/monitors/base_monitor.py:106-171 | When `post_reply` always answers False and the prompt never raises, one mention writes nothing and counts nothing |
| `Monitors.RunMentionsRecordsNothing` | src/services/monitors/base_monitor.py:106-171 | The same for a keyword's mentions |
| `Monitors.RunKeywordsRecordsNothing` | src/services/monitors/base_monitor.py:100-181 | The same for a whole run: the ledger is unchanged and the count is zero |
| `Monitors.SkippedMentionChangesNothing` | src/services/monitors/base_monitor.py:109-115 | A mention already in the ledger, or the bot's own, changes nothing |
| `Monitors.PostedMentionIsRecorded` | src/services/monitors/base_monitor.py:128-153 | Outside interactive mode, or when the operator keeps or edits the reply: a reply that went through is posted with the sent text (the edit, if any) and appends one record under the mention's key with that text and the decision's type, and adds one to the count |
| `Monitors.UnpostedMentionStaysUnprocessed` | src/services/monitors/base_monitor.py:128-155 | Outside interactive mode, or when the operator keeps or edits the reply: a refused reply writes nothing, so the key stays absent |
| `Monitors.RaisingPostIsRecordedAsFailed` | src/services/monitors/base_monitor.py:128-171 | Outside interactive mode, or when the operator keeps or edits the reply: a raising post appends one 'failed' row carrying "FAILED: " and the error, and is not counted |
| `Monitors.SkippedByOperatorChangesNoLedger` | src/services/monitors/base_monitor.py:128-133 | The operator's 'skip' writes, posts and counts nothing |
| `Monitors.GenerationFailureAbandonsKeyword` | src/services/monitors/base_monitor.py:121 | An exception from the generator abandons the keyword before anything is posted or written |
| `Monitors.AbandonedKeywordStops` | src/services/monitors/base_monitor.py:103-174 | Once a keyword is abandoned, its remaining mentions are not looked at |
| `Monitors.RunMentionsNext` | src/services/monitors/base_monitor.py:103-174 | The next mention of a live keyword is handled by one step, and a step that abandons the keyword ends its run |
| `Monitors.BaseMonitor.constructor` | src/services/monitors/base_monitor.py:10-22 | The monitor keeps its database, platform hooks and responder |
| `Monitors.BaseMonitor.SendReply` | src/services/monitors/base_monitor.py:135-171 | The ledger becomes what `Respond` describes, and the result is whether the reply was counted |
| `Monitors.BaseMonitor.HandleMention` | src/services/monitors/base_monitor.py:106-171 | The ledger, the count and the abandon flag are those of `MentionStep` |
| `Monitors.BaseMonitor.HandleNext` | src/services/monitors/base_monitor.py:106-171 | One pass of the mention loop advances the fold `RunMentions` by one mention |
| `Monitors.BaseMonitor.HandleKeyword` | src/services/monitors/base_monitor.py:100-174 | The ledger and the added count are those of `KeywordStep` |
| `Monitors.BaseMonitor.ProcessMentions` | src/services/monitors/base_monitor.py:85-181 | The ledger and the returned count are those of the fold `RunKeywords`, about which `ProcessMentionsPromises` is proved |
| `Reddit.PostMention` | src/services/monitors/reddit_monitor.py:62-73 | A submission gives id 'post_'+id, content 'title. selftext', its author and its reddit.com URL |
| `Reddit.CommentMention` | src/services/monitors/reddit_monitor.py:80-88 | A comment gives id 'comment_'+id, its body, its author and its reddit.com URL |
| `Reddit.PostMentions` | src/services/monitors/reddit_monitor.py:61-73 | One mention per submission, in listing order |
| `Reddit.AppendPosts` | src/services/monitors/reddit_monitor.py:61-73 | The submission loop appends exactly `PostMentions` |
| `Reddit.AppendMatchingComments` | src/services/monitors/reddit_monitor.py:76-88 | The comment loop appends exactly the matching comments, in order |
| `Reddit.AppendKeywordMentions` | src/services/monitors/reddit_monitor.py:59-91 | One keyword appends its submissions and then its matching comments. A raising search adds nothing; a raising comment stream keeps the submissions |
| `Reddit.SearchMentions` | src/services/monitors/reddit_monitor.py:42-93 | Raises when unauthenticated; otherwise returns what every keyword contributes, in order |
| `Reddit.MatchingCommentsFilter` | src/services/monitors/reddit_monitor.py:76-78 | A comment is kept exactly when some keyword occurs in its body, ignoring case |
| `Reddit.CollectedIdsArePrefixed` | src/services/monitors/reddit_monitor.py:65-80 | Every collected id starts with 'post_' or 'comment_' |
| `Reddit.NativeId` | src/services/monitors/reddit_monitor.py:108 | Without '_' the id is unchanged; otherwise the result is what follows the first '_' |
| `Reddit.NativeIdRoundTrip` | src/services/monitors/reddit_monitor.py:108 | Splitting 'post_'+x or 'comment_'+x gives back x, even when x holds '_' |
| `Reddit.ReplyTarget` | src/services/monitors/reddit_monitor.py:111-119 | 'post_' ids go to a submission and 'comment_' ids to a comment, under the native id. Any other id has no target |
| `Reddit.ReplyGoesBackToSource` | src/services/monitors/reddit_monitor.py:95-121 | A mention built by the search is replied to on the object it was built from |
| `Reddit.PostReply` | src/services/monitors/reddit_monitor.py:95-125 | True exactly when authenticated, the prefix is known and the reply call returned. Every failure is False |
| `Reddit.IsOwnPost` | src/services/monitors/reddit_monitor.py:127-129 | The author equals the configured user name. An unset name matches nobody |
| `Reddit.AsPlatform` | src/services/monitors/reddit_monitor.py:15-40 | Name 'reddit' and the general keywords; searching one keyword at a time; `post_reply` never raises |
| `Mastodon.TagEnd` | src/services/monitors/mastodon_monitor.py:177 | A match of the lazy `<[^<]+?>` ends at a '>' after at least one character, with no '<' inside |
| `Mastodon.RemoveTags` | src/services/monitors/mastodon_monitor.py:177 | Removing tags never lengthens the text |
| `Mastodon.RemoveTagsKeepsChars` | src/services/monitors/mastodon_monitor.py:177 | Removing tags only drops characters |
| `Mastodon.RemoveTagsWithoutOpen` | src/services/monitors/mastodon_monitor.py:177 | Text without '<' is unchanged |
| `Mastodon.RemoveTagsDropsTag` | src/services/monitors/mastodon_monitor.py:177 | A tag `<t>` whose inside holds neither '<' nor '>' is dropped entirely |
| `Mastodon.StripHtmlProperties` | src/services/monitors/mastodon_monitor.py:164-181 | The plain text has no surrounding whitespace and holds only characters of the HTML. It is `strip()` when the HTML holds no '<' |
| `Mastodon.AppendOriginalStatuses` | src/services/monitors/mastodon_monitor.py:68-83 | The search loop appends exactly the non-boost statuses, in order |
| `Mastodon.AppendMatchingNotifications` | src/services/monitors/mastodon_monitor.py:94-112 | The notification loop appends exactly the statuses that mention a keyword, in order |
| `Mastodon.SearchMentions` | src/services/monitors/mastodon_monitor.py:43-117 | Raises when unauthenticated. Otherwise returns every keyword's search results, then the matching notifications (nothing when either raised) |
| `Mastodon.OriginalStatusesSkipBoosts` | src/services/monitors/mastodon_monitor.py:69-71 | Boosts never become mentions, and every other search result does |
| `Mastodon.NotificationsFilteredByKeyword` | src/services/monitors/mastodon_monitor.py:97-100 | A notification becomes a mention exactly when its plain text mentions a keyword |
| `Mastodon.SameStatusCanAppearTwice` | src/services/monitors/mastodon_monitor.py:68-112 | A status that is both found and notified is returned twice; the list is not de-duplicated |
| `Mastodon.ComposeReply` | src/services/monitors/mastodon_monitor.py:136-142 | The posted text always mentions '@acct'. It is prefixed with '@acct ' only when it did not already mention it |
| `Mastodon.PostReply` | src/services/monitors/mastodon_monitor.py:119-155 | True exactly when the status could be looked up and the composed reply posted, with its visibility, in reply to it |
| `Mastodon.IsOwnPost` | src/services/monitors/mastodon_monitor.py:157-162 | False before the credentials are known; afterwards, whether the author is the bot's user name |
| `Mastodon.AsPlatform` | src/services/monitors/mastodon_monitor.py:17-43 | Name 'mastodon'; the keywords are what `get_monitor_keywords` yields; searching one keyword at a time; `post_reply` never raises |
| `Monitors.GetMonitorKeywords` | src/services/monitors/youtube_monitor.py:30-32 | The platform's own keywords when configured, otherwise the general ones. Mastodon's `get_monitor_keywords` (mastodon_monitor.py:39-41) follows the same rule, and both `AsPlatform` members use it |
| `YouTube.GetCommentReplies` | src/services/monitors/youtube_monitor.py:149-190 | The kept replies of the listing, in order, or nothing when the call raised |
| `YouTube.Tagged` | src/services/monitors/youtube_monitor.py:136-138 | Every reply is tagged with its parent comment's id, and nothing else changes |
| `YouTube.AppendTagged` | src/services/monitors/youtube_monitor.py:136-138 | The tagging loop appends exactly the tagged replies |
| `YouTube.AppendThread` | src/services/monitors/youtube_monitor.py:125-138 | A kept thread appends its top-level comment, then its tagged kept replies when it has any |
| `YouTube.GetVideoComments` | src/services/monitors/youtube_monitor.py:90-147 | The comments of every kept thread, in order, or nothing when the thread listing raised |
| `YouTube.VideoMentionsLinkBack` | src/services/monitors/youtube_monitor.py:71-81 | One mention per comment, in order. Each keeps the comment's id, text and parent, and links to the comment under its video |
| `YouTube.AppendVideoMentions` | src/services/monitors/youtube_monitor.py:71-81 | The comment loop appends exactly the video's mentions |
| `YouTube.AppendKeywordMentions` | src/services/monitors/youtube_monitor.py:64-81 | The video loop appends the mentions of every found video, in order |
| `YouTube.SearchMentions` | src/services/monitors/youtube_monitor.py:34-88 | Raises when unauthenticated; otherwise returns what every keyword contributes, in order |
| `YouTube.KeptRepliesMatch` | src/services/monitors/youtube_monitor.py:172-177 | Every kept reply satisfies the keyword rule and has no parent yet |
| `YouTube.ThreadCommentsMatch` | src/services/monitors/youtube_monitor.py:116-138 | Every listed comment, top-level or reply, satisfies the keyword rule |
| `YouTube.BlockRepliesFollowParent` | src/services/monitors/youtube_monitor.py:125-138 | Appending one thread keeps every reply right after its parent, with only its siblings in between |
| `YouTube.ThreadRepliesFollowParents` | src/services/monitors/youtube_monitor.py:116-138 | In the whole listing, each reply comes after its parent, with only siblings in between |
| `YouTube.RepliesOfFilteredThreadsUnread` | src/services/monitors/youtube_monitor.py:121-135 | Replies are fetched only for kept threads that have replies |
| `YouTube.PostReply` | src/services/monitors/youtube_monitor.py:192-227 | Replying always fails |
| `YouTube.IsOwnPost` | src/services/monitors/youtube_monitor.py:229-239 | Without a configured channel name nothing is own; otherwise, whether the author is that name |
| `YouTube.AsPlatform` | src/services/monitors/youtube_monitor.py:16-48 | Name 'youtube'; the keywords are what `get_monitor_keywords` yields; searching one keyword at a time; `post_reply` always answers False |
| `YouTube.YouTubeRunRecordsNothing` | src/services/monitors/youtube_monitor.py:192-227 | A YouTube run leaves the ledger unchanged and returns 0, unless the operator prompt raises |

## Left out

- Printing, timestamps (`processed_at`, `_get_timestamp`), the autoincrement row id, the `metrics` table and the database file path are not modelled. They do not affect decisions.
- The transformer pipelines, the embedding model, cosine similarity and the Ollama client (`ollama_client.py`) are inputs, not computations. The model takes their outputs as given.
- `MLModels.embed_text` and the unused `canned_response_embeddings` / "response" match branch are not modelled.
- `find_similar_response`'s `top_k` only changes how many candidates are listed before the first is taken, so it is not modelled.
- `authenticate` on every platform, and `stream_timeline` on Mastodon, are not modelled. Authentication is the `authenticated` flag of each session.
- `Text.Lower`: lower-cases ASCII letters only, where Python's `lower()` covers all of Unicode.
- `Mastodon.StripHtml`: `html.unescape` is not modelled; entities stay as written.
- `Models.Database.MarkProcessed`: `sqlite` storage failures are not modelled. SQL NULLs are not modelled either, so every column holds a value.
- API listings are modelled as whole answers or raised exceptions, so a lazy listing that fails partway is not modelled.
- `YouTube.GetVideoComments`: treats any failure of the thread listing as "no comments". In the code, an error other than `HttpError` escapes to `search_mentions` and ends that keyword's remaining videos.
- The `limit` / `maxResults` arguments of the API calls are not modelled: a listing is whatever the API returned.
- Fields of mention dictionaries that the core never reads are not modelled: `type`, `subreddit`, `title`, `video_id`, `video_title`, `likes`, `published_at`, `visibility`, `created_at`, `in_reply_to_id`, `author_full`.
- `validate_response`'s `original_post` argument is never used, so it is not modelled.
- The operator prompt (`input`) is a parameter of the responder: its answers, or an exception.
- The `hasattr` test on `INTERACTIVE_MODE` is folded into the responder's `interactive` flag.
- `src/main.py` (the scheduler that calls each monitor) and `src/services/ollama_client.py` are not part of this model.
