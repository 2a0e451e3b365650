/** The configuration values the core reads from `Config` (src/config/settings.py).
    Environment-derived values (credentials, user names) are parameters of the
    members that read them, not constants. */
module Settings {

  /** Similarity at or above which a canned response is used verbatim. */
  const CANNED_RESPONSE_THRESHOLD: real := 0.75

  /** Bounds that `validate_response` applies to a reply. */
  const MAX_RESPONSE_LENGTH: nat := 280
  const MIN_RESPONSE_LENGTH: nat := 20

  /** Candidate labels of the zero-shot intent classifier, in configured order. */
  const INTENT_LABELS: seq<string> := [
    "pricing and costs",
    "technical support issue",
    "positive feedback",
    "complaint or negative feedback",
    "feature request",
    "general question",
    "spam or irrelevant",
    "question about availability"
  ]

  /** Keywords monitored on Reddit and used as the fallback elsewhere. */
  const MONITOR_KEYWORDS: seq<string> := ["Draesontel"]
  const YOUTUBE_KEYWORDS: seq<string> := ["Draesontel"]
  const MASTODON_KEYWORDS: seq<string> := ["Draesontel"]

  /** Ask the operator before each reply is posted. */
  const INTERACTIVE_MODE: bool := true
}
