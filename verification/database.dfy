/** The processing ledger and the canned-response catalogue (src/models/database.py).
    The sqlite tables are the fields of class `Database`, rows in insertion order. */
module Models {

  /** A row of `processed_posts`. The autoincrement `id` is the row's position and the
      `processed_at` timestamp is not modelled. */
  datatype ProcessedPost = ProcessedPost(
    postId: string,
    platform: string,
    content: string,
    author: string,
    intent: string,
    sentiment: string,
    confidence: real,
    responseSent: string,
    responseType: string,
    similarityScore: real)

  /** A row of `canned_responses` (the unused `embedding` column is left out). */
  datatype CannedRow = CannedRow(id: int, keyword: string, responseTemplate: string, category: string, intent: string)

  /** The dictionary `get_all_canned_responses` builds for a catalogue row. */
  datatype CannedResponse = CannedResponse(id: int, keyword: string, text: string, category: string, intent: string)

  /** What `get_stats` reports. */
  datatype Stats = Stats(totalProcessed: nat, cannedResponses: nat, aiResponses: nat, avgConfidence: real, avgSimilarity: real)

  predicate HasPostId(rows: seq<ProcessedPost>, postId: string) {
    exists i :: 0 <= i < |rows| && rows[i].postId == postId
  }

  /** The UNIQUE constraint on `post_id`. */
  ghost predicate UniquePostIds(rows: seq<ProcessedPost>) {
    forall i, j :: 0 <= i < j < |rows| ==> rows[i].postId != rows[j].postId
  }

  /** The table viewed as a map keyed by `post_id`. */
  function Table(rows: seq<ProcessedPost>): map<string, ProcessedPost>
  {
    if rows == [] then map[]
    else Table(rows[..|rows| - 1])[rows[|rows| - 1].postId := rows[|rows| - 1]]
  }

  /** A key is in the table exactly when some row carries it, and with unique keys
      every row is found under its own key. */
  lemma {:induction false} TableAgreesWithRows(rows: seq<ProcessedPost>)
    ensures forall id :: id in Table(rows) <==> HasPostId(rows, id)
    ensures UniquePostIds(rows) ==> forall i :: 0 <= i < |rows| ==> rows[i].postId in Table(rows) && Table(rows)[rows[i].postId] == rows[i]
  {
    if rows != [] {
      var init := rows[..|rows| - 1];
      TableAgreesWithRows(init);
      forall id ensures id in Table(rows) <==> HasPostId(rows, id) {
        if HasPostId(rows, id) && id != rows[|rows| - 1].postId {
          var i :| 0 <= i < |rows| && rows[i].postId == id;
          assert init[i].postId == id;
        }
        if HasPostId(init, id) {
          var i :| 0 <= i < |init| && init[i].postId == id;
          assert rows[i].postId == id;
        }
      }
      if UniquePostIds(rows) {
        forall i | 0 <= i < |rows| ensures rows[i].postId in Table(rows) && Table(rows)[rows[i].postId] == rows[i] {
          if i < |rows| - 1 {
            assert init[i] == rows[i];
          }
        }
      }
    }
  }

  /** Number of rows whose `response_type` is `t`. */
  function CountType(rows: seq<ProcessedPost>, t: string): (n: nat)
    ensures n <= |rows|
  {
    if rows == [] then 0
    else (if rows[0].responseType == t then 1 else 0) + CountType(rows[1..], t)
  }

  function SumConfidence(rows: seq<ProcessedPost>): real {
    if rows == [] then 0.0 else rows[0].confidence + SumConfidence(rows[1..])
  }

  function SumSimilarity(rows: seq<ProcessedPost>): real {
    if rows == [] then 0.0 else rows[0].similarityScore + SumSimilarity(rows[1..])
  }

  /** SQL `AVG`, which is NULL on no rows; `or 0` turns that into 0. */
  function Average(sum: real, count: nat): real {
    if count == 0 then 0.0 else sum / count as real
  }

  /** The one-row aggregate `get_stats` selects. */
  function StatsOf(rows: seq<ProcessedPost>): Stats {
    Stats(|rows|, CountType(rows, "canned"), CountType(rows, "ai"),
          Average(SumConfidence(rows), |rows|), Average(SumSimilarity(rows), |rows|))
  }

  /** A row is counted as canned, as ai, or as neither, never as both. */
  lemma {:induction false} CannedPlusAiAtMostTotal(rows: seq<ProcessedPost>)
    ensures CountType(rows, "canned") + CountType(rows, "ai") <= |rows|
  {
    if rows != [] {
      CannedPlusAiAtMostTotal(rows[1..]);
    }
  }

  lemma {:induction false} CountTypeAppend(rows: seq<ProcessedPost>, row: ProcessedPost, t: string)
    ensures CountType(rows + [row], t) == CountType(rows, t) + (if row.responseType == t then 1 else 0)
  {
    if rows != [] {
      assert (rows + [row])[1..] == rows[1..] + [row];
      CountTypeAppend(rows[1..], row, t);
    } else {
      assert [] + [row] == [row];
    }
  }

  /** Inserting one row adds one to the total, and one to the canned or ai count only when
      that is its type: 'fallback', 'safe_fallback' and 'failed' rows count toward the
      total and toward neither. */
  lemma StatsAfterInsert(rows: seq<ProcessedPost>, row: ProcessedPost)
    ensures StatsOf(rows + [row]).totalProcessed == StatsOf(rows).totalProcessed + 1
    ensures StatsOf(rows + [row]).cannedResponses == StatsOf(rows).cannedResponses + (if row.responseType == "canned" then 1 else 0)
    ensures StatsOf(rows + [row]).aiResponses == StatsOf(rows).aiResponses + (if row.responseType == "ai" then 1 else 0)
  {
    CountTypeAppend(rows, row, "canned");
    CountTypeAppend(rows, row, "ai");
  }

  /** The sqlite database: `processed_posts` and `canned_responses`. */
  class Database {
    var processed: seq<ProcessedPost>
    var canned: seq<CannedRow>

    ghost predicate Valid()
      reads this
    {
      UniquePostIds(processed)
    }

    /** Opening a database file whose tables already hold these rows. */
    constructor (processed: seq<ProcessedPost>, canned: seq<CannedRow>)
      requires UniquePostIds(processed)
      ensures Valid()
      ensures this.processed == processed && this.canned == canned
    {
      this.processed := processed;
      this.canned := canned;
    }

    /** `get_all_canned_responses`: one entry per row, in row order, with the
        `response_template` column exposed as `text`. */
    function GetAllCannedResponses(): (r: seq<CannedResponse>)
      reads this
      ensures |r| == |canned|
      ensures forall i :: 0 <= i < |canned| ==>
        r[i].text == canned[i].responseTemplate &&
        r[i].id == canned[i].id && r[i].keyword == canned[i].keyword &&
        r[i].category == canned[i].category && r[i].intent == canned[i].intent
    {
      seq(|canned|, i reads this requires 0 <= i < |canned| =>
        CannedResponse(canned[i].id, canned[i].keyword, canned[i].responseTemplate, canned[i].category, canned[i].intent))
    }

    /** `is_processed`: whether the table has a row under `postId`. */
    function IsProcessed(postId: string): (r: bool)
      reads this
      ensures r <==> postId in Table(processed)
    {
      TableAgreesWithRows(processed);
      HasPostId(processed, postId)
    }

    /** `mark_processed`: a single INSERT. A second insert under an existing `post_id`
        violates the UNIQUE constraint and raises; `inserted` is false then and the
        table is unchanged. */
    method MarkProcessed(row: ProcessedPost) returns (inserted: bool)
      requires Valid()
      modifies this
      ensures Valid()
      ensures inserted <==> !old(IsProcessed(row.postId))
      ensures processed == if inserted then old(processed) + [row] else old(processed)
      ensures inserted ==> Table(processed) == old(Table(processed))[row.postId := row]
      ensures IsProcessed(row.postId)
      ensures canned == old(canned)
    {
      inserted := !HasPostId(processed, row.postId);
      if inserted {
        processed := processed + [row];
      }
      TableAgreesWithRows(processed);
    }

    /** `get_stats`: counts by response type and the averages of the real columns. */
    function GetStats(): (s: Stats)
      reads this
      ensures s.totalProcessed == |processed|
      ensures s.cannedResponses == CountType(processed, "canned") && s.aiResponses == CountType(processed, "ai")
      ensures s.cannedResponses + s.aiResponses <= s.totalProcessed
      ensures processed == [] ==> s == Stats(0, 0, 0, 0.0, 0.0)
    {
      CannedPlusAiAtMostTotal(processed);
      StatsOf(processed)
    }
  }
}
