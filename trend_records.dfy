/** The `trend_analyses` table (app/models/trend_analysis.py) and the
    database session that appends to it. A row keeps the analysis fields as
    the JSON values they came from; `metrics` and `full_response` are kept as
    the structures that get serialised, not as text. */
module TrendRecords {
  import opened Common
  import opened Json

  /** The `metrics` object. The API route writes only the first two keys. */
  datatype Metrics = Metrics(videoCount: nat, avgViews: real, avgLikes: Option<real>, avgComments: Option<real>)

  /** The `full_response` object: category, formatted videos, analysis. */
  datatype Snapshot<V> = Snapshot(category: string, videos: seq<V>, analysis: Json)

  datatype TrendAnalysis<V> = TrendAnalysis(
    userId: int,
    query: string,
    platform: string,
    trendStrength: real,
    trendDirection: Json,
    summary: Json,
    insights: Json,
    recommendations: Json,
    metrics: Metrics,
    fullResponse: Snapshot<V>)

  const PlatformName := "youtube"

  datatype Row<V> = Row(id: nat, analysis: TrendAnalysis<V>)

  /** `float(x)` on a JSON value: numbers as they are, booleans as 1 and 0,
      strings through `toFloat` (`None` where `float()` raises); `null`,
      lists and dicts raise `TypeError`. */
  function FloatOf(j: Json, toFloat: string -> Option<real>): (r: Option<real>)
    ensures j.JNum? ==> r == Some(j.n)
    ensures j.JNull? || j.JArray? || j.JObject? ==> r.None?
    ensures j.JBool? ==> r == Some(if j.b then 1.0 else 0.0)
    ensures j.JStr? ==> r == toFloat(j.s)
  {
    match j
    case JNum(n) => Some(n)
    case JBool(b) => Some(if b then 1.0 else 0.0)
    case JStr(s) => toFloat(s)
    case _ => None
  }

  /** How `add` + `commit` + `refresh` ends: the row stored and its id read
      back, the row committed but `refresh` raising so no id comes back, or
      the commit raising and nothing stored. */
  datatype CommitOutcome = Stored(id: nat) | Unconfirmed | Rejected

  class AnalysisStore<V> {
    var rows: seq<Row<V>>
    var nextId: nat

    /** Ids increase along the table and stay below the next one to hand out. */
    predicate Valid()
      reads this
    {
      (forall i, j :: 0 <= i < j < |rows| ==> rows[i].id < rows[j].id)
      && (forall i :: 0 <= i < |rows| ==> rows[i].id < nextId)
    }

    constructor ()
      ensures Valid() && rows == [] && nextId == 1
    {
      rows := [];
      nextId := 1;
    }

    predicate HasId(id: nat)
      reads this
    {
      exists i :: 0 <= i < |rows| && rows[i].id == id
    }

    /** Adds, commits and refreshes one row. Whether the database accepts it
        and whether the refresh succeeds is not up to the caller: each
        outcome can happen. A committed row stays, whatever `refresh` does. */
    method Commit(analysis: TrendAnalysis<V>) returns (outcome: CommitOutcome)
      requires Valid()
      modifies this
      ensures Valid()
      ensures outcome.Stored? ==> outcome.id == old(nextId) && !old(HasId(outcome.id))
      ensures !outcome.Rejected? ==> rows == old(rows) + [Row(old(nextId), analysis)] && nextId == old(nextId) + 1
      ensures outcome.Rejected? ==> rows == old(rows) && nextId == old(nextId)
    {
      var committed: bool :| true;
      if !committed {
        return Rejected;
      }
      rows := rows + [Row(nextId, analysis)];
      var refreshed: bool :| true;
      outcome := if refreshed then Stored(nextId) else Unconfirmed;
      nextId := nextId + 1;
    }
  }
}
