/** `TrendingVideoAgent.process_query` (app/entrypoint_agent/agent.py): the
    pipeline prompt -> category -> videos -> ranking -> narrative -> stored
    analysis -> response. Every external service is an oracle held by the
    agent; the database is an `AnalysisStore`. */
module Agent {
  import opened Common
  import opened Json
  import opened Videos
  import opened YouTubeService
  import opened LlmHandler
  import opened TrendRecords

  /** The services the agent was built with. `categoryModel` is the
      category-extraction completion for a prompt, `toFloat` is Python's
      `float()` on a string. */
  datatype Services = Services(
    categoryModel: string -> Completion,
    platform: Platform,
    ageOf: string -> Option<int>,
    trendModel: TrendModel,
    parse: string -> Option<Json>,
    toFloat: string -> Option<real>)

  /** One entry of the response's `videos`: the raw values, absent ones as
      `None`, and the engagement score (0 when unannotated). */
  datatype AgentVideo = AgentVideo(
    id: Option<string>,
    title: Option<string>,
    channelTitle: Option<string>,
    publishedAt: Option<string>,
    thumbnail: Option<string>,
    viewCount: Count,
    likeCount: Count,
    commentCount: Count,
    engagementScore: real)

  function AgentVideoOf(v: Video): (r: AgentVideo)
    ensures r.viewCount == v.viewCount && r.likeCount == v.likeCount && r.commentCount == v.commentCount
    ensures r.engagementScore == (if v.engagement.Some? then v.engagement.value.score else 0.0)
  {
    AgentVideo(v.id, v.title, v.channelTitle, v.publishedAt, v.thumbnail,
               v.viewCount, v.likeCount, v.commentCount, ScoreKey(v))
  }

  /** The formatting loop over the ranked videos. */
  method FormatVideos(ranked: array<Video>) returns (formatted: seq<AgentVideo>)
    ensures |formatted| == ranked.Length
    ensures forall i :: 0 <= i < ranked.Length ==> formatted[i] == AgentVideoOf(ranked[i])
  {
    formatted := [];
    var i := 0;
    while i < ranked.Length
      invariant 0 <= i <= ranked.Length && |formatted| == i
      invariant forall k :: 0 <= k < i ==> formatted[k] == AgentVideoOf(ranked[k])
    {
      formatted := formatted + [AgentVideoOf(ranked[i])];
      i := i + 1;
    }
  }

  function Format(vs: seq<Video>): (r: seq<AgentVideo>)
    ensures |r| == |vs| && forall i :: 0 <= i < |vs| ==> r[i] == AgentVideoOf(vs[i])
  {
    seq(|vs|, i requires 0 <= i < |vs| => AgentVideoOf(vs[i]))
  }

  /** The `TrendAnalysis` row built from the analysis and the fetched list
      (annotated in place by the ranker). Building it raises when the
      analysis is not a dict, when `float()` rejects the strength, or when
      `int()` rejects a count while averaging. */
  function RecordOf(userId: int, query: string, category: string, videos: seq<Video>,
                    formatted: seq<AgentVideo>, analysis: Json, toFloat: string -> Option<real>)
    : (r: Result<TrendAnalysis<AgentVideo>, Fault>)
    ensures !analysis.JObject? ==> r == Err(NotAMapping)
    ensures analysis.JObject? && FloatOf(Get(analysis, "trend_strength", JNum(5.0)).value, toFloat).None? ==>
              r == Err(StrengthNotFloat)
    ensures (exists i :: 0 <= i < |videos| && HasMalformedCount(videos[i])) ==> r.Err?
    // it succeeds for a dict whose strength `float()` accepts, over well-formed counts
    ensures (analysis.JObject? && FloatOf(Get(analysis, "trend_strength", JNum(5.0)).value, toFloat).Some?
             && forall i :: 0 <= i < |videos| ==> !HasMalformedCount(videos[i]))
            ==> r.Ok?
    ensures r.Ok? ==>
      && r.value.trendStrength == FloatOf(Get(analysis, "trend_strength", JNum(5.0)).value, toFloat).value
      && r.value.summary == Get(analysis, "summary", JStr("")).value
      && r.value.insights == Get(analysis, "insights", JStr("")).value
      && r.value.recommendations == Get(analysis, "recommendations", JStr("")).value
    ensures r.Ok? ==>
      && r.value.userId == userId && r.value.query == query && r.value.platform == PlatformName
      && r.value.metrics.videoCount == |videos|
      && r.value.metrics.avgViews == Average(videos, Views).value
      && r.value.metrics.avgLikes == Some(Average(videos, Likes).value)
      && r.value.metrics.avgComments == Some(Average(videos, Comments).value)
      && r.value.fullResponse == Snapshot(category, formatted, analysis)
      && r.value.trendDirection == Get(analysis, "trend_direction", JStr("stable")).value
  {
    match Get(analysis, "trend_strength", JNum(5.0))
    case None => Err(NotAMapping)
    case Some(strength) =>
      match FloatOf(strength, toFloat)
      case None => Err(StrengthNotFloat)
      case Some(s) =>
        match (Average(videos, Views), Average(videos, Likes), Average(videos, Comments))
        case (Ok(views), Ok(likes), Ok(comments)) =>
          Ok(TrendAnalysis(userId, query, PlatformName, s,
                           Get(analysis, "trend_direction", JStr("stable")).value,
                           Get(analysis, "summary", JStr("")).value,
                           Get(analysis, "insights", JStr("")).value,
                           Get(analysis, "recommendations", JStr("")).value,
                           Metrics(|videos|, views, Some(likes), Some(comments)),
                           Snapshot(category, formatted, analysis)))
        case (Err(e), _, _) => Err(e)
        case (_, Err(e), _) => Err(e)
        case (_, _, Err(e)) => Err(e)
  }

  /** The row depends on the list only through its length and counts, so
      building it from the annotated list is building it from the fetched one. */
  lemma RecordOfSameCounts(userId: int, query: string, category: string, a: seq<Video>, b: seq<Video>,
                           formatted: seq<AgentVideo>, analysis: Json, toFloat: string -> Option<real>)
    requires SameCounts(a, b)
    ensures RecordOf(userId, query, category, a, formatted, analysis, toFloat)
            == RecordOf(userId, query, category, b, formatted, analysis, toFloat)
  {
    TotalSameCounts(a, b, Views);
    TotalSameCounts(a, b, Likes);
    TotalSameCounts(a, b, Comments);
  }

  const FailureMessage := "An error occurred while processing your request"

  /** The dict `process_query` returns. */
  datatype QueryResponse =
    | NoVideos(message: string, category: string)
    | Succeeded(category: string, videos: seq<AgentVideo>, analysis: Json, analysisId: nat)
    | Failed(message: string, error: Fault)

  function CategoryOf(prompt: string, svc: Services): string {
    ExtractCategory(prompt, svc.categoryModel(prompt))
  }

  function Fetched(prompt: string, svc: Services): seq<Video> {
    GetTrendingVideos(svc.platform, CategoryOf(prompt, svc), DefaultMaxResults).videos
  }

  /** Everything before the database: the response for an empty fetch, or
      the row to store and the response fields, or the exception raised. */
  datatype Plan =
    | NothingFound(category: string)
    | Store(category: string, record: TrendAnalysis<AgentVideo>, videos: seq<AgentVideo>, analysis: Json)
    | Raise(fault: Fault)

  /** The plan for a category and the videos fetched for it. */
  function PlanOf(prompt: string, userId: int, svc: Services, category: string, videos: seq<Video>): (p: Plan)
    ensures p.NothingFound? <==> videos == []
    ensures p.NothingFound? ==> p.category == category
    // a count int() rejects anywhere in the fetched list always ends in an error response
    ensures (exists i :: 0 <= i < |videos| && HasMalformedCount(videos[i])) ==> p.Raise?
    // the row is the one built from the fetched list; it is stored exactly when building it succeeds
    ensures videos != [] ==>
      var ranked := Rank(videos, svc.ageOf);
      var row := RecordOf(userId, prompt, category, videos, Format(ranked),
                          Trends(ranked, category, svc.trendModel, svc.parse), svc.toFloat);
      && (p.Store? <==> row.Ok?)
      && (p.Store? ==> p.record == row.value)
      && (p.Raise? ==> p.fault == row.error)
    ensures p.Store? ==>
      var ranked := Rank(videos, svc.ageOf);
      && p.category == category
      && p.videos == Format(ranked)
      && p.analysis == Trends(ranked, category, svc.trendModel, svc.parse)
      && p.record.userId == userId && p.record.query == prompt
      && p.record.metrics.videoCount == |videos| == |p.videos|
      && p.record.fullResponse == Snapshot(category, p.videos, p.analysis)
  {
    if videos == [] then NothingFound(category)
    else
      var ranked := Rank(videos, svc.ageOf);
      var analysis := Trends(ranked, category, svc.trendModel, svc.parse);
      var annotated := AnnotatedPrefix(videos, svc.ageOf);
      RankSameCounts(videos, svc.ageOf, Views);
      RecordOfSameCounts(userId, prompt, category, annotated, videos, Format(ranked), analysis, svc.toFloat);
      match RecordOf(userId, prompt, category, annotated, Format(ranked), analysis, svc.toFloat)
      case Err(e) => Raise(e)
      case Ok(record) => Store(category, record, Format(ranked), analysis)
  }

  /** Steps 1 to 6 of `process_query`: the category, the fetch, and the plan
      for them. */
  function PlanFor(prompt: string, userId: int, svc: Services): Plan {
    PlanOf(prompt, userId, svc, CategoryOf(prompt, svc), Fetched(prompt, svc))
  }

  /** The response for an outcome of the plan and the commit. */
  function Respond(p: Plan, committed: Option<nat>): (r: QueryResponse)
    ensures r.NoVideos? <==> p.NothingFound?
    ensures r.NoVideos? ==> r.category == p.category && r.message == "No trending videos found for '" + p.category + "'"
    // success is reported exactly when there was a row to store and the commit gave it an id
    ensures r.Succeeded? <==> p.Store? && committed.Some?
    ensures r.Succeeded? ==> r.analysisId == committed.value && r.category == p.category
                             && r.videos == p.videos && r.analysis == p.analysis
    ensures r.Failed? ==> r.message == FailureMessage
    ensures r.Failed? && p.Raise? ==> r.error == p.fault
    ensures r.Failed? && p.Store? ==> r.error == StorageFailed
  {
    match p
    case NothingFound(category) => NoVideos("No trending videos found for '" + category + "'", category)
    case Raise(e) => Failed(FailureMessage, e)
    case Store(category, _, videos, analysis) =>
      if committed.Some? then Succeeded(category, videos, analysis, committed.value)
      else Failed(FailureMessage, StorageFailed)
  }

  class TrendingVideoAgent {
    const svc: Services

    constructor (svc: Services)
      ensures this.svc == svc
    {
      this.svc := svc;
    }

    /** Steps 1 to 6 of `process_query`, up to the row to store. */
    method Prepare(prompt: string, userId: int) returns (plan: Plan)
      ensures plan == PlanFor(prompt, userId, svc)
    {
      var category := ExtractCategory(prompt, svc.categoryModel(prompt));
      var videos := GetTrendingVideos(svc.platform, category, DefaultMaxResults).videos;
      plan := PlanFrom(prompt, userId, category, videos);
    }

    /** Steps 3 to 6: ranking in place, the trend call, the formatting loop
        and the row. */
    method PlanFrom(prompt: string, userId: int, category: string, videos: seq<Video>) returns (plan: Plan)
      ensures plan == PlanOf(prompt, userId, svc, category, videos)
    {
      if videos == [] {
        return NothingFound(category);
      }
      var list := new Video[|videos|](i requires 0 <= i < |videos| => videos[i]);
      assert list[..] == videos;
      var ranked := AnalyzeEngagement(list, svc.ageOf);
      var analysis := AnalyzeTrends(ranked[..], category, svc.trendModel, svc.parse);
      var formatted := FormatVideos(ranked);
      assert formatted == Format(ranked[..]);
      var record := RecordOf(userId, prompt, category, list[..], formatted, analysis, svc.toFloat);
      if record.Err? {
        return Raise(record.error);
      }
      plan := Store(category, record.value, formatted, analysis);
    }

    /** `process_query(user_prompt, user_id, db)`. Every exception becomes an
        error response and the session is rolled back, which undoes an
        uncommitted row but not a committed one: when `refresh` raises after
        the commit, the failure response leaves the planned row stored. */
    method ProcessQuery(prompt: string, userId: int, db: AnalysisStore<AgentVideo>) returns (response: QueryResponse)
      requires db.Valid()
      modifies db
      ensures db.Valid()
      ensures response == Respond(PlanFor(prompt, userId, svc), if response.Succeeded? then Some(response.analysisId) else None)
      ensures response.Succeeded? ==>
                PlanFor(prompt, userId, svc).Store? && !old(db.HasId(response.analysisId))
                && db.rows == old(db.rows) + [Row(response.analysisId, PlanFor(prompt, userId, svc).record)]
      ensures !response.Succeeded? && !PlanFor(prompt, userId, svc).Store? ==> db.rows == old(db.rows)
      ensures !response.Succeeded? && PlanFor(prompt, userId, svc).Store? ==>
                || db.rows == old(db.rows)
                || db.rows == old(db.rows) + [Row(old(db.nextId), PlanFor(prompt, userId, svc).record)]
    {
      var plan := Prepare(prompt, userId);
      if !plan.Store? {
        return Respond(plan, None);
      }
      var outcome := db.Commit(plan.record);
      response := Respond(plan, if outcome.Stored? then Some(outcome.id) else None);
    }
  }
}
