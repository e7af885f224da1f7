/** The `POST /analyze` route (app/api/trending.py, `analyze_trending`): the
    prompt itself is the category, the search asks for 20 results, the
    narrative is fixed, and the attempt to store the analysis for a signed-in
    user can only raise and be swallowed. */
module TrendingApi {
  import opened Common
  import opened Json
  import opened Videos
  import opened YouTubeService
  import opened TrendRecords
  import Security

  const ApiMaxResults: nat := 20
  const StoredVideos := 10

  /** One entry of the response's `videos`, with the route's defaults. */
  datatype ApiVideo = ApiVideo(
    id: Option<string>,
    title: string,
    channelTitle: string,
    publishedAt: string,
    thumbnail: string,
    viewCount: int,
    likeCount: int,
    commentCount: int,
    engagementScore: real)

  /** One iteration of the formatting loop; `int()` raises on a malformed count. */
  function ApiVideoOf(v: Video): (r: Result<ApiVideo, Fault>)
    ensures r.Err? <==> HasMalformedCount(v)
    ensures r.Ok? ==>
      && r.value.id == v.id
      && r.value.title == v.title.GetOr("Untitled")
      && r.value.channelTitle == v.channelTitle.GetOr("Unknown Channel")
      && r.value.publishedAt == v.publishedAt.GetOr("")
      && r.value.thumbnail == v.thumbnail.GetOr("")
      && r.value.engagementScore == ScoreKey(v)
    ensures r.Ok? ==> r.value.viewCount == IntOf(v.viewCount).value && r.value.likeCount == IntOf(v.likeCount).value
                      && r.value.commentCount == IntOf(v.commentCount).value
    ensures r.Ok? && v.viewCount.Absent? ==> r.value.viewCount == 0
  {
    match (IntOf(v.viewCount), IntOf(v.likeCount), IntOf(v.commentCount))
    case (Ok(views), Ok(likes), Ok(comments)) =>
      Ok(ApiVideo(v.id, v.title.GetOr("Untitled"), v.channelTitle.GetOr("Unknown Channel"),
                  v.publishedAt.GetOr(""), v.thumbnail.GetOr(""), views, likes, comments, ScoreKey(v)))
    case (Err(e), _, _) => Err(e)
    case (_, Err(e), _) => Err(e)
    case (_, _, Err(e)) => Err(e)
  }

  /** The formatting loop: one entry per ranked video, in ranked order, or
      the first `int()` error. */
  method FormatApiVideos(ranked: array<Video>) returns (r: Result<seq<ApiVideo>, Fault>)
    ensures r.Err? <==> exists i :: 0 <= i < ranked.Length && HasMalformedCount(ranked[i])
    ensures r.Ok? ==> |r.value| == ranked.Length
    ensures r.Ok? ==> forall i :: 0 <= i < ranked.Length ==> ApiVideoOf(ranked[i]) == Ok(r.value[i])
  {
    var formatted: seq<ApiVideo> := [];
    var i := 0;
    while i < ranked.Length
      invariant 0 <= i <= ranked.Length && |formatted| == i
      invariant forall k :: 0 <= k < i ==> ApiVideoOf(ranked[k]) == Ok(formatted[k])
    {
      var entry := ApiVideoOf(ranked[i]);
      if entry.Err? {
        return Err(entry.error);
      }
      formatted := formatted + [entry.value];
      i := i + 1;
    }
    r := Ok(formatted);
  }

  /** The narrative the route always returns. */
  function FixedNarrative(category: string): Json {
    Narrative(7.0, "growing",
              "Analysis of trending " + category + " videos on YouTube",
              "These videos about " + category + " are gaining popularity with high engagement",
              "Consider creating content about " + category + " with similar engaging aspects to these trending videos")
  }

  /** The token the persistence block tries to decode, if it gets that far.
      `replace` removes every `Bearer ` in the cookie, not just the first. The
      import of `decode_access_token` that follows raises (security.py
      defines no such function), so no user is ever found and no row is
      stored; the error is swallowed. */
  function LookupToken(cookie: Option<string>): (token: Option<string>)
    ensures token.Some? <==> cookie.Some? && cookie.value != [] && StartsWith(cookie.value, Security.BearerPrefix)
    ensures token.Some? ==> token.value == RemoveAll(cookie.value, Security.BearerPrefix)
  {
    if cookie.Some? && cookie.value != [] && StartsWith(cookie.value, Security.BearerPrefix) then
      Some(RemoveAll(cookie.value, Security.BearerPrefix))
    else None
  }

  /** For a doubled prefix the route's `replace` and the `token[7:]` of
      `get_current_user` disagree. */
  lemma ReplaceStripsEveryPrefix()
    ensures LookupToken(Some("Bearer Bearer t")) == Some("t")
    ensures Security.StripBearer("Bearer Bearer t") == "Bearer t"
  {
    assert StartsWith("Bearer Bearer t", Security.BearerPrefix);
    assert "Bearer Bearer t"[..7] == "Bearer ";
    assert "Bearer Bearer t"[7..] == "Bearer t";
    assert "Bearer t"[..7] == "Bearer ";
    assert "Bearer t"[7..] == "t";
    assert RemoveAll("t", "Bearer ") == "t";
    assert RemoveAll("Bearer t", "Bearer ") == "t";
  }

  /** The row the persistence block would build for a known user: only
      `video_count` and `avg_views` in the metrics, over the list as fetched,
      and only the first ten formatted videos in the snapshot. */
  function ApiRecordOf(userId: int, prompt: string, category: string, videos: seq<Video>,
                       formatted: seq<ApiVideo>): (r: Result<TrendAnalysis<ApiVideo>, Fault>)
    ensures r.Err? <==> exists i :: 0 <= i < |videos| && videos[i].viewCount.NonNumeric?
    ensures r.Ok? ==>
      && r.value.userId == userId && r.value.query == prompt && r.value.platform == PlatformName
      && r.value.trendStrength == 7.0
      && r.value.metrics == Metrics(|videos|, Average(videos, Views).value, None, None)
      && r.value.fullResponse == Snapshot(category, formatted[..Min(StoredVideos, |formatted|)], FixedNarrative(category))
  {
    var narrative := FixedNarrative(category);
    match Average(videos, Views)
    case Err(e) => Err(e)
    case Ok(avgViews) =>
      Ok(TrendAnalysis(userId, prompt, PlatformName, 7.0,
                       JStr("growing"), narrative.fields["summary"], narrative.fields["insights"],
                       narrative.fields["recommendations"],
                       Metrics(|videos|, avgViews, None, None),
                       Snapshot(category, formatted[..Min(StoredVideos, |formatted|)], narrative)))
  }

  /** What the route answers: the success object, the not-found object, or
      an `HTTPException` (status 500, detail "An error occurred: " and the
      error). */
  datatype ApiResponse =
    | Found(category: string, videos: seq<ApiVideo>, analysis: Json)
    | NotFound(message: string, category: string)
    | ServerError(status: nat, error: Fault)

  function ApiFetched(prompt: string, platform: Platform): seq<Video> {
    GetTrendingVideos(platform, PyStrip(prompt), ApiMaxResults).videos
  }

  /** The answer for a category and the videos fetched for it. */
  function Outcome(category: string, videos: seq<Video>, ageOf: string -> Option<int>): (r: ApiResponse)
    ensures r.NotFound? <==> videos == []
    ensures r.NotFound? ==> r == NotFound("No trending videos found for '" + category + "'", category)
    // the only fault outside the persistence block is a malformed count
    ensures r.ServerError? <==> exists i :: 0 <= i < |videos| && HasMalformedCount(videos[i])
    ensures r.ServerError? ==> r.status == 500 && r.error.MalformedCount?
    ensures r.Found? ==>
      var ranked := Rank(videos, ageOf);
      && r.category == category && r.analysis == FixedNarrative(category)
      && |r.videos| == |ranked| == |videos|
      && forall i :: 0 <= i < |ranked| ==> ApiVideoOf(ranked[i]) == Ok(r.videos[i])
  {
    if videos == [] then NotFound("No trending videos found for '" + category + "'", category)
    else
      var ranked := Rank(videos, ageOf);
      RankKeepsMalformed(videos, ageOf);
      RankSameCounts(videos, ageOf, Views);
      match FormatAll(ranked)
      case Err(e) => ServerError(500, e)
      case Ok(formatted) => Found(category, formatted, FixedNarrative(category))
  }

  /** The answer to a prompt: the stripped prompt is the category. */
  function ApiResult(prompt: string, platform: Platform, ageOf: string -> Option<int>): (r: ApiResponse)
    ensures var videos := ApiFetched(prompt, platform);
            && (r.NotFound? <==> videos == [])
            && (r.ServerError? <==> exists i :: 0 <= i < |videos| && HasMalformedCount(videos[i]))
            && (r.Found? ==> r.analysis == FixedNarrative(PyStrip(prompt)) && |r.videos| == |videos|)
    ensures !r.ServerError? ==> r.category == PyStrip(prompt)
  {
    Outcome(PyStrip(prompt), ApiFetched(prompt, platform), ageOf)
  }

  /** The formatting loop as a value. */
  function FormatAll(vs: seq<Video>): (r: Result<seq<ApiVideo>, Fault>)
    ensures r.Err? <==> exists i :: 0 <= i < |vs| && HasMalformedCount(vs[i])
    ensures r.Err? ==> r.error.MalformedCount?
    ensures r.Ok? ==> |r.value| == |vs| && forall i :: 0 <= i < |vs| ==> ApiVideoOf(vs[i]) == Ok(r.value[i])
  {
    if vs == [] then Ok([])
    else
      match ApiVideoOf(vs[0])
      case Err(e) => Err(e)
      case Ok(entry) =>
        match FormatAll(vs[1..])
        case Err(e) =>
          assert exists i :: 0 <= i < |vs[1..]| && HasMalformedCount(vs[1..][i]);
          Err(e)
        case Ok(rest) =>
          assert forall i :: 1 <= i < |vs| ==> vs[i] == vs[1..][i - 1];
          Ok([entry] + rest)
  }

  /** Ranking in place and the formatting loop over the ranked list. */
  method RankAndFormat(videos: seq<Video>, ageOf: string -> Option<int>) returns (formatted: Result<seq<ApiVideo>, Fault>)
    ensures formatted == FormatAll(Rank(videos, ageOf))
  {
    var list := new Video[|videos|](i requires 0 <= i < |videos| => videos[i]);
    assert list[..] == videos;
    var ranked := AnalyzeEngagement(list, ageOf);
    formatted := FormatApiVideos(ranked);
    if formatted.Err? {
      assert FormatAll(ranked[..]).Err?;
      formatted := Err(FormatAll(ranked[..]).error);
    } else {
      var whole := FormatAll(ranked[..]);
      assert whole.Ok?;
      assert |whole.value| == |formatted.value|;
      assert forall i :: 0 <= i < |whole.value| ==> whole.value[i] == formatted.value[i] by {
        forall i | 0 <= i < |whole.value| ensures whole.value[i] == formatted.value[i] {
          assert ApiVideoOf(ranked[..][i]) == Ok(whole.value[i]);
          assert ApiVideoOf(ranked[i]) == Ok(formatted.value[i]);
        }
      }
      assert whole.value == formatted.value;
    }
  }

  /** `analyze_trending(request_data, request, db)` given the `access_token`
      cookie. `lookup` is the token whose decoding was attempted, if any;
      that attempt raises, is swallowed, and changes nothing in the answer. */
  method AnalyzeTrending(prompt: string, cookie: Option<string>, platform: Platform, ageOf: string -> Option<int>)
    returns (response: ApiResponse, lookup: Option<string>)
    ensures response == ApiResult(prompt, platform, ageOf)
    ensures lookup == (if response.Found? then LookupToken(cookie) else None)
  {
    lookup := None;
    var category := PyStrip(prompt);
    var videos := GetTrendingVideos(platform, category, ApiMaxResults).videos;
    assert videos == ApiFetched(prompt, platform);
    if videos == [] {
      return NotFound("No trending videos found for '" + category + "'", category), None;
    }
    var formatted := RankAndFormat(videos, ageOf);
    if formatted.Err? {
      return ServerError(500, formatted.error), None;
    }
    var analysis := FixedNarrative(category);
    var token := cookie;
    if token.Some? && token.value != [] && StartsWith(token.value, Security.BearerPrefix) {
      lookup := Some(RemoveAll(token.value, Security.BearerPrefix));
    }
    response := Found(category, formatted.value, analysis);
  }
}
