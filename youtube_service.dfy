/** `YouTubeService` (app/services/youtube_service.py): the three-tier search
    cascade and the engagement ranking. The YouTube client is an oracle: each
    request either raises or answers with ids (search) or video items
    (details, chart). The clock and ISO-8601 parsing are the oracle `ageOf`,
    which gives the whole days since a `publishedAt` timestamp, or `None`
    when `fromisoformat` raises. */
module YouTubeService {
  import opened Common
  import opened Videos

  datatype Reply<T> = Raised | Answered(items: T)

  function ItemsOr<T>(r: Reply<seq<T>>): seq<T> {
    if r.Answered? then r.items else []
  }

  /** search().list(q, maxResults) -> the `videoId`s of its items;
      videos().list(id=...) -> items; videos().list(chart, regionCode,
      maxResults) -> items. */
  datatype Platform = Platform(
    search: (string, nat) -> Reply<seq<string>>,
    details: string -> Reply<seq<Video>>,
    chart: (string, nat) -> Reply<seq<Video>>)

  /** One request made to the platform, as recorded in a trace. */
  datatype Call = SearchCall(term: string, maxResults: nat) | DetailsCall(ids: string) | ChartCall(region: string, maxResults: nat)

  /** What `get_trending_videos` returns, with the requests it made. */
  datatype Fetch = Fetch(videos: seq<Video>, calls: seq<Call>)

  const ChartRegion := "US"
  const DefaultMaxResults: nat := 10

  predicate Raises(p: Platform, c: Call) {
    match c
    case SearchCall(t, m) => p.search(t, m).Raised?
    case DetailsCall(ids) => p.details(ids).Raised?
    case ChartCall(r, m) => p.chart(r, m).Raised?
  }

  /** The last request of the cascade once the searches have settled on
      `ids`: the chart when there are none, otherwise one batched details
      request. */
  function FinalCall(ids: seq<string>, maxResults: nat): (c: Call)
    ensures c.ChartCall? <==> ids == []
  {
    if ids == [] then ChartCall(ChartRegion, maxResults) else DetailsCall(Join(ids, ","))
  }

  /** The last step of the cascade: the items the final request answers. */
  function FetchFor(p: Platform, ids: seq<string>, maxResults: nat, searches: seq<Call>): (r: Fetch)
    ensures r.calls == searches + [FinalCall(ids, maxResults)]
    ensures ids == [] ==> r.videos == ItemsOr(p.chart(ChartRegion, maxResults))
    ensures ids != [] ==> r.videos == ItemsOr(p.details(Join(ids, ",")))
  {
    if ids == [] then
      Fetch(ItemsOr(p.chart(ChartRegion, maxResults)), searches + [ChartCall(ChartRegion, maxResults)])
    else
      var joined := Join(ids, ",");
      Fetch(ItemsOr(p.details(joined)), searches + [DetailsCall(joined)])
  }

  /** The cascade broadens exactly when the first search answered with no
      ids and the category has more than one word. */
  predicate Broadens(p: Platform, category: string, words: seq<string>, maxResults: nat) {
    p.search(category, maxResults) == Answered([]) && |words| > 1
  }

  /** `get_trending_videos(category, max_results)` for a category whose
      `split()` is `words`. Any exception ends the whole call with `[]`, so
      the cascade never continues past a request that raised. The lemmas
      below state which requests it makes. */
  function Cascade(p: Platform, category: string, words: seq<string>, maxResults: nat): (r: Fetch)
    ensures 1 <= |r.calls| <= 3
    ensures r.calls[0] == SearchCall(category, maxResults)
    ensures forall i :: 0 <= i < |r.calls| && r.calls[i].SearchCall? ==> r.calls[i].maxResults == maxResults
  {
    var tier1 := SearchCall(category, maxResults);
    match p.search(category, maxResults)
    case Raised => Fetch([], [tier1])
    case Answered(ids) =>
      if ids == [] && |words| > 1 then
        var tier2 := SearchCall(words[0], maxResults);
        match p.search(words[0], maxResults)
        case Raised => Fetch([], [tier1, tier2])
        case Answered(broader) => FetchFor(p, broader, maxResults, [tier1, tier2])
      else
        FetchFor(p, ids, maxResults, [tier1])
  }

  /** `get_trending_videos(category, max_results)`: it searches the
      category first, broadens to its first word only when that found nothing
      and the category has several words, and answers `[]` once a request
      raised. */
  function GetTrendingVideos(p: Platform, category: string, maxResults: nat): (r: Fetch)
    ensures 1 <= |r.calls| <= 3
    ensures r.calls[0] == SearchCall(category, maxResults)
    ensures (|r.calls| >= 2 && r.calls[1].SearchCall?)
            <==> (p.search(category, maxResults) == Answered([]) && |Words(category)| > 1)
    ensures |r.calls| >= 2 && r.calls[1].SearchCall? ==> r.calls[1] == SearchCall(Words(category)[0], maxResults)
    ensures Raises(p, Last(r.calls)) ==> r.videos == []
  {
    var words := Words(category);
    CascadeBroadensOnce(p, category, words, maxResults);
    CascadeStopsAtFault(p, category, words, maxResults);
    Cascade(p, category, words, maxResults)
  }

  function Last(calls: seq<Call>): Call
    requires calls != []
  {
    calls[|calls| - 1]
  }

  /** A search request that answered with no ids. */
  predicate FoundNothing(p: Platform, c: Call) {
    c.SearchCall? && p.search(c.term, c.maxResults) == Answered([])
  }

  /** The requests of the cascade, written out for each of the four ways it
      can go. */
  lemma CascadeCalls(p: Platform, category: string, words: seq<string>, maxResults: nat)
    ensures var r := Cascade(p, category, words, maxResults);
            var first := p.search(category, maxResults);
            var tier1 := SearchCall(category, maxResults);
            && (first.Raised? ==> r.calls == [tier1] && r.videos == [])
            && (first.Answered? && !Broadens(p, category, words, maxResults) ==>
                  r.calls == [tier1, FinalCall(first.items, maxResults)])
            && (Broadens(p, category, words, maxResults) ==>
                  var w := words[0];
                  && (p.search(w, maxResults).Raised? ==> r.calls == [tier1, SearchCall(w, maxResults)] && r.videos == [])
                  && (p.search(w, maxResults).Answered? ==>
                        r.calls == [tier1, SearchCall(w, maxResults), FinalCall(p.search(w, maxResults).items, maxResults)]))
  {
    var r := Cascade(p, category, words, maxResults);
    var tier1 := SearchCall(category, maxResults);
    match p.search(category, maxResults)
    case Raised =>
    case Answered(ids) =>
      if Broadens(p, category, words, maxResults) {
        var w := words[0];
        match p.search(w, maxResults)
        case Raised =>
        case Answered(broader) =>
          assert r == FetchFor(p, broader, maxResults, [tier1, SearchCall(w, maxResults)]);
      } else {
        assert r == FetchFor(p, ids, maxResults, [tier1]);
      }
  }

  /** Tier 2 runs exactly when tier 1 answered with no ids and the category
      has more than one word, and it searches the first word. */
  lemma CascadeBroadensOnce(p: Platform, category: string, words: seq<string>, maxResults: nat)
    ensures var r := Cascade(p, category, words, maxResults);
            (|r.calls| >= 2 && r.calls[1].SearchCall?)
            <==> (p.search(category, maxResults) == Answered([]) && |words| > 1)
    ensures var r := Cascade(p, category, words, maxResults);
            |r.calls| >= 2 && r.calls[1].SearchCall? ==> r.calls[1] == SearchCall(words[0], maxResults)
  {
    CascadeCalls(p, category, words, maxResults);
  }

  /** Only successful searches come before the last request; a search is
      last only when it raised, and a request that raised yields `[]`. */
  lemma CascadeStopsAtFault(p: Platform, category: string, words: seq<string>, maxResults: nat)
    ensures var r := Cascade(p, category, words, maxResults);
            forall i :: 0 <= i < |r.calls| - 1 ==> r.calls[i].SearchCall? && !Raises(p, r.calls[i])
    ensures var r := Cascade(p, category, words, maxResults);
            Last(r.calls).SearchCall? ==> Raises(p, Last(r.calls))
    ensures var r := Cascade(p, category, words, maxResults);
            Raises(p, Last(r.calls)) ==> r.videos == []
  {
    CascadeCalls(p, category, words, maxResults);
  }

  /** The "mostPopular" chart of region US is asked only after every search
      answered with no ids, and its items are the result as they are. */
  lemma CascadeChartLast(p: Platform, category: string, words: seq<string>, maxResults: nat)
    ensures var r := Cascade(p, category, words, maxResults);
            Last(r.calls).ChartCall? ==>
              && Last(r.calls) == ChartCall(ChartRegion, maxResults)
              && (forall i :: 0 <= i < |r.calls| - 1 ==> FoundNothing(p, r.calls[i]))
              && r.videos == ItemsOr(p.chart(ChartRegion, maxResults))
  {
    CascadeCalls(p, category, words, maxResults);
  }

  /** When a search found ids, exactly one details request follows, for
      those ids comma-joined in search order, and its items are the result. */
  lemma CascadeDetailsLast(p: Platform, category: string, words: seq<string>, maxResults: nat)
    ensures var r := Cascade(p, category, words, maxResults);
            Last(r.calls).DetailsCall? ==>
              && |r.calls| >= 2
              && r.calls[|r.calls| - 2].SearchCall?
              && var found := p.search(r.calls[|r.calls| - 2].term, maxResults);
              && found.Answered? && found.items != []
              && Last(r.calls) == DetailsCall(Join(found.items, ","))
              && r.videos == ItemsOr(p.details(Join(found.items, ",")))
  {
    CascadeCalls(p, category, words, maxResults);
  }

  // ---------------------------------------------------------------------
  // analyze_engagement

  const RecencyWindowDays := 30.0
  const RecencyWeight := 100000.0

  /** `max(0, 1 - days / 30)`. */
  function RecencyOfAge(days: int): (r: real)
    ensures r >= 0.0
    ensures days >= 0 ==> r <= 1.0
    ensures days >= 30 ==> r == 0.0
    ensures days == 0 ==> r == 1.0
  {
    Max(0.0, 1.0 - days as real / RecencyWindowDays)
  }

  lemma RecencyNonIncreasing(d1: int, d2: int)
    requires d1 <= d2
    ensures RecencyOfAge(d2) <= RecencyOfAge(d1)
  {
  }

  /** The recency score of a video, or `None` when its timestamp does not
      parse (the loop raises). An empty or missing timestamp scores 0. */
  function Recency(publishedAt: Option<string>, ageOf: string -> Option<int>): (r: Option<real>)
    ensures publishedAt.None? || publishedAt == Some("") ==> r == Some(0.0)
    ensures r.Some? ==> r.value >= 0.0
  {
    match publishedAt
    case None => Some(0.0)
    case Some(stamp) =>
      if stamp == "" then Some(0.0)
      else
        match ageOf(stamp)
        case None => None
        case Some(days) => Some(RecencyOfAge(days))
  }

  /** The annotation one iteration of the loop computes, or `None` when that
      iteration raises (a count `int()` rejects, an unparsable timestamp). */
  function EngagementOf(v: Video, ageOf: string -> Option<int>): (r: Option<Engagement>)
    ensures r.Some? <==> !HasMalformedCount(v) && Recency(v.publishedAt, ageOf).Some?
    ensures r.Some? ==>
      && r.value.views == IntOf(v.viewCount).value
      && r.value.likes == IntOf(v.likeCount).value
      && r.value.comments == IntOf(v.commentCount).value
      && r.value.recencyScore == Recency(v.publishedAt, ageOf).value
    ensures r.Some? ==> r.value.score == 0.4 * r.value.views as real + 0.3 * r.value.likes as real
                                        + 0.2 * r.value.comments as real + RecencyWeight * r.value.recencyScore
  {
    match (IntOf(v.viewCount), IntOf(v.likeCount), IntOf(v.commentCount), Recency(v.publishedAt, ageOf))
    case (Ok(views), Ok(likes), Ok(comments), Some(recency)) =>
      Some(Engagement(0.4 * views as real + 0.3 * likes as real + 0.2 * comments as real + RecencyWeight * recency,
                      views, likes, comments, recency))
    case _ => None
  }

  /** With non-negative counts the score is non-negative, and a more recent
      video never scores lower than an otherwise equal older one. */
  lemma ScoreBounds(v: Video, w: Video, ageOf: string -> Option<int>)
    requires EngagementOf(v, ageOf).Some? && EngagementOf(w, ageOf).Some?
    requires v.viewCount == w.viewCount && v.likeCount == w.likeCount && v.commentCount == w.commentCount
    requires v.publishedAt.Some? && w.publishedAt.Some? && v.publishedAt.value != "" && w.publishedAt.value != ""
    requires ageOf(v.publishedAt.value).value <= ageOf(w.publishedAt.value).value
    ensures EngagementOf(w, ageOf).value.score <= EngagementOf(v, ageOf).value.score
    ensures IntOf(v.viewCount).value >= 0 && IntOf(v.likeCount).value >= 0 && IntOf(v.commentCount).value >= 0 ==>
              EngagementOf(v, ageOf).value.score >= 0.0
  {
    RecencyNonIncreasing(ageOf(v.publishedAt.value).value, ageOf(w.publishedAt.value).value);
  }

  /** Index of the first video whose iteration raises, or `|vs|`. */
  function FirstFault(vs: seq<Video>, ageOf: string -> Option<int>): (k: nat)
    ensures k <= |vs|
    ensures forall i :: 0 <= i < k ==> EngagementOf(vs[i], ageOf).Some?
    ensures k < |vs| ==> EngagementOf(vs[k], ageOf).None?
  {
    if vs == [] || EngagementOf(vs[0], ageOf).None? then 0
    else
      assert forall i :: 1 <= i < |vs| ==> vs[i] == vs[1..][i - 1];
      1 + FirstFault(vs[1..], ageOf)
  }

  /** The list after the loop: the videos before the first fault carry their
      annotation, the rest are untouched. */
  function AnnotatedPrefix(vs: seq<Video>, ageOf: string -> Option<int>): (r: seq<Video>)
    ensures |r| == |vs| && SameCounts(r, vs)
    ensures forall i :: 0 <= i < |vs| ==> r[i].publishedAt == vs[i].publishedAt
  {
    var k := FirstFault(vs, ageOf);
    seq(|vs|, i requires 0 <= i < |vs| =>
      if i < k then vs[i].(engagement := EngagementOf(vs[i], ageOf)) else vs[i])
  }

  // Python's `sorted(..., key=score, reverse=True)`: a stable sort into
  // descending score order, written as an insertion sort.

  predicate SortedDesc(s: seq<Video>) {
    forall i, j :: 0 <= i < j < |s| ==> ScoreKey(s[i]) >= ScoreKey(s[j])
  }

  /** Puts `x` in front of the first element whose score is not above its own. */
  function Insert(x: Video, s: seq<Video>): seq<Video> {
    if s == [] || ScoreKey(s[0]) <= ScoreKey(x) then [x] + s else [s[0]] + Insert(x, s[1..])
  }

  /** The ranking: a permutation of `s` in descending score order. */
  function SortDesc(s: seq<Video>): (r: seq<Video>)
    ensures multiset(r) == multiset(s) && |r| == |s|
    ensures SortedDesc(r)
  {
    if s == [] then []
    else
      var rest := SortDesc(s[1..]);
      InsertPermutes(s[0], rest);
      InsertSorted(s[0], rest);
      assert s == [s[0]] + s[1..];
      Insert(s[0], rest)
  }

  /** The elements of `s` whose score is `k`, in order. */
  function WithScore(s: seq<Video>, k: real): seq<Video> {
    if s == [] then [] else (if ScoreKey(s[0]) == k then [s[0]] else []) + WithScore(s[1..], k)
  }

  lemma {:induction false} InsertPermutes(x: Video, s: seq<Video>)
    ensures multiset(Insert(x, s)) == multiset(s) + multiset{x}
  {
    if s != [] && ScoreKey(s[0]) > ScoreKey(x) {
      InsertPermutes(x, s[1..]);
      assert s == [s[0]] + s[1..];
    }
  }

  lemma {:induction false} InsertSorted(x: Video, s: seq<Video>)
    requires SortedDesc(s)
    ensures SortedDesc(Insert(x, s))
    ensures Insert(x, s) != [] && (Insert(x, s)[0] == x || (s != [] && Insert(x, s)[0] == s[0]))
  {
    if s != [] && ScoreKey(s[0]) > ScoreKey(x) {
      InsertSorted(x, s[1..]);
      var t := Insert(x, s[1..]);
      assert forall j :: 0 <= j < |t| ==> ScoreKey(s[0]) >= ScoreKey(t[j]) by {
        InsertPermutes(x, s[1..]);
        forall j | 0 <= j < |t| ensures ScoreKey(s[0]) >= ScoreKey(t[j]) {
          assert t[j] in multiset(t);
          assert t[j] == x || t[j] in multiset(s[1..]);
          if t[j] != x {
            var m :| 0 <= m < |s[1..]| && s[1..][m] == t[j];
            assert s[1..][m] == s[m + 1];
          }
        }
      }
    }
  }

  lemma {:induction false} InsertStable(x: Video, s: seq<Video>, k: real)
    ensures WithScore(Insert(x, s), k) == (if ScoreKey(x) == k then [x] else []) + WithScore(s, k)
  {
    var xs := if ScoreKey(x) == k then [x] else [];
    if s == [] || ScoreKey(s[0]) <= ScoreKey(x) {
      assert ([x] + s)[1..] == s;
    } else {
      var rest := Insert(x, s[1..]);
      InsertStable(x, s[1..], k);
      assert ([s[0]] + rest)[1..] == rest;
      var heads := if ScoreKey(s[0]) == k then [s[0]] else [];
      assert WithScore(Insert(x, s), k) == heads + (xs + WithScore(s[1..], k));
      // `x` and `s[0]` have different scores, so at most one of them is kept
      assert heads == [] || xs == [];
      assert WithScore(s, k) == heads + WithScore(s[1..], k);
    }
  }

  /** The ranking is stable: videos with equal scores keep their input order. */
  lemma {:induction false} SortDescStable(s: seq<Video>, k: real)
    ensures WithScore(SortDesc(s), k) == WithScore(s, k)
  {
    if s != [] {
      SortDescStable(s[1..], k);
      InsertStable(s[0], SortDesc(s[1..]), k);
    }
  }

  /** Sorting an already-ranked list changes nothing. */
  lemma {:induction false} SortDescOfSorted(s: seq<Video>)
    requires SortedDesc(s)
    ensures SortDesc(s) == s
  {
    if s != [] {
      assert SortedDesc(s[1..]) by {
        forall i, j | 0 <= i < j < |s[1..]| ensures ScoreKey(s[1..][i]) >= ScoreKey(s[1..][j]) {
          assert s[1..][i] == s[i + 1] && s[1..][j] == s[j + 1];
        }
      }
      SortDescOfSorted(s[1..]);
      assert s == [s[0]] + s[1..];
    }
  }

  /** What `analyze_engagement` returns, as a value: the annotated list
      sorted, or, when an iteration raised, the (partly annotated) list in
      its original order. */
  function Rank(vs: seq<Video>, ageOf: string -> Option<int>): (r: seq<Video>)
    ensures multiset(r) == multiset(AnnotatedPrefix(vs, ageOf)) && |r| == |vs|
    ensures FirstFault(vs, ageOf) == |vs| ==> SortedDesc(r)
    ensures FirstFault(vs, ageOf) < |vs| ==> r == AnnotatedPrefix(vs, ageOf)
  {
    if FirstFault(vs, ageOf) < |vs| then AnnotatedPrefix(vs, ageOf) else SortDesc(AnnotatedPrefix(vs, ageOf))
  }

  /** When no iteration raised, videos with equal scores keep their input
      order in the ranking. */
  lemma RankStable(vs: seq<Video>, ageOf: string -> Option<int>, k: real)
    ensures FirstFault(vs, ageOf) == |vs| ==> WithScore(Rank(vs, ageOf), k) == WithScore(AnnotatedPrefix(vs, ageOf), k)
  {
    SortDescStable(AnnotatedPrefix(vs, ageOf), k);
  }

  /** Every video recomputes to the annotation it was given, so the loop
      over its own output stops at the same video and changes nothing. */
  lemma ReannotateSame(vs: seq<Video>, ageOf: string -> Option<int>)
    ensures FirstFault(AnnotatedPrefix(vs, ageOf), ageOf) == FirstFault(vs, ageOf)
    ensures AnnotatedPrefix(AnnotatedPrefix(vs, ageOf), ageOf) == AnnotatedPrefix(vs, ageOf)
  {
    var a := AnnotatedPrefix(vs, ageOf);
    var k := FirstFault(vs, ageOf);
    forall i | 0 <= i < |vs|
      ensures EngagementOf(a[i], ageOf) == EngagementOf(vs[i], ageOf)
    {
      SameEngagementInputs(vs[i], a[i], ageOf);
    }
    var b := AnnotatedPrefix(a, ageOf);
    assert |b| == |a|;
    forall i | 0 <= i < |a| ensures b[i] == a[i] {
      if i < k {
        assert a[i] == vs[i].(engagement := EngagementOf(vs[i], ageOf));
        assert b[i] == a[i].(engagement := EngagementOf(a[i], ageOf));
      }
    }
  }

  /** The annotation depends only on counts and timestamp. */
  lemma SameEngagementInputs(v: Video, w: Video, ageOf: string -> Option<int>)
    requires v.viewCount == w.viewCount && v.likeCount == w.likeCount && v.commentCount == w.commentCount
    requires v.publishedAt == w.publishedAt
    ensures EngagementOf(v, ageOf) == EngagementOf(w, ageOf)
  {
  }

  /** Ranking twice is ranking once: the ranker is idempotent. */
  lemma {:induction false} RankIdempotent(vs: seq<Video>, ageOf: string -> Option<int>)
    ensures FirstFault(Rank(vs, ageOf), ageOf) == FirstFault(vs, ageOf)
    ensures Rank(Rank(vs, ageOf), ageOf) == Rank(vs, ageOf)
  {
    if FirstFault(vs, ageOf) < |vs| {
      // the partly annotated list comes back, and annotating it again
      // stops at the same video
      ReannotateSame(vs, ageOf);
      return;
    }
    var r := SortDesc(AnnotatedPrefix(vs, ageOf));
    RankedCarryOwnEngagement(vs, ageOf, r);
    AnnotatedFixedPoint(r, ageOf);
    SortDescOfSorted(r);
  }

  /** Every video of a permutation of the annotated list is an annotated
      input video, so it recomputes to its own annotation. */
  lemma RankedCarryOwnEngagement(vs: seq<Video>, ageOf: string -> Option<int>, r: seq<Video>)
    requires FirstFault(vs, ageOf) == |vs|
    requires multiset(r) == multiset(AnnotatedPrefix(vs, ageOf))
    ensures forall i :: 0 <= i < |r| ==> EngagementOf(r[i], ageOf).Some? && r[i].engagement == EngagementOf(r[i], ageOf)
  {
    var a := AnnotatedPrefix(vs, ageOf);
    ReannotateSame(vs, ageOf);
    forall i | 0 <= i < |r| ensures EngagementOf(r[i], ageOf).Some? && r[i].engagement == EngagementOf(r[i], ageOf) {
      assert r[i] in multiset(a);
      var m :| 0 <= m < |a| && a[m] == r[i];
      assert EngagementOf(a[m], ageOf) == EngagementOf(vs[m], ageOf);
    }
  }

  /** A list whose videos all carry their own annotation is left as it is by
      the loop. */
  lemma AnnotatedFixedPoint(r: seq<Video>, ageOf: string -> Option<int>)
    requires forall i :: 0 <= i < |r| ==> EngagementOf(r[i], ageOf).Some? && r[i].engagement == EngagementOf(r[i], ageOf)
    ensures FirstFault(r, ageOf) == |r|
    ensures AnnotatedPrefix(r, ageOf) == r
  {
    assert FirstFault(r, ageOf) == |r|;
    var b := AnnotatedPrefix(r, ageOf);
    forall i | 0 <= i < |r| ensures b[i] == r[i] {
      assert b[i] == r[i].(engagement := EngagementOf(r[i], ageOf));
    }
  }

  /** A malformed count survives ranking: the ranked list has one exactly
      when the input has one. */
  lemma RankKeepsMalformed(vs: seq<Video>, ageOf: string -> Option<int>)
    ensures (exists i :: 0 <= i < |Rank(vs, ageOf)| && HasMalformedCount(Rank(vs, ageOf)[i]))
            <==> (exists i :: 0 <= i < |vs| && HasMalformedCount(vs[i]))
  {
    var a := AnnotatedPrefix(vs, ageOf);
    var r := Rank(vs, ageOf);
    if i :| 0 <= i < |r| && HasMalformedCount(r[i]) {
      assert r[i] in multiset(a);
      var m :| 0 <= m < |a| && a[m] == r[i];
      assert HasMalformedCount(vs[m]);
    }
    if i :| 0 <= i < |vs| && HasMalformedCount(vs[i]) {
      assert a[i] in multiset(r);
      var m :| 0 <= m < |r| && r[m] == a[i];
      assert HasMalformedCount(r[m]);
    }
  }

  /** Ranking keeps the number of videos, and a list that comes back
      unsorted because an iteration raised keeps every count total. */
  lemma RankSameCounts(vs: seq<Video>, ageOf: string -> Option<int>, s: Stat)
    ensures Total(Rank(vs, ageOf), s) == Total(vs, s) || FirstFault(vs, ageOf) == |vs|
    ensures |Rank(vs, ageOf)| == |vs|
  {
    if FirstFault(vs, ageOf) < |vs| {
      TotalSameCounts(AnnotatedPrefix(vs, ageOf), vs, s);
    }
  }

  /** `analyze_engagement(videos)`. The loop writes each video's annotation
      into the list in place; on success a new sorted list is returned, and
      when an iteration raises, the same list object comes back in its
      original order, annotated up to the faulty video. */
  method AnalyzeEngagement(videos: array<Video>, ageOf: string -> Option<int>) returns (ranked: array<Video>)
    modifies videos
    ensures videos[..] == AnnotatedPrefix(old(videos[..]), ageOf)
    ensures ranked[..] == Rank(old(videos[..]), ageOf)
    ensures FirstFault(old(videos[..]), ageOf) < videos.Length ==> ranked == videos
    ensures FirstFault(old(videos[..]), ageOf) == videos.Length ==> fresh(ranked)
  {
    ghost var original := videos[..];
    var i := 0;
    while i < videos.Length
      invariant 0 <= i <= videos.Length
      invariant forall k :: 0 <= k < i ==> EngagementOf(original[k], ageOf).Some?
      invariant forall k :: 0 <= k < i ==> videos[k] == original[k].(engagement := EngagementOf(original[k], ageOf))
      invariant forall k :: i <= k < videos.Length ==> videos[k] == original[k]
    {
      var e := EngagementOf(videos[i], ageOf);
      if e.None? {
        assert FirstFault(original, ageOf) == i;
        assert videos[..] == AnnotatedPrefix(original, ageOf);
        return videos;
      }
      videos[i] := videos[i].(engagement := e);
      i := i + 1;
    }
    assert FirstFault(original, ageOf) == videos.Length;
    assert videos[..] == AnnotatedPrefix(original, ageOf);
    var sorted := SortDesc(videos[..]);
    ranked := new Video[|sorted|](j requires 0 <= j < |sorted| => sorted[j]);
    assert ranked[..] == sorted;
  }
}
