/** A video as the YouTube Data API describes it, reduced to the fields the
    pipeline reads, plus the engagement annotation the ranker writes into it
    and the faults the pipeline's Python code can raise while reading it. */
module Videos {
  import opened Common

  /** A statistics count as found in the `statistics` dict: missing, a value
      `int()` accepts, or one it rejects with `ValueError`. */
  datatype Count = Absent | Numeric(value: int) | NonNumeric(text: string)

  datatype Engagement = Engagement(score: real, views: int, likes: int, comments: int, recencyScore: real)

  /** `snippet.thumbnails.high.url` collapses to `thumbnail`; any missing
      level of that path reads as `None`. */
  datatype Video = Video(
    id: Option<string>,
    title: Option<string>,
    channelTitle: Option<string>,
    publishedAt: Option<string>,
    thumbnail: Option<string>,
    viewCount: Count,
    likeCount: Count,
    commentCount: Count,
    engagement: Option<Engagement>)

  /** The exceptions the pipeline code can raise (their `str()` text is not
      modelled beyond the offending value). */
  datatype Fault =
    | MalformedCount(text: string)  // ValueError from int()
    | NotAMapping                   // AttributeError: .get on a non-dict analysis
    | StrengthNotFloat              // TypeError/ValueError from float()
    | StorageFailed                 // the database add/commit raised

  /** `int(stats.get(key, 0))`. */
  function IntOf(c: Count): (r: Result<int, Fault>)
    ensures c.Absent? ==> r == Ok(0)
    ensures r.Err? <==> c.NonNumeric?
  {
    match c
    case Absent => Ok(0)
    case Numeric(n) => Ok(n)
    case NonNumeric(t) => Err(MalformedCount(t))
  }

  datatype Stat = Views | Likes | Comments

  function CountOf(v: Video, s: Stat): Count {
    match s
    case Views => v.viewCount
    case Likes => v.likeCount
    case Comments => v.commentCount
  }

  predicate HasMalformedCount(v: Video) {
    v.viewCount.NonNumeric? || v.likeCount.NonNumeric? || v.commentCount.NonNumeric?
  }

  /** `video.get('engagement', {}).get('score', 0)`, the ranking key. */
  function ScoreKey(v: Video): real {
    if v.engagement.Some? then v.engagement.value.score else 0.0
  }

  /** Two lists that agree on every count (they may differ in annotations). */
  predicate SameCounts(a: seq<Video>, b: seq<Video>) {
    |a| == |b| && forall i :: 0 <= i < |a| ==>
      a[i].viewCount == b[i].viewCount && a[i].likeCount == b[i].likeCount && a[i].commentCount == b[i].commentCount
  }

  /** `sum(int(v['statistics'].get(stat, 0)) for v in vs)`: the generator
      raises at the first count `int()` rejects. */
  function Total(vs: seq<Video>, s: Stat): (r: Result<int, Fault>)
    ensures r.Err? <==> exists i :: 0 <= i < |vs| && CountOf(vs[i], s).NonNumeric?
  {
    if vs == [] then Ok(0)
    else
      match IntOf(CountOf(vs[0], s))
      case Err(e) => Err(e)
      case Ok(n) =>
        match Total(vs[1..], s)
        case Err(e) => Err(e)
        case Ok(rest) =>
          assert forall i :: 1 <= i < |vs| ==> vs[i] == vs[1..][i - 1];
          Ok(n + rest)
  }

  /** Totals read only the counts, so re-annotating a list leaves them alone. */
  lemma {:induction false} TotalSameCounts(a: seq<Video>, b: seq<Video>, s: Stat)
    requires SameCounts(a, b)
    ensures Total(a, s) == Total(b, s)
  {
    if a != [] {
      assert CountOf(a[0], s) == CountOf(b[0], s);
      assert SameCounts(a[1..], b[1..]);
      TotalSameCounts(a[1..], b[1..], s);
    }
  }

  /** `total / len(vs) if vs else 0` (Python true division, as an exact real). */
  function Average(vs: seq<Video>, s: Stat): (r: Result<real, Fault>)
    ensures r.Err? <==> Total(vs, s).Err?
    ensures vs == [] ==> r == Ok(0.0)
    ensures vs != [] && r.Ok? ==> r.value * |vs| as real == Total(vs, s).value as real
  {
    match Total(vs, s)
    case Err(e) => Err(e)
    case Ok(t) => if vs == [] then Ok(0.0) else Ok(t as real / |vs| as real)
  }
}
