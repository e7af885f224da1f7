/** `LLMHandler` (app/entrypoint_agent/llm_handler.py): category extraction
    and trend synthesis around two chat-completion calls. A completion is an
    oracle outcome: the call raised, or it replied with some text. */
module LlmHandler {
  import opened Common
  import opened Json
  import opened Videos

  datatype Completion = CallFailed | Replied(content: string)

  /** `extract_category(user_prompt)`, given what the model did with the
      category prompt. */
  function ExtractCategory(prompt: string, reply: Completion): (category: string)
    // the reply is used as it is, without its surrounding whitespace, even when nothing is left
    ensures reply.Replied? ==> category == PyStrip(reply.content)
    // a failed call falls back to the lower-cased prompt, stripped
    ensures reply.CallFailed? ==> category == PyStrip(Lower(prompt))
    ensures category != [] ==> !PySpace(category[0]) && !PySpace(category[|category| - 1])
    // the fallback is empty only for an all-whitespace prompt
    ensures reply.CallFailed? ==> (category == [] <==> forall i :: 0 <= i < |prompt| ==> PySpace(prompt[i]))
  {
    match reply
    case Replied(content) =>
      TrimmedEnds(content, PySpace);
      PyStrip(content)
    case CallFailed =>
      FallbackCategory(prompt);
      PyStrip(Lower(prompt))
  }

  /** The fallback category has no surrounding whitespace and is empty only
      for a blank prompt. */
  lemma FallbackCategory(prompt: string)
    ensures var c := PyStrip(Lower(prompt));
            && (c != [] ==> !PySpace(c[0]) && !PySpace(c[|c| - 1]))
            && (c == [] <==> forall i :: 0 <= i < |prompt| ==> PySpace(prompt[i]))
  {
    TrimmedEnds(Lower(prompt), PySpace);
    BlankFallback(prompt);
  }

  /** Stripping the lowered prompt leaves nothing exactly for a blank prompt. */
  lemma BlankFallback(prompt: string)
    ensures PyStrip(Lower(prompt)) == [] <==> forall i :: 0 <= i < |prompt| ==> PySpace(prompt[i])
  {
    var lowered := Lower(prompt);
    LowerKeepsSpaces(prompt);
    TrimEmptyIffAllSpace(lowered, PySpace);
  }

  /** One entry of the digest sent to the model. */
  datatype DigestEntry = DigestEntry(title: string, channelTitle: string, publishedAt: string,
                                     views: int, likes: int, comments: int)

  const DigestSize := 10

  /** One iteration of the digest loop; it raises when `int()` rejects a count. */
  function DigestEntryOf(v: Video): (r: Result<DigestEntry, Fault>)
    ensures r.Err? <==> HasMalformedCount(v)
    ensures r.Ok? ==> r.value.title == v.title.GetOr("") && r.value.channelTitle == v.channelTitle.GetOr("")
                      && r.value.publishedAt == v.publishedAt.GetOr("")
    ensures r.Ok? ==> r.value.views == IntOf(v.viewCount).value && r.value.likes == IntOf(v.likeCount).value
                      && r.value.comments == IntOf(v.commentCount).value
  {
    match (IntOf(v.viewCount), IntOf(v.likeCount), IntOf(v.commentCount))
    case (Ok(views), Ok(likes), Ok(comments)) =>
      Ok(DigestEntry(v.title.GetOr(""), v.channelTitle.GetOr(""), v.publishedAt.GetOr(""), views, likes, comments))
    case (Err(e), _, _) => Err(e)
    case (_, Err(e), _) => Err(e)
    case (_, _, Err(e)) => Err(e)
  }

  /** The digest of a whole list, failing at the first video `int()` rejects. */
  function DigestAll(vs: seq<Video>): (r: Result<seq<DigestEntry>, Fault>)
    ensures r.Err? <==> exists i :: 0 <= i < |vs| && HasMalformedCount(vs[i])
    ensures r.Ok? ==> |r.value| == |vs| && forall i :: 0 <= i < |vs| ==> DigestEntryOf(vs[i]) == Ok(r.value[i])
  {
    if vs == [] then Ok([])
    else
      match DigestEntryOf(vs[0])
      case Err(e) => Err(e)
      case Ok(entry) =>
        match DigestAll(vs[1..])
        case Err(e) =>
          assert exists i :: 0 <= i < |vs[1..]| && HasMalformedCount(vs[1..][i]);
          Err(e)
        case Ok(rest) =>
          assert forall i :: 1 <= i < |vs| ==> vs[i] == vs[1..][i - 1];
          Ok([entry] + rest)
  }

  /** The digest of `videos[:10]`. */
  function Digest(videos: seq<Video>): Result<seq<DigestEntry>, Fault> {
    DigestAll(videos[..Min(DigestSize, |videos|)])
  }

  /** The loop building `video_data` over `videos[:10]`. */
  method BuildDigest(videos: seq<Video>) returns (digest: Result<seq<DigestEntry>, Fault>)
    ensures digest.Err? <==> exists i :: 0 <= i < Min(DigestSize, |videos|) && HasMalformedCount(videos[i])
    ensures digest.Ok? ==> |digest.value| == Min(DigestSize, |videos|)
    ensures digest.Ok? ==> forall i :: 0 <= i < |digest.value| ==> DigestEntryOf(videos[i]) == Ok(digest.value[i])
    ensures digest.Ok? <==> Digest(videos).Ok?
    ensures digest.Ok? ==> digest == Digest(videos)
  {
    var n := Min(DigestSize, |videos|);
    var data: seq<DigestEntry> := [];
    var i := 0;
    while i < n
      invariant 0 <= i <= n && |data| == i
      invariant forall k :: 0 <= k < i ==> DigestEntryOf(videos[k]) == Ok(data[k])
    {
      var entry := DigestEntryOf(videos[i]);
      if entry.Err? {
        assert videos[..n][i] == videos[i];
        return Err(entry.error);
      }
      data := data + [entry.value];
      i := i + 1;
    }
    digest := Ok(data);
    assert DigestAll(videos[..n]).Ok? by {
      assert forall k :: 0 <= k < n ==> videos[..n][k] == videos[k];
    }
    assert DigestAll(videos[..n]).value == data;
  }

  const UnparsedStrength := 5.0
  const UnparsedDirection := "stable"

  /** The analysis built from a reply that is not JSON: fixed strength and
      direction, and the text cut at characters 100, 300 and 500. */
  function UnparsedNarrative(text: string): Json {
    Narrative(UnparsedStrength, UnparsedDirection, Slice(text, 0, 100), Slice(text, 100, 300), Slice(text, 300, 500))
  }

  /** The three slices lose nothing of the first 500 characters, and a short
      reply yields short or empty later slices. */
  lemma UnparsedSlicesCoverPrefix(text: string)
    ensures Slice(text, 0, 100) + Slice(text, 100, 300) + Slice(text, 300, 500) == text[..Min(500, |text|)]
    ensures |text| <= 100 ==> Slice(text, 0, 100) == text && Slice(text, 100, 300) == [] && Slice(text, 300, 500) == []
    ensures |Slice(text, 0, 100)| <= 100 && |Slice(text, 100, 300)| <= 200 && |Slice(text, 300, 500)| <= 200
  {
    var a, b, c := Min(100, |text|), Min(300, |text|), Min(500, |text|);
    assert text[..c] == text[0..a] + text[a..b] + text[b..c];
  }

  /** The analysis returned when anything in `analyze_trends` raised. */
  function ErrorNarrative(category: string): Json {
    Narrative(5.0, "stable", "Analysis of trending videos in " + category + ".",
              "Could not generate insights due to an error.", "Try again later for recommendations.")
  }

  /** The trend-synthesis model call: given the category and the digest, the
      completion outcome. */
  type TrendModel = (string, seq<DigestEntry>) -> Completion

  /** What `analyze_trends(videos, category)` returns. `parse` is
      `json.loads` on the stripped reply. */
  function Trends(videos: seq<Video>, category: string, ask: TrendModel, parse: string -> Option<Json>): (r: Json)
    // a count int() rejects among the first ten videos, or a failed call: the fixed narrative
    ensures Digest(videos).Err? ==> r == ErrorNarrative(category)
    ensures Digest(videos).Ok? && ask(category, Digest(videos).value).CallFailed? ==> r == ErrorNarrative(category)
    // a reply that parses is returned verbatim, whatever its shape
    ensures Digest(videos).Ok? && ask(category, Digest(videos).value).Replied? ==>
              var text := PyStrip(ask(category, Digest(videos).value).content);
              r == if parse(text).Some? then parse(text).value else UnparsedNarrative(text)
  {
    match Digest(videos)
    case Err(_) => ErrorNarrative(category)
    case Ok(digest) =>
      match ask(category, digest)
      case CallFailed => ErrorNarrative(category)
      case Replied(content) =>
        var text := PyStrip(content);
        match parse(text)
        case Some(value) => value
        case None => UnparsedNarrative(text)
  }

  /** `analyze_trends(videos, category)`: it never raises. */
  method AnalyzeTrends(videos: seq<Video>, category: string, ask: TrendModel, parse: string -> Option<Json>)
    returns (analysis: Json)
    ensures analysis == Trends(videos, category, ask, parse)
    ensures analysis.JObject? || (Digest(videos).Ok? && ask(category, Digest(videos).value).Replied?)
  {
    var digest := BuildDigest(videos);
    if digest.Err? {
      return ErrorNarrative(category);
    }
    var reply := ask(category, digest.value);
    match reply
    case CallFailed =>
      analysis := ErrorNarrative(category);
    case Replied(content) =>
      var text := PyStrip(content);
      var parsed := parse(text);
      if parsed.Some? {
        analysis := parsed.value;
      } else {
        analysis := UnparsedNarrative(text);
      }
  }
}
