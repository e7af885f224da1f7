/** The trending page script (app/static/js/trending.js): the empty-prompt
    guard, what the page shows for each answer of `/api/trending/analyze`,
    the badge classes and `formatNumber`. JavaScript values arrive as JSON;
    `undefined` (a missing key) is represented by `None`. */
module TrendingPage {
  import opened Common
  import opened Json
  import opened Videos
  import TrendingApi

  /** The submit handler sends a request only for a prompt with something
      besides whitespace. */
  function SendsRequest(prompt: string): (sends: bool)
    ensures sends <==> exists i :: 0 <= i < |prompt| && !JsSpace(prompt[i])
  {
    TrimEmptyIffAllSpace(prompt, JsSpace);
    JsTrim(prompt) != []
  }

  /** JavaScript truthiness; a missing key is `undefined`, which is false. */
  predicate Truthy(v: Option<Json>) {
    match v
    case None => false
    case Some(JNull) => false
    case Some(JBool(b)) => b
    case Some(JNum(n)) => n != 0.0
    case Some(JStr(s)) => s != []
    case Some(_) => true
  }

  /** `obj.key`: `None` (undefined) when the key is missing or `obj` is not
      an object. */
  function Field(obj: Json, key: string): Option<Json> {
    if obj.JObject? && key in obj.fields then Some(obj.fields[key]) else None
  }

  /** `a || b`. */
  function Or(a: Option<Json>, b: Json): (r: Json)
    ensures Truthy(a) ==> r == a.value
    ensures !Truthy(a) ==> r == b
  {
    if Truthy(a) then a.value else b
  }

  // -------------------------------------------------------------------
  // parseInt(x, 10)

  predicate IsDigit(c: char) { '0' <= c <= '9' }

  function DigitValue(c: char): nat
    requires IsDigit(c)
  {
    c as nat - '0' as nat
  }

  /** The length of the run of decimal digits `s` starts with. */
  function DigitRun(s: string): (n: nat)
    ensures n <= |s|
    ensures forall i :: 0 <= i < n ==> IsDigit(s[i])
    ensures n < |s| ==> !IsDigit(s[n])
  {
    if s != [] && IsDigit(s[0]) then 1 + DigitRun(s[1..]) else 0
  }

  /** The value of a string of decimal digits, most significant first. */
  function DigitsValue(ds: string): nat
    requires forall i :: 0 <= i < |ds| ==> IsDigit(ds[i])
  {
    if ds == [] then 0 else DigitsValue(ds[..|ds| - 1]) * 10 + DigitValue(ds[|ds| - 1])
  }

  /** The text after leading whitespace and an optional sign. */
  function Unsigned(t: string): (body: string)
    ensures |body| <= |t|
  {
    if t != [] && (t[0] == '-' || t[0] == '+') then t[1..] else t
  }

  /** `parseInt(s, 10)` on a string: leading whitespace, an optional sign,
      then the longest run of digits; `None` (NaN) when there is none. */
  function ParseInt(s: string): (r: Option<int>)
    ensures r.None? <==> DigitRun(Unsigned(TrimStart(s, JsSpace))) == 0
    ensures r.Some? ==> var t := TrimStart(s, JsSpace);
                        var magnitude: int := DigitsValue(Unsigned(t)[..DigitRun(Unsigned(t))]);
                        r.value == if t != [] && t[0] == '-' then -magnitude else magnitude
  {
    var t := TrimStart(s, JsSpace);
    var body := Unsigned(t);
    var n := DigitRun(body);
    if n == 0 then None
    else
      var magnitude: int := DigitsValue(body[..n]);
      Some(if t != [] && t[0] == '-' then -magnitude else magnitude)
  }

  function DigitChar(d: nat): (c: char)
    requires d < 10
    ensures IsDigit(c) && DigitValue(c) == d
  {
    ('0' as nat + d) as char
  }

  /** `n.toString()` for a whole number. */
  function NatString(n: nat): (s: string)
    ensures s != [] && forall i :: 0 <= i < |s| ==> IsDigit(s[i])
    decreases n
  {
    if n < 10 then [DigitChar(n)] else NatString(n / 10) + [DigitChar(n % 10)]
  }

  function Sign(n: int): string {
    if n < 0 then "-" else []
  }

  function Magnitude(n: int): nat {
    if n < 0 then -n else n
  }

  /** `n.toString()` for an integer: a minus sign, then the digits. */
  function IntString(n: int): string {
    Sign(n) + NatString(Magnitude(n))
  }

  lemma {:induction false} NatStringValue(n: nat)
    ensures DigitsValue(NatString(n)) == n
    decreases n
  {
    if n >= 10 {
      var s := NatString(n);
      assert s[..|s| - 1] == NatString(n / 10);
      NatStringValue(n / 10);
    }
  }

  lemma {:induction false} DigitRunAll(s: string)
    requires forall i :: 0 <= i < |s| ==> IsDigit(s[i])
    ensures DigitRun(s) == |s|
    decreases |s|
  {
    if s != [] {
      DigitRunAll(s[1..]);
    }
  }

  /** A string with no leading whitespace is read from its first character. */
  lemma NoLeadingSpace(s: string)
    requires s != [] && !JsSpace(s[0])
    ensures TrimStart(s, JsSpace) == s
  {
  }

  /** `parseInt` reads the digits of a whole number, after an optional minus
      sign, back to the number. */
  lemma {:induction false} ParseDigits(sign: string, m: nat)
    requires sign == [] || sign == "-"
    ensures ParseInt(sign + NatString(m)) == Some(if sign == [] then m as int else -(m as int))
  {
    var digits := NatString(m);
    var s := sign + digits;
    SignedDigits(sign, digits);
    assert Unsigned(TrimStart(s, JsSpace)) == digits;
    DigitRunAll(digits);
    NatStringValue(m);
    assert digits[..DigitRun(digits)] == digits;
    assert DigitsValue(digits[..DigitRun(digits)]) == m;
  }

  /** Digits after an optional minus sign are read from the first character
      and the sign is skipped. */
  lemma SignedDigits(sign: string, digits: string)
    requires sign == [] || sign == "-"
    requires digits != [] && IsDigit(digits[0])
    ensures TrimStart(sign + digits, JsSpace) == sign + digits
    ensures Unsigned(sign + digits) == digits
    ensures (sign + digits)[0] == '-' <==> sign != []
  {
    if sign == [] {
      assert sign + digits == digits;
      NoLeadingSpace(digits);
    } else {
      MinusDigits(digits);
    }
  }

  lemma MinusDigits(digits: string)
    requires digits != [] && IsDigit(digits[0])
    ensures TrimStart("-" + digits, JsSpace) == "-" + digits
    ensures Unsigned("-" + digits) == digits
    ensures ("-" + digits)[0] == '-'
  {
    var s := "-" + digits;
    assert s[0] == '-' && s[1..] == digits;
    NoLeadingSpace(s);
  }

  /** `parseInt` reads back what `toString` writes, for every integer. */
  lemma ParseIntRoundTrip(n: int)
    ensures ParseInt(IntString(n)) == Some(n)
  {
    ParseDigits(Sign(n), Magnitude(n));
  }

  /** `parseInt` of a JSON number truncates toward zero. Numbers whose text
      uses exponent notation are not distinguished. */
  function Truncate(x: real): (r: int)
    ensures x >= 0.0 ==> r as real <= x < r as real + 1.0
    ensures x < 0.0 ==> r as real - 1.0 < x <= r as real
  {
    if x >= 0.0 then x.Floor else -((-x).Floor)
  }

  /** `parseInt(v, 10)` on a value; `String(v)` of `null`, booleans and
      objects is never a number, and arrays are treated the same way. */
  function ParseIntOf(v: Option<Json>): (r: Option<int>)
    ensures v.Some? && v.value.JNum? ==> r == Some(Truncate(v.value.n))
    ensures v.Some? && v.value.JStr? ==> r == ParseInt(v.value.s)
    ensures v.None? ==> r.None?
  {
    match v
    case Some(JNum(x)) => Some(Truncate(x))
    case Some(JStr(s)) => ParseInt(s)
    case _ => None
  }

  // -------------------------------------------------------------------
  // parseInt(x) without a radix: a `0x` or `0X` prefix after the sign
  // switches to hexadecimal

  predicate IsHexDigit(c: char) {
    IsDigit(c) || 'a' <= c <= 'f' || 'A' <= c <= 'F'
  }

  function HexValue(c: char): nat
    requires IsHexDigit(c)
  {
    if IsDigit(c) then DigitValue(c)
    else if 'a' <= c <= 'f' then c as nat - 'a' as nat + 10
    else c as nat - 'A' as nat + 10
  }

  /** The length of the run of hexadecimal digits `s` starts with. */
  function HexRun(s: string): (n: nat)
    ensures n <= |s|
    ensures forall i :: 0 <= i < n ==> IsHexDigit(s[i])
    ensures n < |s| ==> !IsHexDigit(s[n])
  {
    if s != [] && IsHexDigit(s[0]) then 1 + HexRun(s[1..]) else 0
  }

  /** The value of a string of hexadecimal digits, most significant first. */
  function HexDigitsValue(ds: string): nat
    requires forall i :: 0 <= i < |ds| ==> IsHexDigit(ds[i])
  {
    if ds == [] then 0 else HexDigitsValue(ds[..|ds| - 1]) * 16 + HexValue(ds[|ds| - 1])
  }

  predicate HexPrefixed(body: string) {
    |body| >= 2 && body[0] == '0' && (body[1] == 'x' || body[1] == 'X')
  }

  /** `parseInt(s)` on a string: as `parseInt(s, 10)` unless the text after
      whitespace and sign starts with `0x` or `0X`; then the longest run of
      hexadecimal digits after the prefix, NaN when there is none. */
  function ParseIntNoRadix(s: string): (r: Option<int>)
    ensures !HexPrefixed(Unsigned(TrimStart(s, JsSpace))) ==> r == ParseInt(s)
    ensures HexPrefixed(Unsigned(TrimStart(s, JsSpace))) ==>
              var t := TrimStart(s, JsSpace);
              var hex := Unsigned(t)[2..];
              && (r.None? <==> HexRun(hex) == 0)
              && (r.Some? ==> var magnitude: int := HexDigitsValue(hex[..HexRun(hex)]);
                              r.value == if t != [] && t[0] == '-' then -magnitude else magnitude)
  {
    var t := TrimStart(s, JsSpace);
    var body := Unsigned(t);
    if !HexPrefixed(body) then ParseInt(s)
    else
      var hex := body[2..];
      var n := HexRun(hex);
      if n == 0 then None
      else
        var magnitude: int := HexDigitsValue(hex[..n]);
        Some(if t != [] && t[0] == '-' then -magnitude else magnitude)
  }

  /** `parseInt(v)` on a value: numbers as with radix 10, strings by
      `ParseIntNoRadix`. */
  function ParseIntNoRadixOf(v: Option<Json>): (r: Option<int>)
    ensures v.Some? && v.value.JNum? ==> r == ParseIntOf(v)
    ensures v.Some? && v.value.JStr? ==> r == ParseIntNoRadix(v.value.s)
    ensures !v.Some? || !(v.value.JNum? || v.value.JStr?) ==> r.None? && ParseIntOf(v).None?
  {
    match v
    case Some(JNum(x)) => Some(Truncate(x))
    case Some(JStr(s)) => ParseIntNoRadix(s)
    case _ => None
  }

  /** The hexadecimal digits "10" are worth sixteen. */
  lemma HexTen()
    ensures HexRun("10") == 2 && HexDigitsValue("10") == 16
  {
    assert "10"[1..] == "0";
    assert "0"[1..] == [];
    assert HexRun("0") == 1;
    assert "10"[..1] == "1";
    assert "1"[..0] == [];
    assert HexDigitsValue("1") == 1;
  }

  /** Without a radix a hexadecimal string reads as hexadecimal, where the
      radix-10 reading stops at the `x`. */
  lemma HexStringsDiffer()
    ensures ParseIntNoRadix("0x10") == Some(16)
    ensures ParseInt("0x10") == Some(0)
  {
    HexStringAsHex();
    HexStringAsDecimal();
  }

  lemma HexStringAsHex()
    ensures ParseIntNoRadix("0x10") == Some(16)
  {
    var s := "0x10";
    NoLeadingSpace(s);
    assert Unsigned(s) == s;
    assert HexPrefixed(s);
    assert s[2..] == "10";
    HexTen();
    assert "10"[..2] == "10";
  }

  lemma HexStringAsDecimal()
    ensures ParseInt("0x10") == Some(0)
  {
    var s := "0x10";
    NoLeadingSpace(s);
    assert Unsigned(s) == s;
    assert s[1..] == "x10";
    assert DigitRun(s) == 1;
    assert s[..1] == "0";
    assert "0"[..0] == [];
  }

  // -------------------------------------------------------------------
  // formatNumber

  /** What `formatNumber` prints: "0", the integer as is, or the integer
      scaled down with a suffix (rendered to one decimal by `toFixed`, which
      is not modelled). */
  datatype Label = NotANumber | Plain(n: int) | Scaled(value: real, suffix: string)

  function FormatNumber(v: Option<Json>): (l: Label)
    ensures ParseIntOf(v).None? <==> l == NotANumber
    ensures l.Scaled? ==> (l.suffix == "M" <==> ParseIntOf(v).value >= 1000000)
    ensures l.Scaled? && l.suffix == "M" ==> l.value * 1000000.0 == ParseIntOf(v).value as real
    ensures l.Scaled? && l.suffix == "K" ==> 1000 <= ParseIntOf(v).value < 1000000
                                             && l.value * 1000.0 == ParseIntOf(v).value as real
    ensures ParseIntOf(v).Some? && 1000 <= ParseIntOf(v).value < 1000000 ==>
              l == Scaled(ParseIntOf(v).value as real / 1000.0, "K")
    ensures l.Plain? <==> ParseIntOf(v).Some? && ParseIntOf(v).value < 1000
    ensures l.Plain? ==> l.n == ParseIntOf(v).value
  {
    match ParseIntOf(v)
    case None => NotANumber
    case Some(n) =>
      if n >= 1000000 then Scaled(n as real / 1000000.0, "M")
      else if n >= 1000 then Scaled(n as real / 1000.0, "K")
      else Plain(n)
  }

  /** The label's text, except for the scaled value. */
  function LabelText(l: Label): string
    requires !l.Scaled?
  {
    if l.NotANumber? then "0" else IntString(l.n)
  }

  /** A count below 1000 is printed so that `parseInt` reads it back. */
  lemma PlainLabelReadsBack(v: Option<Json>)
    requires FormatNumber(v).Plain?
    ensures ParseInt(LabelText(FormatNumber(v))) == ParseIntOf(v)
  {
    ParseIntRoundTrip(FormatNumber(v).n);
  }

  /** The bands are ordered: a larger count never gets a smaller suffix. */
  lemma FormatNumberMonotone(a: int, b: int)
    requires a <= b
    ensures FormatNumber(Some(JNum(a as real))).Scaled? ==> FormatNumber(Some(JNum(b as real))).Scaled?
    ensures FormatNumber(Some(JNum(a as real))) == Scaled(a as real / 1000000.0, "M") ==>
              FormatNumber(Some(JNum(b as real))) == Scaled(b as real / 1000000.0, "M")
  {
    assert Truncate(a as real) == a;
    assert Truncate(b as real) == b;
  }

  // -------------------------------------------------------------------
  // badges

  datatype Badge = BadgeSuccess | BadgeWarning | BadgeDanger | BadgePrimary

  /** The direction badge: strict equality with the two known directions. */
  function DirectionBadge(direction: Option<Json>): (b: Badge)
    ensures b == BadgeSuccess <==> direction == Some(JStr("growing"))
    ensures b == BadgeDanger <==> direction == Some(JStr("declining"))
    ensures b == BadgePrimary <==> direction != Some(JStr("growing")) && direction != Some(JStr("declining"))
  {
    if direction == Some(JStr("growing")) then BadgeSuccess
    else if direction == Some(JStr("declining")) then BadgeDanger
    else BadgePrimary
  }

  /** The strength shown and classified: `trend_strength || 5`. */
  function EffectiveStrength(strength: Option<Json>): (v: Json)
    ensures !Truthy(strength) ==> v == JNum(5.0)
    ensures Truthy(strength) ==> v == strength.value
  {
    Or(strength, JNum(5.0))
  }

  /** The strength badge: success from 8, warning from 5, danger below 5 or
      when `parseInt` (here without a radix) gives NaN. */
  function StrengthBadge(strength: Option<Json>): (b: Badge)
    ensures var k := ParseIntNoRadixOf(Some(EffectiveStrength(strength)));
            && (b == BadgeSuccess <==> k.Some? && k.value >= 8)
            && (b == BadgeWarning <==> k.Some? && 5 <= k.value < 8)
            && (b == BadgeDanger <==> k.None? || k.value < 5)
    // a missing, null or zero strength is read as 5
    ensures !Truthy(strength) ==> b == BadgeWarning
  {
    assert Truncate(5.0) == 5;
    var k := ParseIntNoRadixOf(Some(EffectiveStrength(strength)));
    if k.Some? && k.value >= 8 then BadgeSuccess
    else if k.Some? && k.value >= 5 then BadgeWarning
    else BadgeDanger
  }

  /** The strength badge never drops when a non-zero strength grows. */
  lemma StrengthBadgeMonotone(x: real, y: real)
    requires 0.0 < x <= y
    ensures StrengthBadge(Some(JNum(x))) == BadgeSuccess ==> StrengthBadge(Some(JNum(y))) == BadgeSuccess
    ensures StrengthBadge(Some(JNum(x))) == BadgeWarning ==> StrengthBadge(Some(JNum(y))) != BadgeDanger
  {
    assert Truncate(x) <= Truncate(y);
  }

  /** At zero the badge is not monotone: a zero strength is falsy and reads
      as 5, while the larger 0.5 is truthy and truncates to 0. */
  lemma StrengthBadgeDropsAfterZero()
    ensures StrengthBadge(Some(JNum(0.0))) == BadgeWarning
    ensures StrengthBadge(Some(JNum(0.5))) == BadgeDanger
  {
    assert Truncate(0.5) == 0;
  }

  // -------------------------------------------------------------------
  // the answer and what the page shows

  const NetworkError := "Network response was not ok"
  const NoResultsDefault := "No trending videos found for your search. Please try a different category."

  /** The analysis panel: texts and badges. */
  datatype Panel = Panel(category: Option<Json>, direction: Json, strength: Json, directionBadge: Badge,
                         strengthBadge: Badge, summary: Json, insights: Json, recommendations: Json,
                         videoCount: nat)

  datatype View =
    | ErrorShown(message: string)     // the catch block, for a failed response
    | NoResults(notice: Json)         // `data.success` false
    | Results(panel: Panel)
    | ScriptError                     // a property read on null or undefined throws a TypeError,
                                      // whose own text the catch block shows

  /** Reading a property of this value throws. */
  predicate Nullish(v: Option<Json>) {
    v.None? || v.value.JNull?
  }

  /** The video loop throws: a non-empty string has a `length` but no
      `forEach`, and a `null` entry fails when `createVideoElement` reads
      its counts. */
  predicate VideosThrow(videos: Option<Json>) {
    match videos
    case Some(JStr(s)) => s != []
    case Some(JArray(items)) => exists i :: 0 <= i < |items| && items[i].JNull?
    case _ => false
  }

  /** What the page shows for an answer: `ok` is `response.ok`, `data` the
      parsed body. */
  function ViewOf(ok: bool, data: Json): (v: View)
    ensures !ok ==> v == ErrorShown(NetworkError)
    ensures v.ErrorShown? ==> !ok
    ensures v.ScriptError? <==> ok && (data.JNull? || (Truthy(Field(data, "success"))
                                                      && (Nullish(Field(data, "analysis")) || VideosThrow(Field(data, "videos")))))
    ensures v.NoResults? <==> ok && !data.JNull? && !Truthy(Field(data, "success"))
    ensures v.NoResults? ==> v.notice == Or(Field(data, "message"), JStr(NoResultsDefault))
    ensures v.Results? ==>
      var analysis := Field(data, "analysis").value;
      && v.panel.category == Field(data, "category")
      && v.panel.directionBadge == DirectionBadge(Field(analysis, "trend_direction"))
      && v.panel.strengthBadge == StrengthBadge(Field(analysis, "trend_strength"))
      && v.panel.direction == Or(Field(analysis, "trend_direction"), JStr("Trending"))
      && v.panel.strength == EffectiveStrength(Field(analysis, "trend_strength"))
      && v.panel.summary == Or(Field(analysis, "summary"), JStr(""))
      && v.panel.insights == Or(Field(analysis, "insights"), JStr(""))
      && v.panel.recommendations == Or(Field(analysis, "recommendations"), JStr(""))
    ensures v.Results? && Field(data, "videos").Some? && Field(data, "videos").value.JArray? ==>
              v.panel.videoCount == |Field(data, "videos").value.items|
  {
    if !ok then ErrorShown(NetworkError)
    else if data.JNull? then ScriptError
    else if !Truthy(Field(data, "success")) then NoResults(Or(Field(data, "message"), JStr(NoResultsDefault)))
    else if Nullish(Field(data, "analysis")) || VideosThrow(Field(data, "videos")) then ScriptError
    else
      var analysis := Field(data, "analysis").value;
      var videos := Field(data, "videos");
      Results(Panel(Field(data, "category"),
                    Or(Field(analysis, "trend_direction"), JStr("Trending")),
                    EffectiveStrength(Field(analysis, "trend_strength")),
                    DirectionBadge(Field(analysis, "trend_direction")),
                    StrengthBadge(Field(analysis, "trend_strength")),
                    Or(Field(analysis, "summary"), JStr("")),
                    Or(Field(analysis, "insights"), JStr("")),
                    Or(Field(analysis, "recommendations"), JStr("")),
                    if videos.Some? && videos.value.JArray? then |videos.value.items| else 0))
  }

  function CountJson(n: int): Json { JNum(n as real) }

  /** A formatted video as the browser receives it. */
  function VideoJson(v: TrendingApi.ApiVideo): Json {
    JObject(map[
      "id" := (if v.id.Some? then JStr(v.id.value) else JNull),
      "title" := JStr(v.title),
      "channelTitle" := JStr(v.channelTitle),
      "publishedAt" := JStr(v.publishedAt),
      "thumbnail" := JStr(v.thumbnail),
      "viewCount" := CountJson(v.viewCount),
      "likeCount" := CountJson(v.likeCount),
      "commentCount" := CountJson(v.commentCount),
      "engagementScore" := JNum(v.engagementScore)])
  }

  /** The route's answer on the wire: `response.ok` and the body. */
  function Wire(r: TrendingApi.ApiResponse): (bool, Json) {
    match r
    case Found(category, videos, analysis) =>
      (true, JObject(map["success" := JBool(true), "category" := JStr(category),
                         "videos" := JArray(seq(|videos|, i requires 0 <= i < |videos| => VideoJson(videos[i]))),
                         "analysis" := analysis]))
    case NotFound(message, category) =>
      (true, JObject(map["success" := JBool(false), "message" := JStr(message), "category" := JStr(category)]))
    case ServerError(_, _) => (false, JNull)
  }

  /** The route's success object shows the "growing" success badge and the
      warning badge of strength 7, whatever the category. */
  lemma FoundView(category: string, videos: seq<TrendingApi.ApiVideo>)
    ensures var (ok, data) := Wire(TrendingApi.Found(category, videos, TrendingApi.FixedNarrative(category)));
            var v := ViewOf(ok, data);
            v.Results? && v.panel.directionBadge == BadgeSuccess && v.panel.strengthBadge == BadgeWarning
            && v.panel.strength == JNum(7.0) && v.panel.videoCount == |videos|
  {
    var analysis := TrendingApi.FixedNarrative(category);
    var (ok, data) := Wire(TrendingApi.Found(category, videos, analysis));
    assert ok && data.JObject?;
    assert Field(data, "success") == Some(JBool(true));
    assert Field(data, "analysis") == Some(analysis);
    assert Field(data, "videos").value.items == seq(|videos|, i requires 0 <= i < |videos| => VideoJson(videos[i]));
    assert !VideosThrow(Field(data, "videos"));
    assert Field(analysis, "trend_strength") == Some(JNum(7.0));
    assert Field(analysis, "trend_direction") == Some(JStr("growing"));
    assert Truncate(7.0) == 7;
  }

  /** The route's not-found object shows the route's own message. */
  lemma NotFoundView(message: string, category: string)
    requires message != []
    ensures var (ok, data) := Wire(TrendingApi.NotFound(message, category));
            ViewOf(ok, data) == NoResults(JStr(message))
  {
  }

  /** End to end: a prompt the page sends gets either the network error, the
      route's own not-found message, or results whose badges are always the
      "growing" success badge and the warning badge of strength 7. */
  lemma PageForRoute(prompt: string, platform: TrendingApi.YouTubeService.Platform, ageOf: string -> Option<int>)
    ensures var (ok, data) := Wire(TrendingApi.ApiResult(prompt, platform, ageOf));
            var v := ViewOf(ok, data);
            && (v.ErrorShown? || v.NoResults? || v.Results?)
            && (v.ErrorShown? <==> TrendingApi.ApiResult(prompt, platform, ageOf).ServerError?)
            && (v.Results? ==> v.panel.directionBadge == BadgeSuccess && v.panel.strengthBadge == BadgeWarning
                               && v.panel.strength == JNum(7.0)
                               && v.panel.videoCount == |TrendingApi.ApiFetched(prompt, platform)|)
            && (v.NoResults? ==> v.notice == JStr("No trending videos found for '" + PyStrip(prompt) + "'"))
  {
    var r := TrendingApi.ApiResult(prompt, platform, ageOf);
    match r
    case Found(category, videos, analysis) =>
      FoundView(category, videos);
    case NotFound(message, category) =>
      NotFoundView(message, category);
    case ServerError(_, _) =>
  }
}
