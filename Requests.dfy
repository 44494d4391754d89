/**
 * The pure helpers of src/utils/Request.ts and the module-level state that
 * `getYouTubeFormats` keeps: the request-config merge of `makeStreamRequest`,
 * the cookie header, the staleness test that chooses the browser path, and the
 * audio-format filter and sort.
 */
module Requests {
  import opened Common
  import opened Text

  type Headers = map<string, string>

  // ---------------------------------------------------------------------------
  // makeStreamRequest: building the request config
  // ---------------------------------------------------------------------------

  /**
   * The caller's `options` (an AxiosRequestConfig); None is a property the
   * caller did not set.
   */
  datatype RequestOptions = RequestOptions(
    url: Option<Url>,
    httpMethod: Option<string>,
    headers: Option<Headers>,
    data: Option<string>,
    responseType: Option<string>)

  /** The config handed to the transport. */
  datatype RequestConfig = RequestConfig(
    url: Url,
    httpMethod: string,
    headers: Headers,
    data: Option<string>,
    responseType: string)

  /** `Object.assign(config, options)`: every property the caller set overwrites the config's. */
  function Assign(config: RequestConfig, options: RequestOptions): RequestConfig {
    RequestConfig(
      options.url.GetOr(config.url),
      options.httpMethod.GetOr(config.httpMethod),
      options.headers.GetOr(config.headers),
      if options.data.Some? then options.data else config.data,
      options.responseType.GetOr(config.responseType))
  }

  /**
   * The config `makeStreamRequest(url, options, body)` sends: headers are
   * `{...globalHeaders, ...headers, Cookie: globalCookies}` (later keys win),
   * method defaults to "GET", the response is a stream, and then the caller's
   * options are assigned over all of it.
   */
  function MakeStreamConfig(url: Url, options: RequestOptions, body: Option<string>,
                            globalHeaders: Headers, globalCookies: string): RequestConfig
  {
    var headers := options.headers.GetOr(map[]);
    var merged := globalHeaders + headers + map["Cookie" := globalCookies];
    var config := RequestConfig(url, options.httpMethod.GetOr("GET"), merged, body, "stream");
    Assign(config, options)
  }

  /**
   * Caller-supplied headers replace the merged headers wholesale: neither the
   * global headers nor the Cookie header survive `Object.assign`.
   */
  lemma CallerHeadersReplaceMerged(url: Url, options: RequestOptions, body: Option<string>,
                                   globalHeaders: Headers, globalCookies: string)
    requires options.headers.Some?
    ensures MakeStreamConfig(url, options, body, globalHeaders, globalCookies).headers == options.headers.value
  {
  }

  /**
   * Without caller headers the request carries every global header, with
   * `Cookie` set to the global cookie string whatever the global headers said.
   */
  lemma DefaultHeadersCarryCookie(url: Url, options: RequestOptions, body: Option<string>,
                                  globalHeaders: Headers, globalCookies: string)
    requires options.headers.None?
    ensures var h := MakeStreamConfig(url, options, body, globalHeaders, globalCookies).headers;
      && h.Keys == globalHeaders.Keys + {"Cookie"}
      && h["Cookie"] == globalCookies
      && forall k :: k in globalHeaders && k != "Cookie" ==> h[k] == globalHeaders[k]
  {
  }

  /**
   * The range requests of the fetch engines pass `{ headers: { range } }`: the
   * request goes to `url` with method GET, a stream response and the single
   * `range` header, so no cookie is sent with it.
   */
  lemma RangeRequestConfig(url: Url, range: string, globalHeaders: Headers, globalCookies: string)
    ensures var c := MakeStreamConfig(url, RequestOptions(None, None, Some(map["range" := range]), None, None),
                                      None, globalHeaders, globalCookies);
      c == RequestConfig(url, "GET", map["range" := range], None, "stream")
      && "Cookie" !in c.headers
  {
  }

  /**
   * The `makeStreamRequest` of src/utils/stream.ts: the same config without
   * the global headers and the cookie: the caller's headers (or none), the
   * caller's method (or "GET"), then the caller's options assigned over it.
   */
  function LegacyStreamConfig(url: Url, options: RequestOptions, body: Option<string>): RequestConfig {
    var config := RequestConfig(url, options.httpMethod.GetOr("GET"), options.headers.GetOr(map[]), body, "stream");
    Assign(config, options)
  }

  /**
   * The two request builders differ only in the headers they add themselves:
   * with caller headers they build the same config, and without them the
   * older one sends no header at all.
   */
  lemma LegacyConfigDiffersOnlyInHeaders(url: Url, options: RequestOptions, body: Option<string>,
                                         globalHeaders: Headers, globalCookies: string)
    ensures var legacy := LegacyStreamConfig(url, options, body);
      var current := MakeStreamConfig(url, options, body, globalHeaders, globalCookies);
      && legacy == current.(headers := legacy.headers)
      && (options.headers.Some? ==> legacy == current)
      && (options.headers.None? ==> legacy.headers == map[] && "Cookie" in current.headers)
  {
  }

  // ---------------------------------------------------------------------------
  // The cookie header
  // ---------------------------------------------------------------------------

  datatype Cookie = Cookie(name: string, value: string)

  function CookiePair(c: Cookie): string {
    c.name + "=" + c.value
  }

  /** `cookies.map(c => `${c.name}=${c.value}`).join("; ")`. */
  function CookieHeader(cookies: seq<Cookie>): string {
    if |cookies| == 0 then ""
    else if |cookies| == 1 then CookiePair(cookies[0])
    else CookiePair(cookies[0]) + "; " + CookieHeader(cookies[1..])
  }

  /**
   * A cookie as section 4.1.1 of RFC 6265 allows it: no `;` in name or value
   * and no `=` in the name.
   */
  predicate WellFormedCookie(c: Cookie) {
    ';' !in c.name && '=' !in c.name && ';' !in c.value
  }

  /** Splits `name=value` at its first `=`. */
  function ParseCookiePair(p: string): Cookie {
    var k := FirstIndex(p, '=');
    if k == |p| then Cookie(p, "") else Cookie(p[..k], p[k + 1..])
  }

  /** Reads a `Cookie` header back into its pairs, in order. */
  function ParseCookieHeader(s: string): seq<Cookie>
    decreases |s|
  {
    if s == "" then []
    else
      var i := FirstIndex(s, ';');
      var pair := ParseCookiePair(s[..i]);
      if i == |s| then [pair]
      else
        var rest := s[i + 1..];
        if rest != "" && rest[0] == ' ' then [pair] + ParseCookieHeader(rest[1..])
        else [pair] + ParseCookieHeader(rest)
  }

  /** The header is empty exactly when there are no cookies. */
  lemma CookieHeaderEmpty(cookies: seq<Cookie>)
    ensures CookieHeader(cookies) == "" <==> cookies == []
  {
    if cookies != [] {
      assert CookieHeader(cookies)[|cookies[0].name|] == '=';
    }
  }

  lemma CookiePairRoundTrip(c: Cookie)
    requires WellFormedCookie(c)
    ensures ParseCookiePair(CookiePair(c)) == c
  {
    var p := CookiePair(c);
    assert p == c.name + ['='] + c.value;
    FirstIndexAfter(c.name, '=', c.value);
    assert p[..|c.name|] == c.name;
    assert p[|c.name| + 1..] == c.value;
  }

  lemma PairHasNoSemicolon(c: Cookie)
    requires WellFormedCookie(c)
    ensures ';' !in CookiePair(c) && CookiePair(c) != ""
  {
    var p := CookiePair(c);
    assert p == c.name + ['='] + c.value;
    assert forall k :: 0 <= k < |p| ==> p[k] == '=' || p[k] in c.name || p[k] in c.value;
  }

  /** A header of a single cookie parses back to that cookie. */
  lemma ParseSinglePair(c: Cookie)
    requires WellFormedCookie(c)
    ensures ParseCookieHeader(CookiePair(c)) == [c]
  {
    var p := CookiePair(c);
    PairHasNoSemicolon(c);
    FirstIndexAbsent(p, ';');
    assert p[..|p|] == p;
    CookiePairRoundTrip(c);
  }

  /** Parsing `pair; tail` reads the pair, skips the separator and goes on with the tail. */
  lemma ParseAfterPair(c: Cookie, tail: string)
    requires WellFormedCookie(c)
    ensures ParseCookieHeader(CookiePair(c) + "; " + tail) == [c] + ParseCookieHeader(tail)
  {
    var p := CookiePair(c);
    var s := p + "; " + tail;
    PairHasNoSemicolon(c);
    assert s == p + [';'] + (" " + tail);
    FirstIndexAfter(p, ';', " " + tail);
    assert s[..|p|] == p;
    assert s[|p| + 1..] == " " + tail;
    assert (" " + tail)[1..] == tail;
    CookiePairRoundTrip(c);
  }

  /** The cookie header names every cookie, in order: parsing it gives the cookies back. */
  lemma {:induction false} CookieHeaderRoundTrip(cookies: seq<Cookie>)
    requires forall i :: 0 <= i < |cookies| ==> WellFormedCookie(cookies[i])
    ensures ParseCookieHeader(CookieHeader(cookies)) == cookies
    decreases |cookies|
  {
    if |cookies| == 1 {
      ParseSinglePair(cookies[0]);
    } else if |cookies| > 1 {
      ParseAfterPair(cookies[0], CookieHeader(cookies[1..]));
      CookieHeaderRoundTrip(cookies[1..]);
      assert [cookies[0]] + cookies[1..] == cookies;
    }
  }

  // ---------------------------------------------------------------------------
  // When getYouTubeFormats goes through the browser
  // ---------------------------------------------------------------------------

  /** Thirty minutes in milliseconds. */
  const StaleAfterMs: int := 30 * 60 * 1000

  /**
   * The browser path is taken when there are no cookies, no last update, or
   * the last update is more than thirty minutes old. (`!globalHeaders` is
   * false for every object, so it adds nothing.)
   */
  predicate NeedsBrowser(cookies: string, lastUpdate: Option<int>, now: int) {
    cookies == "" || lastUpdate.None? || lastUpdate.value < now - StaleAfterMs
  }

  /** Once stale, the state stays stale as time goes on. */
  lemma StalenessPersists(cookies: string, lastUpdate: Option<int>, now: int, later: int)
    requires NeedsBrowser(cookies, lastUpdate, now) && now <= later
    ensures NeedsBrowser(cookies, lastUpdate, later)
  {
  }

  /**
   * After a browser visit at `t` that returned at least one cookie, the next
   * thirty minutes (inclusive) use the plain request, and every later call
   * uses the browser again.
   */
  lemma FreshForThirtyMinutes(cookies: seq<Cookie>, t: int, now: int)
    requires cookies != [] && t <= now
    ensures !NeedsBrowser(CookieHeader(cookies), Some(t), now) <==> now <= t + StaleAfterMs
  {
    CookieHeaderEmpty(cookies);
  }

  /** A browser visit that returned no cookies leaves the next call on the browser path. */
  lemma NoCookiesMeansBrowserAgain(t: int, now: int)
    ensures NeedsBrowser(CookieHeader([]), Some(t), now)
  {
  }

  // ---------------------------------------------------------------------------
  // Format selection
  // ---------------------------------------------------------------------------

  /** What the model keeps of an adaptive format: its tag, MIME type and audio quality. */
  datatype Format = Format(itag: int, mimeType: string, audioQuality: string)

  predicate IsWebmAudio(f: Format) {
    StartsWith(f.mimeType, "audio/webm;")
  }

  /** `formats.filter(f => f.mimeType.startsWith("audio/webm;"))`. */
  function FilterWebmAudio(fs: seq<Format>): (r: seq<Format>)
    ensures forall i :: 0 <= i < |r| ==> IsWebmAudio(r[i])
    ensures forall f :: f in r <==> f in fs && IsWebmAudio(f)
  {
    if fs == [] then []
    else
      var rest := FilterWebmAudio(fs[1..]);
      assert fs == [fs[0]] + fs[1..];
      if IsWebmAudio(fs[0]) then [fs[0]] + rest else rest
  }

  /** Each WebM audio format is kept as often as it occurs in `fs`; no other format is kept. */
  lemma {:induction false} FilterKeepsEveryCopy(fs: seq<Format>)
    ensures forall f :: multiset(FilterWebmAudio(fs))[f] == if IsWebmAudio(f) then multiset(fs)[f] else 0
  {
    if fs != [] {
      FilterKeepsEveryCopy(fs[1..]);
      assert fs == [fs[0]] + fs[1..];
    }
  }

  /** Every position moved one place on. */
  function Shifted(idx: seq<nat>): (r: seq<nat>)
    ensures |r| == |idx| && forall k :: 0 <= k < |idx| ==> r[k] == idx[k] + 1
  {
    if idx == [] then [] else [idx[0] + 1] + Shifted(idx[1..])
  }

  /** `r` is `fs` read at the strictly increasing positions `idx`. */
  predicate ReadAt(r: seq<Format>, fs: seq<Format>, idx: seq<nat>) {
    && |idx| == |r|
    && (forall k :: 0 <= k < |idx| ==> idx[k] < |fs| && r[k] == fs[idx[k]])
    && (forall k, l :: 0 <= k < l < |idx| ==> idx[k] < idx[l])
  }

  /** Positions in `fs[1..]` are positions in `fs` moved one on, and position 0 can go in front. */
  lemma ReadAtShifted(r: seq<Format>, fs: seq<Format>, idx: seq<nat>)
    requires |fs| > 0 && ReadAt(r, fs[1..], idx)
    ensures ReadAt(r, fs, Shifted(idx))
    ensures ReadAt([fs[0]] + r, fs, [0] + Shifted(idx))
  {
    var moved := Shifted(idx);
    forall k | 0 <= k < |moved|
      ensures moved[k] < |fs| && r[k] == fs[moved[k]]
    {
      assert r[k] == fs[1..][idx[k]];
    }
    var r', idx' := [fs[0]] + r, [0] + moved;
    forall k | 1 <= k < |idx'|
      ensures idx'[k] < |fs| && r'[k] == fs[idx'[k]]
    {
      assert idx'[k] == moved[k - 1] && r'[k] == r[k - 1];
    }
    forall k, l | 0 <= k < l < |idx'|
      ensures idx'[k] < idx'[l]
    {
      assert idx'[l] == moved[l - 1];
      if k > 0 {
        assert idx'[k] == moved[k - 1];
      }
    }
  }

  /**
   * The filter keeps input order: its result is `fs` read at increasing
   * positions `idx`; `FilterKeepsEveryCopy` says which formats those are
   * (each WebM audio format as often as it occurs).
   */
  lemma {:induction false} FilterKeepsOrder(fs: seq<Format>) returns (idx: seq<nat>)
    ensures ReadAt(FilterWebmAudio(fs), fs, idx)
  {
    if fs == [] {
      return [];
    }
    var rest := FilterKeepsOrder(fs[1..]);
    var rr := FilterWebmAudio(fs[1..]);
    ReadAtShifted(rr, fs, rest);
    if IsWebmAudio(fs[0]) {
      assert FilterWebmAudio(fs) == [fs[0]] + rr;
      idx := [0] + Shifted(rest);
    } else {
      assert FilterWebmAudio(fs) == rr;
      idx := Shifted(rest);
    }
  }

  predicate IsMedium(f: Format) {
    f.audioQuality == "AUDIO_QUALITY_MEDIUM"
  }

  function QualityRank(f: Format): nat {
    if IsMedium(f) then 0 else 1
  }

  /** The sort's comparator: `aQuality - bQuality`. */
  function Compare(a: Format, b: Format): int {
    QualityRank(a) - QualityRank(b)
  }

  /**
   * Inserts `x`, which stood before every element of `sorted` in the input,
   * ahead of the first element it does not compare greater than.
   */
  function Insert(x: Format, sorted: seq<Format>): (r: seq<Format>)
    ensures multiset(r) == multiset(sorted) + multiset{x}
  {
    if sorted == [] then [x]
    else if Compare(x, sorted[0]) <= 0 then [x] + sorted
    else
      assert sorted == [sorted[0]] + sorted[1..];
      [sorted[0]] + Insert(x, sorted[1..])
  }

  /**
   * `formats.sort(compare)`: `Array.prototype.sort` is stable, and a stable
   * sort under a comparator is unique, so the model computes it by stable
   * insertion.
   */
  function SortByQuality(fs: seq<Format>): (r: seq<Format>)
    ensures multiset(r) == multiset(fs)
  {
    if fs == [] then []
    else
      assert fs == [fs[0]] + fs[1..];
      Insert(fs[0], SortByQuality(fs[1..]))
  }

  /** The formats whose medium-ness is `medium`, in input order. */
  function Group(fs: seq<Format>, medium: bool): (r: seq<Format>)
    ensures forall i :: 0 <= i < |r| ==> IsMedium(r[i]) == medium
  {
    if fs == [] then []
    else if IsMedium(fs[0]) == medium then [fs[0]] + Group(fs[1..], medium)
    else Group(fs[1..], medium)
  }

  lemma {:induction false} GroupConcat(a: seq<Format>, b: seq<Format>, medium: bool)
    ensures Group(a + b, medium) == Group(a, medium) + Group(b, medium)
  {
    if a != [] {
      assert (a + b)[1..] == a[1..] + b;
      GroupConcat(a[1..], b, medium);
    } else {
      assert a + b == b;
    }
  }

  lemma {:induction false} GroupOfGroup(fs: seq<Format>, medium: bool, other: bool)
    ensures Group(Group(fs, medium), other) == if medium == other then Group(fs, medium) else []
  {
    if fs != [] {
      GroupOfGroup(fs[1..], medium, other);
    }
  }

  predicate AllOfGroup(s: seq<Format>, medium: bool) {
    forall i :: 0 <= i < |s| ==> IsMedium(s[i]) == medium
  }

  /** A medium-quality format goes in front of everything already sorted. */
  lemma InsertMedium(x: Format, sorted: seq<Format>)
    requires IsMedium(x)
    ensures Insert(x, sorted) == [x] + sorted
  {
    if sorted != [] {
      assert Compare(x, sorted[0]) <= 0;
    }
  }

  /** Any other format goes after the medium-quality ones and before the others. */
  lemma {:induction false} InsertOther(x: Format, medium: seq<Format>, others: seq<Format>)
    requires !IsMedium(x)
    requires AllOfGroup(medium, true) && AllOfGroup(others, false)
    ensures Insert(x, medium + others) == medium + ([x] + others)
    decreases |medium|
  {
    if medium == [] {
      assert medium + others == others;
      if others != [] {
        assert !IsMedium(others[0]);
        assert Compare(x, others[0]) <= 0;
      }
    } else {
      var s := medium + others;
      assert s[0] == medium[0] && IsMedium(medium[0]);
      assert Compare(x, s[0]) > 0;
      assert s[1..] == medium[1..] + others;
      assert Insert(x, s) == [medium[0]] + Insert(x, medium[1..] + others);
      InsertOther(x, medium[1..], others);
      assert [medium[0]] + (medium[1..] + ([x] + others)) == medium + ([x] + others);
    }
  }

  /** The stable sort puts the medium-quality formats first and keeps each group in input order. */
  lemma {:induction false} SortIsStablePartition(fs: seq<Format>)
    ensures SortByQuality(fs) == Group(fs, true) + Group(fs, false)
  {
    if fs != [] {
      var x, m, o := fs[0], Group(fs[1..], true), Group(fs[1..], false);
      SortIsStablePartition(fs[1..]);
      assert SortByQuality(fs) == Insert(x, m + o);
      if IsMedium(x) {
        InsertMedium(x, m + o);
        assert Group(fs, true) == [x] + m;
        assert Group(fs, false) == o;
        assert [x] + (m + o) == ([x] + m) + o;
      } else {
        assert AllOfGroup(m, true) && AllOfGroup(o, false);
        InsertOther(x, m, o);
        assert Group(fs, true) == m;
        assert Group(fs, false) == [x] + o;
      }
    }
  }

  /** Filter, then sort: the formats `getYouTubeFormats` returns for a parsed page. */
  function SelectAudioFormats(fs: seq<Format>): (r: seq<Format>)
  {
    SortByQuality(FilterWebmAudio(fs))
  }

  /** Medium formats followed by other formats are ordered by rank. */
  lemma RankedConcat(m: seq<Format>, o: seq<Format>)
    requires AllOfGroup(m, true) && AllOfGroup(o, false)
    ensures forall i, j :: 0 <= i < j < |m + o| ==> QualityRank((m + o)[i]) <= QualityRank((m + o)[j])
  {
    var r := m + o;
    forall k | 0 <= k < |r| ensures QualityRank(r[k]) == if k < |m| then 0 else 1 {
      if k < |m| {
        assert r[k] == m[k];
      } else {
        assert r[k] == o[k - |m|];
      }
    }
  }

  /** After the sort every AUDIO_QUALITY_MEDIUM format comes before every other format. */
  lemma SortedByQuality(fs: seq<Format>)
    ensures var r := SortByQuality(fs);
      forall i, j :: 0 <= i < j < |r| ==> QualityRank(r[i]) <= QualityRank(r[j])
  {
    SortIsStablePartition(fs);
    RankedConcat(Group(fs, true), Group(fs, false));
  }

  /** The sort keeps the relative order of the medium formats and of the other formats. */
  lemma SortIsStable(fs: seq<Format>)
    ensures Group(SortByQuality(fs), true) == Group(fs, true)
    ensures Group(SortByQuality(fs), false) == Group(fs, false)
  {
    var m, o := Group(fs, true), Group(fs, false);
    SortIsStablePartition(fs);
    GroupConcat(m, o, true);
    GroupConcat(m, o, false);
    GroupOfGroup(fs, true, true);
    GroupOfGroup(fs, false, true);
    GroupOfGroup(fs, true, false);
    GroupOfGroup(fs, false, false);
    assert Group(m, true) + Group(o, true) == m + [];
    assert Group(m, false) + Group(o, false) == [] + o;
  }

  /**
   * The formats `getYouTubeFormats` returns: exactly the WebM audio formats,
   * the medium-quality ones first, each group in the order the filter keeps.
   */
  lemma SelectAudioFormatsSpec(fs: seq<Format>)
    ensures var r := SelectAudioFormats(fs);
      && r == Group(FilterWebmAudio(fs), true) + Group(FilterWebmAudio(fs), false)
      && multiset(r) == multiset(FilterWebmAudio(fs))
      && (forall f :: f in r <==> f in fs && IsWebmAudio(f))
  {
    var w := FilterWebmAudio(fs);
    var r := SelectAudioFormats(fs);
    SortIsStablePartition(w);
    forall f ensures f in r <==> f in fs && IsWebmAudio(f) {
      assert f in r <==> f in multiset(r);
      assert f in w <==> f in multiset(w);
    }
  }

  // ---------------------------------------------------------------------------
  // getYouTubeFormats
  // ---------------------------------------------------------------------------

  datatype FormatsError =
    | FailedToGet     // "Failed to get YouTube formats": no ytInitialPlayerResponse
    | FailedToParse   // "Failed to parse YouTube formats"

  /**
   * What the page body yields: the text the `ytInitialPlayerResponse` pattern
   * captured (None when it did not match), and the `adaptiveFormats` that
   * parsing that text produced (None when parsing failed or the field is
   * missing).
   */
  datatype PlayerPage = PlayerPage(playerResponse: Option<string>, adaptiveFormats: Option<seq<Format>>)

  /** The tail of `getYouTubeFormats`, from the page body to its result. */
  function FormatsFromPage(page: PlayerPage): (r: Result<seq<Format>, FormatsError>)
    ensures r == Err(FailedToGet) <==> page.playerResponse.None? || page.playerResponse.value == ""
    ensures r == Err(FailedToParse) <==>
      page.playerResponse.Some? && page.playerResponse.value != "" && page.adaptiveFormats.None?
    ensures r.Ok? ==> (page.adaptiveFormats.Some? &&
      forall f :: f in r.value <==> f in page.adaptiveFormats.value && IsWebmAudio(f))
  {
    if page.playerResponse.None? || page.playerResponse.value == "" then Err(FailedToGet)
    else if page.adaptiveFormats.None? then Err(FailedToParse)
    else
      SelectAudioFormatsSpec(page.adaptiveFormats.value);
      Ok(SelectAudioFormats(page.adaptiveFormats.value))
  }

  /** What a browser visit captures: the first request's headers (if one was seen), the page and the cookies. */
  datatype BrowserVisit = BrowserVisit(requestHeaders: Option<Headers>, page: PlayerPage, cookies: seq<Cookie>)

  /** The module-level state of src/utils/Request.ts. */
  class YouTubeSession {
    var globalHeaders: Headers
    var globalCookies: string
    var lastUpdate: Option<int>

    constructor ()
      ensures globalHeaders == map[] && globalCookies == "" && lastUpdate == None
    {
      globalHeaders := map[];
      globalCookies := "";
      lastUpdate := None;
    }

    /**
     * `getYouTubeFormats(id)` called at time `now`. On the browser path the
     * visit's first request headers and its cookies become the globals and
     * `lastUpdate` becomes `finishedAt`; on the plain path nothing changes.
     * The page that was loaded decides the result.
     */
    method GetYouTubeFormats(now: int, visit: BrowserVisit, finishedAt: int, plainPage: PlayerPage)
      returns (r: Result<seq<Format>, FormatsError>, usedBrowser: bool)
      modifies this
      ensures usedBrowser == NeedsBrowser(old(globalCookies), old(lastUpdate), now)
      ensures usedBrowser ==>
        && globalHeaders == (if visit.requestHeaders.Some? then visit.requestHeaders.value else old(globalHeaders))
        && globalCookies == CookieHeader(visit.cookies)
        && lastUpdate == Some(finishedAt)
        && r == FormatsFromPage(visit.page)
      ensures !usedBrowser ==>
        && globalHeaders == old(globalHeaders) && globalCookies == old(globalCookies) && lastUpdate == old(lastUpdate)
        && r == FormatsFromPage(plainPage)
    {
      var page: PlayerPage;
      usedBrowser := NeedsBrowser(globalCookies, lastUpdate, now);
      if usedBrowser {
        if visit.requestHeaders.Some? {
          globalHeaders := visit.requestHeaders.value;
        }
        page := visit.page;
        globalCookies := CookieHeader(visit.cookies);
        lastUpdate := Some(finishedAt);
      } else {
        page := plainPage;
      }
      r := FormatsFromPage(page);
    }
  }
}
