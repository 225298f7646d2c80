/** The pure part of src/music/YoutubeMusicPlayer.ts (and its duplicates in
    src/music/MusicManager.ts): turning a user query into yt-dlp's input,
    turning yt-dlp's JSON into a TrackInfo, choosing the playback strategy
    and building ffmpeg's argument lists. */
module YtDlp {
  import opened Optional
  import opened Js
  import opened Text

  const DefaultFormat: string := "bestaudio[acodec=opus]/bestaudio/best"
  const SearchPrefix: string := "ytsearch1:"
  const UnknownTitle: string := "Unknown title"

  /** The player's settings after the constructor has applied its defaults. */
  datatype PlayerConfig = PlayerConfig(cookiesPath: Option<string>, pipeFromYtdlp: bool, ytdlpFormat: string)

  /** A resolved track. The display fields keep whatever value yt-dlp gave,
      because the `??` chains pass any non-nullish value through. */
  datatype TrackInfo = TrackInfo(
    title: Value,
    webpageUrl: Value,
    thumbnailUrl: Value,
    requestedBy: Option<string>,
    audioUrl: Option<string>,
    acodec: Value)

  /** The direct audio stream picked from yt-dlp's output. */
  datatype Picked = Picked(url: string, acodec: Value)

  /** The two ways of turning a track into an Ogg Opus stream. */
  datatype Strategy =
    | PipeFromYtdlp(videoUrl: Value)              // yt-dlp -> stdout -> ffmpeg
    | DirectUrl(audioUrl: string, acodec: Value)  // ffmpeg reads the CDN URL

  // ---------------------------------------------------------------------------
  // Constructor and yt-dlp invocation

  /** The constructor: piping is on unless explicitly turned off, the format
      defaults to Opus-first. */
  function NewPlayerConfig(cookiesPath: Option<string>, pipeFromYtdlp: Option<bool>,
                           ytdlpFormat: Option<string>): (c: PlayerConfig)
    ensures c.pipeFromYtdlp <==> pipeFromYtdlp != Some(false)
    ensures c.ytdlpFormat == (if ytdlpFormat.Some? then ytdlpFormat.value else DefaultFormat)
    ensures c.cookiesPath == cookiesPath
  {
    PlayerConfig(cookiesPath, pipeFromYtdlp.GetOr(true), ytdlpFormat.GetOr(DefaultFormat))
  }

  /** What yt-dlp is asked to resolve: a URL as it is, anything else as a
      one-result search. */
  function YtDlpInput(queryOrUrl: string, isUrl: bool): string
  {
    if isUrl then queryOrUrl else SearchPrefix + queryOrUrl
  }

  /** The query always survives intact at the end of yt-dlp's input, behind
      the search prefix exactly when it is not a URL. */
  lemma YtDlpInputKeepsQuery(queryOrUrl: string, isUrl: bool)
    ensures var r := YtDlpInput(queryOrUrl, isUrl);
      && |r| == |queryOrUrl| + (if isUrl then 0 else |SearchPrefix|)
      && r[|r| - |queryOrUrl|..] == queryOrUrl
      && (!isUrl ==> SearchPrefix <= r)
  {
  }

  /** yt-dlp's cookie file is passed on when the path is a non-empty string. */
  predicate PassesCookies(c: PlayerConfig)
  {
    c.cookiesPath.Some? && c.cookiesPath.value != ""
  }

  /** The options of the metadata call (`resolveWithYtDlp`). */
  function ResolveOptions(c: PlayerConfig): (o: map<string, Value>)
    ensures "cookies" in o <==> PassesCookies(c)
    ensures "cookies" in o ==> o["cookies"] == Str(c.cookiesPath.value)
    ensures "format" in o && o["format"] == Str(c.ytdlpFormat)
    ensures "defaultSearch" in o && o["defaultSearch"] == Str("ytsearch1")
    ensures "dumpSingleJson" in o && o["dumpSingleJson"] == Bool(true)
    ensures "noPlaylist" in o && o["noPlaylist"] == Bool(true)
  {
    var common := map[
      "dumpSingleJson" := Bool(true), "noWarnings" := Bool(true), "noPlaylist" := Bool(true),
      "defaultSearch" := Str("ytsearch1"), "format" := Str(c.ytdlpFormat), "jsRuntimes" := Str("node")];
    if PassesCookies(c) then common["cookies" := Str(c.cookiesPath.value)] else common
  }

  /** The options of the download call of the pipe strategy. */
  function PipeDownloadOptions(c: PlayerConfig): (o: map<string, Value>)
    ensures "cookies" in o <==> PassesCookies(c)
    ensures "output" in o && o["output"] == Str("-")
    ensures "format" in o && o["format"] == Str(c.ytdlpFormat)
  {
    var common := map[
      "output" := Str("-"), "format" := Str(c.ytdlpFormat), "noPlaylist" := Bool(true),
      "jsRuntimes" := Str("node")];
    if PassesCookies(c) then common["cookies" := Str(c.cookiesPath.value)] else common
  }

  // ---------------------------------------------------------------------------
  // Search results

  /** Index of the first object-like element of `items`, or `|items|`. */
  function FirstObjectIndex(items: seq<Value>): (i: nat)
    ensures i <= |items|
    ensures i < |items| ==> IsObjectLike(items[i])
    ensures forall j :: 0 <= j < i ==> !IsObjectLike(items[j])
  {
    if items == [] then 0
    else if IsObjectLike(items[0]) then 0
    else 1 + FirstObjectIndex(items[1..])
  }

  /** `firstSearchEntry(info)`: the first truthy object in `info.entries`,
      or null. */
  function FirstSearchEntry(info: Value): (r: Value)
    ensures r.Null? || IsObjectLike(r)
    ensures !Get(info, "entries").Arr? ==> r.Null?
    ensures Get(info, "entries").Arr? ==>
      var items := Get(info, "entries").items;
      && (r.Null? <==> forall j :: 0 <= j < |items| ==> !IsObjectLike(items[j]))
      && (!r.Null? ==> exists i :: 0 <= i < |items| && items[i] == r
                                 && forall j :: 0 <= j < i ==> !IsObjectLike(items[j]))
  {
    var entries := Get(info, "entries");
    if !entries.Arr? then Null
    else
      var i := FirstObjectIndex(entries.items);
      if i < |entries.items| then entries.items[i] else Null
  }

  /** The object metadata is read from: the first search entry if there is
      one, else the top-level output. */
  function MetadataSource(info: Value): Value
  {
    Coalesce(FirstSearchEntry(info), info)
  }

  // ---------------------------------------------------------------------------
  // Picking a direct audio stream

  /** `Number(f?.abr ?? 0)` for the values yt-dlp puts there. */
  function Abr(f: Value): real
  {
    match Coalesce(Get(f, "abr"), Num(0.0))
    case Num(n) => n
    case Bool(b) => if b then 1.0 else 0.0
    case _ => 0.0
  }

  /** The filter of the third tier: a string URL and an audio codec other
      than "none" (a missing codec counts as "none"). */
  predicate IsAudioCandidate(f: Value)
  {
    Get(f, "url").Str? && Coalesce(Get(f, "acodec"), Str("none")) != Str("none")
  }

  function Candidates(formats: seq<Value>): (c: seq<Value>)
    ensures forall x :: x in c ==> IsAudioCandidate(x) && x in formats
    ensures forall x :: x in formats && IsAudioCandidate(x) ==> x in c
    ensures |c| <= |formats|
  {
    if formats == [] then []
    else (if IsAudioCandidate(formats[0]) then [formats[0]] else []) + Candidates(formats[1..])
  }

  /** `filter` works piece by piece: the candidates of `a + b` are those of
      `a` followed by those of `b`, so they keep the order and the
      repetitions of `formats`. */
  lemma {:induction false} CandidatesAppend(a: seq<Value>, b: seq<Value>)
    ensures Candidates(a + b) == Candidates(a) + Candidates(b)
  {
    if a == [] {
      assert a + b == b;
    } else {
      assert (a + b)[0] == a[0];
      assert (a + b)[1..] == a[1..] + b;
      CandidatesAppend(a[1..], b);
    }
  }

  /** Places `x` in front of the first element with a strictly lower bitrate:
      one step of the stable descending sort by `abr`. */
  function InsertByAbr(x: Value, s: seq<Value>): (r: seq<Value>)
    ensures multiset(r) == multiset(s) + multiset{x}
  {
    if s == [] || Abr(x) >= Abr(s[0]) then [x] + s
    else
      assert s == [s[0]] + s[1..];
      [s[0]] + InsertByAbr(x, s[1..])
  }

  /** `c.sort((a, b) => abr(b) - abr(a))`: a stable sort, highest bitrate first. */
  function SortByAbrDesc(c: seq<Value>): (r: seq<Value>)
    ensures multiset(r) == multiset(c)
  {
    if c == [] then []
    else
      assert c == [c[0]] + c[1..];
      InsertByAbr(c[0], SortByAbrDesc(c[1..]))
  }

  /** Index of the first element of greatest bitrate. */
  function BestIndex(c: seq<Value>): (i: nat)
    requires c != []
    ensures i < |c|
    ensures forall j :: 0 <= j < |c| ==> Abr(c[j]) <= Abr(c[i])
    ensures forall j :: 0 <= j < i ==> Abr(c[j]) < Abr(c[i])
  {
    if |c| == 1 then 0
    else
      var k := 1 + BestIndex(c[1..]);
      if Abr(c[0]) >= Abr(c[k]) then 0 else k
  }

  lemma {:induction false} InsertByAbrHead(x: Value, s: seq<Value>)
    ensures InsertByAbr(x, s)[0] == (if s == [] || Abr(x) >= Abr(s[0]) then x else s[0])
  {
  }

  /** The head of the sorted candidates is the earliest candidate of
      greatest bitrate. */
  lemma {:induction false} SortHeadIsBest(c: seq<Value>)
    ensures c != [] ==> SortByAbrDesc(c)[0] == c[BestIndex(c)]
  {
    if c != [] {
      SortHeadIsBest(c[1..]);
      InsertByAbrHead(c[0], SortByAbrDesc(c[1..]));
    }
  }

  /** `formats[k]` is an audio candidate of greatest bitrate, and every
      candidate before it has a lower one. */
  predicate EarliestBest(formats: seq<Value>, k: nat)
  {
    && k < |formats| && IsAudioCandidate(formats[k])
    && (forall j :: 0 <= j < |formats| && IsAudioCandidate(formats[j]) ==> Abr(formats[j]) <= Abr(formats[k]))
    && (forall j :: 0 <= j < k && IsAudioCandidate(formats[j]) ==> Abr(formats[j]) < Abr(formats[k]))
  }

  lemma EarliestBestTail(formats: seq<Value>, k: nat)
    requires formats != [] && k > 0 && EarliestBest(formats, k)
    ensures EarliestBest(formats[1..], k - 1)
  {
    var rest := formats[1..];
    forall j | 0 <= j < |rest|
      ensures rest[j] == formats[j + 1]
    {
    }
  }

  lemma EarliestBestShift(formats: seq<Value>, k: nat)
    requires formats != [] && EarliestBest(formats[1..], k)
    requires IsAudioCandidate(formats[0]) ==> Abr(formats[0]) < Abr(formats[k + 1])
    ensures EarliestBest(formats, k + 1)
  {
    var rest := formats[1..];
    assert formats[k + 1] == rest[k];
    forall j | 1 <= j < |formats|
      ensures formats[j] == rest[j - 1]
    {
    }
  }

  lemma EarliestBestHead(formats: seq<Value>)
    requires formats != [] && IsAudioCandidate(formats[0])
    requires forall j :: 1 <= j < |formats| && IsAudioCandidate(formats[j]) ==> Abr(formats[j]) <= Abr(formats[0])
    ensures EarliestBest(formats, 0)
  {
  }

  /** Whenever `formats` holds a candidate, one of them is the earliest of
      greatest bitrate. */
  lemma {:induction false} EarliestBestExists(formats: seq<Value>)
    requires Candidates(formats) != []
    ensures exists k :: EarliestBest(formats, k)
    decreases |formats|
  {
    var rest := formats[1..];
    if !IsAudioCandidate(formats[0]) {
      assert Candidates(formats) == Candidates(rest);
      EarliestBestExists(rest);
      var k': nat :| EarliestBest(rest, k');
      EarliestBestShift(formats, k');
    } else if Candidates(rest) == [] {
      assert forall x :: x in rest ==> !IsAudioCandidate(x);
      assert forall j :: 1 <= j < |formats| ==> formats[j] == rest[j - 1];
      EarliestBestHead(formats);
    } else {
      EarliestBestExists(rest);
      var k': nat :| EarliestBest(rest, k');
      if Abr(formats[0]) >= Abr(rest[k']) {
        forall j | 1 <= j < |formats| && IsAudioCandidate(formats[j])
          ensures Abr(formats[j]) <= Abr(formats[0])
        {
          assert formats[j] == rest[j - 1];
        }
        EarliestBestHead(formats);
      } else {
        EarliestBestShift(formats, k');
      }
    }
  }

  lemma BestIndexCons(x: Value, c: seq<Value>)
    requires c != []
    ensures BestIndex([x] + c) == if Abr(x) >= Abr(c[BestIndex(c)]) then 0 else 1 + BestIndex(c)
  {
    assert ([x] + c)[1..] == c;
  }

  lemma CandidateAtMostBest(formats: seq<Value>, k: nat, x: Value)
    requires EarliestBest(formats, k) && x in Candidates(formats)
    ensures Abr(x) <= Abr(formats[k])
  {
    var j :| 0 <= j < |formats| && formats[j] == x;
  }

  /** The earliest candidate of greatest bitrate among the candidates is the
      earliest one among `formats`. */
  lemma {:induction false} BestCandidateIsEarliestBest(formats: seq<Value>, k: nat)
    requires EarliestBest(formats, k)
    ensures Candidates(formats) != [] && Candidates(formats)[BestIndex(Candidates(formats))] == formats[k]
    decreases |formats|
  {
    var c := Candidates(formats);
    var rest := formats[1..];
    var c' := Candidates(rest);
    assert formats[k] in c;
    if !IsAudioCandidate(formats[0]) {
      assert c == c';
      EarliestBestTail(formats, k);
      BestCandidateIsEarliestBest(rest, k - 1);
    } else {
      assert c == [formats[0]] + c';
      if c' == [] {
        assert c == [formats[0]];
        assert k == 0;
      } else if k == 0 {
        var bi := BestIndex(c');
        assert c'[bi] in c';
        assert c'[bi] in c;
        CandidateAtMostBest(formats, 0, c'[bi]);
        BestIndexCons(formats[0], c');
      } else {
        EarliestBestTail(formats, k);
        BestCandidateIsEarliestBest(rest, k - 1);
        BestIndexCons(formats[0], c');
      }
    }
  }

  /** The `acodec` that goes with a picked URL: `x ?? undefined`. */
  function CodecOf(f: Value): Value
  {
    if Get(f, "acodec").Null? then Undefined else Get(f, "acodec")
  }

  /** Tier 1: a non-empty top-level string `url`. */
  predicate HasTopLevelUrl(info: Value)
  {
    Get(info, "url").Str? && Get(info, "url").s != ""
  }

  /** Tier 2: `requested_formats` is an array whose first element has a
      string `url` (which may be empty). */
  predicate HasRequestedFormat(info: Value)
  {
    Get(info, "requested_formats").Arr? && Get(At(Get(info, "requested_formats"), 0), "url").Str?
  }

  /** Tier 3: `formats` is an array holding at least one audio candidate. */
  predicate HasAudioFormat(info: Value)
  {
    Get(info, "formats").Arr? && Candidates(Get(info, "formats").items) != []
  }

  /** `pickAudioUrlAndCodec(info)`. */
  function PickAudioUrlAndCodec(info: Value): (r: Option<Picked>)
    ensures r.None? <==> !HasTopLevelUrl(info) && !HasRequestedFormat(info) && !HasAudioFormat(info)
    ensures HasTopLevelUrl(info) ==> r == Some(Picked(Get(info, "url").s, CodecOf(info)))
    ensures !HasTopLevelUrl(info) && HasRequestedFormat(info) ==>
      var f := At(Get(info, "requested_formats"), 0);
      r == Some(Picked(Get(f, "url").s, CodecOf(f)))
    ensures r.Some? ==> !r.value.acodec.Null?
  {
    if HasTopLevelUrl(info) then
      Some(Picked(Get(info, "url").s, CodecOf(info)))
    else if HasRequestedFormat(info) then
      var f := At(Get(info, "requested_formats"), 0);
      Some(Picked(Get(f, "url").s, CodecOf(f)))
    else if Get(info, "formats").Arr? then
      var c := Candidates(Get(info, "formats").items);
      var sorted := SortByAbrDesc(c);
      assert sorted != [] ==> sorted[0] in multiset(c) && sorted[0] in c && IsAudioCandidate(sorted[0]);
      assert sorted == [] ==> |c| == |multiset(c)| == 0;
      if sorted != [] && Get(sorted[0], "url").Str? then
        Some(Picked(Get(sorted[0], "url").s, CodecOf(sorted[0])))
      else None
    else None
  }

  /** Tier 3 picks, among the formats with a string URL and an audio codec,
      the one with the greatest bitrate, the earliest of equals. */
  lemma PickFromFormats(info: Value)
    requires !HasTopLevelUrl(info) && !HasRequestedFormat(info) && HasAudioFormat(info)
    ensures var c := Candidates(Get(info, "formats").items);
      var best := c[BestIndex(c)];
      && IsAudioCandidate(best)
      && PickAudioUrlAndCodec(info) == Some(Picked(Get(best, "url").s, CodecOf(best)))
  {
    var c := Candidates(Get(info, "formats").items);
    SortHeadIsBest(c);
    assert c[BestIndex(c)] in c;
  }

  /** Tier 3 in terms of `formats` itself: the pick is the earliest format of
      greatest bitrate among those with a string URL and an audio codec. */
  lemma PickIsEarliestBestFormat(info: Value, k: nat)
    requires !HasTopLevelUrl(info) && !HasRequestedFormat(info) && Get(info, "formats").Arr?
    requires EarliestBest(Get(info, "formats").items, k)
    ensures var f := Get(info, "formats").items[k];
      PickAudioUrlAndCodec(info) == Some(Picked(Get(f, "url").s, CodecOf(f)))
  {
    BestCandidateIsEarliestBest(Get(info, "formats").items, k);
    PickFromFormats(info);
  }

  // ---------------------------------------------------------------------------
  // Track derivation

  /** The TrackInfo built from the object `source` chosen as metadata. */
  function TrackFromSource(queryOrUrl: string, requestedBy: Option<string>, source: Value): (t: TrackInfo)
    ensures t.title == Coalesce(Coalesce(Get(source, "title"), Get(source, "fulltitle")), Str(UnknownTitle))
    ensures t.webpageUrl == Coalesce(Coalesce(Get(source, "webpage_url"), Get(source, "original_url")), Str(queryOrUrl))
    ensures !Nullish(t.title) && !Nullish(t.webpageUrl)
    ensures t.requestedBy == requestedBy
    ensures var p := PickAudioUrlAndCodec(source);
      && (t.audioUrl.Some? <==> p.Some?)
      && (p.Some? ==> t.audioUrl == Some(p.value.url) && t.acodec == p.value.acodec)
      && (p.None? ==> t.acodec == Undefined)
  {
    var picked := PickAudioUrlAndCodec(source);
    TrackInfo(
      Coalesce(Coalesce(Get(source, "title"), Get(source, "fulltitle")), Str(UnknownTitle)),
      Coalesce(Coalesce(Get(source, "webpage_url"), Get(source, "original_url")), Str(queryOrUrl)),
      Coalesce(Get(source, "thumbnail"),
               if Get(source, "thumbnails").Arr? then Get(Last(Get(source, "thumbnails")), "url") else Undefined),
      requestedBy,
      if picked.Some? then Some(picked.value.url) else None,
      if picked.Some? then picked.value.acodec else Undefined)
  }

  /** `YoutubeMusicPlayer.resolveWithYtDlp`, after yt-dlp has answered `info`. */
  function ResolveTrack(queryOrUrl: string, requestedBy: Option<string>, info: Value): TrackInfo
  {
    TrackFromSource(queryOrUrl, requestedBy, MetadataSource(info))
  }

  /** `MusicManager.resolveWithYtDlp`: the same derivation without the
      search-entry step; it reads the top-level output even when that holds
      search `entries`. */
  function ResolveTrackDirect(queryOrUrl: string, requestedBy: Option<string>, info: Value): TrackInfo
  {
    TrackFromSource(queryOrUrl, requestedBy, info)
  }

  /** The fallbacks fall through only on null and undefined: an empty title
      is kept, and "Unknown title" appears only when both title fields are
      missing. */
  lemma TitleFallback(queryOrUrl: string, requestedBy: Option<string>, info: Value)
    ensures var src := MetadataSource(info);
      var t := ResolveTrack(queryOrUrl, requestedBy, info);
      && (Get(src, "title") == Str("") ==> t.title == Str(""))
      && (t.title == Str(UnknownTitle) <==>
            (Get(src, "title") == Str(UnknownTitle))
            || (Nullish(Get(src, "title")) && Get(src, "fulltitle") == Str(UnknownTitle))
            || (Nullish(Get(src, "title")) && Nullish(Get(src, "fulltitle"))))
      && (Nullish(Get(src, "webpage_url")) && Nullish(Get(src, "original_url")) ==> t.webpageUrl == Str(queryOrUrl))
  {
  }

  /** The manager's resolver falls back like the player's, on the top-level
      output: an empty title is kept, "Unknown title" appears only when a
      title field says so or both are missing, and the query is the page URL
      only when both URL fields are missing. */
  lemma DirectTitleFallback(queryOrUrl: string, requestedBy: Option<string>, info: Value)
    ensures var t := ResolveTrackDirect(queryOrUrl, requestedBy, info);
      && (Get(info, "title") == Str("") ==> t.title == Str(""))
      && (t.title == Str(UnknownTitle) <==>
            (Get(info, "title") == Str(UnknownTitle))
            || (Nullish(Get(info, "title")) && Get(info, "fulltitle") == Str(UnknownTitle))
            || (Nullish(Get(info, "title")) && Nullish(Get(info, "fulltitle"))))
      && (Nullish(Get(info, "webpage_url")) && Nullish(Get(info, "original_url")) ==> t.webpageUrl == Str(queryOrUrl))
  {
  }

  /** The two resolvers agree unless yt-dlp's output holds a search entry;
      for a search result whose entry alone carries the title, the manager
      reports "Unknown title" and the query as the page URL. */
  lemma DirectSkipsEntries(queryOrUrl: string, requestedBy: Option<string>, info: Value, title: string)
    ensures FirstSearchEntry(info).Null? ==>
      ResolveTrackDirect(queryOrUrl, requestedBy, info) == ResolveTrack(queryOrUrl, requestedBy, info)
    ensures var search := Obj(map["entries" := Arr([Obj(map["title" := Str(title)])])]);
      && ResolveTrack(queryOrUrl, requestedBy, search).title == Str(title)
      && ResolveTrackDirect(queryOrUrl, requestedBy, search).title == Str(UnknownTitle)
      && ResolveTrackDirect(queryOrUrl, requestedBy, search).webpageUrl == Str(queryOrUrl)
  {
    var e := Obj(map["title" := Str(title)]);
    var search := Obj(map["entries" := Arr([e])]);
    assert FirstObjectIndex([e]) == 0;
    assert FirstSearchEntry(search) == e;
  }

  /** When yt-dlp returns search results, metadata comes from the first
      object among them; otherwise from the top-level output. */
  lemma SourceIsFirstEntry(info: Value)
    ensures var e := FirstSearchEntry(info);
      MetadataSource(info) == (if e.Null? then info else e)
  {
  }

  /** The thumbnail is `thumbnail`, else the `url` of the last element of
      `thumbnails`, else absent: also when `thumbnails` is an empty array,
      whose `at(-1)` is undefined. */
  lemma ThumbnailFallback(queryOrUrl: string, requestedBy: Option<string>, source: Value)
    ensures var t := TrackFromSource(queryOrUrl, requestedBy, source);
      && (!Nullish(Get(source, "thumbnail")) ==> t.thumbnailUrl == Get(source, "thumbnail"))
      && (Nullish(Get(source, "thumbnail")) && Get(source, "thumbnails").Arr? && Get(source, "thumbnails").items != [] ==>
            var th := Get(source, "thumbnails").items;
            t.thumbnailUrl == Get(th[|th| - 1], "url"))
      && (Nullish(Get(source, "thumbnail")) && Get(source, "thumbnails").Arr? && Get(source, "thumbnails").items == [] ==>
            t.thumbnailUrl == Undefined)
      && (Nullish(Get(source, "thumbnail")) && !Get(source, "thumbnails").Arr? ==> t.thumbnailUrl == Undefined)
  {
  }

  // ---------------------------------------------------------------------------
  // Strategy and ffmpeg arguments

  /** `createResourceForTrack`: the direct URL is used only when piping is
      off and the track has a non-empty audio URL. */
  function ChooseStrategy(pipeFromYtdlp: bool, t: TrackInfo): (s: Strategy)
    ensures s.DirectUrl? <==> !pipeFromYtdlp && t.audioUrl.Some? && t.audioUrl.value != ""
    ensures s.PipeFromYtdlp? ==> s.videoUrl == t.webpageUrl
    ensures s.DirectUrl? ==> s.audioUrl == t.audioUrl.value && s.acodec == t.acodec
  {
    if pipeFromYtdlp then PipeFromYtdlp(t.webpageUrl)
    else if t.audioUrl.None? || t.audioUrl.value == "" then PipeFromYtdlp(t.webpageUrl)
    else DirectUrl(t.audioUrl.value, t.acodec)
  }

  /** MusicManager.ts fixes `PIPE_FROM_YTDLP` to true, so it always pipes. */
  lemma ManagerAlwaysPipes(t: TrackInfo)
    ensures ChooseStrategy(true, t) == PipeFromYtdlp(t.webpageUrl)
  {
  }

  /** `(acodec ?? "").toLowerCase().includes("opus")`; `None` when `acodec`
      is neither nullish nor a string, where `toLowerCase` throws. */
  function IsOpus(acodec: Value): Option<bool>
  {
    if Nullish(acodec) then Some(false)
    else if acodec.Str? then Some(Contains(ToLower(acodec.s), "opus"))
    else None
  }

  const EncodeToOpus: seq<string> := [
    "-af", "aresample=async=1:first_pts=0",
    "-c:a", "libopus", "-b:a", "96k", "-vbr", "on",
    "-compression_level", "0", "-frame_duration", "20",
    "-f", "ogg"]

  const CopyOpus: seq<string> := ["-c:a", "copy", "-f", "ogg"]

  /** ffmpeg's arguments for the pipe strategy: read stdin, re-encode. */
  const PipeArgs: seq<string> := ["-hide_banner", "-loglevel", "error", "-i", "pipe:0", "-vn"] + EncodeToOpus

  /** The pipe strategy's ffmpeg reads standard input with video dropped and
      re-encodes with libopus at 96k into Ogg, never copying. */
  lemma PipeArgsShape()
    ensures |PipeArgs| == 20 && PipeArgs[3..6] == ["-i", "pipe:0", "-vn"] && PipeArgs[6..] == EncodeToOpus
    ensures PipeArgs[9] == "libopus" && PipeArgs[11] == "96k" && PipeArgs[|PipeArgs| - 2..] == ["-f", "ogg"]
    ensures "copy" !in PipeArgs
  {
  }

  const DirectPrefix: seq<string> := [
    "-hide_banner", "-loglevel", "error",
    "-user_agent", "Mozilla/5.0", "-referer", "https://www.youtube.com/",
    "-reconnect", "1", "-reconnect_streamed", "1", "-reconnect_delay_max", "5"]

  /** ffmpeg's arguments for the direct-URL strategy; `None` where building
      them throws. */
  function DirectArgs(audioUrl: string, acodec: Value): Option<seq<string>>
  {
    match IsOpus(acodec)
    case None => None
    case Some(opus) => Some(DirectPrefix + ["-i", audioUrl, "-vn"] + (if opus then CopyOpus else EncodeToOpus))
  }

  /** Both direct-URL lists read `audioUrl` with video dropped and produce
      Ogg; an Opus source is copied, anything else re-encoded with libopus
      at 96k. */
  lemma DirectArgsShape(audioUrl: string, acodec: Value)
    requires Nullish(acodec) || acodec.Str?
    ensures var r := DirectArgs(audioUrl, acodec);
      && r.Some?
      && var a := r.value;
      && |a| >= 20 && a[13..16] == ["-i", audioUrl, "-vn"] && a[|a| - 2..] == ["-f", "ogg"]
      && (IsOpus(acodec) == Some(true) ==> a[16..] == ["-c:a", "copy", "-f", "ogg"])
      && (IsOpus(acodec) == Some(false) ==> a[16..] == EncodeToOpus && "libopus" in a && "96k" in a)
      && (IsOpus(acodec) == Some(true) <==> a[17] == "copy")
  {
    var a := DirectArgs(audioUrl, acodec).value;
    if IsOpus(acodec) == Some(false) {
      assert a[19] == "libopus" && a[21] == "96k";
    }
  }

  /** A codec name counts as Opus exactly when it mentions "opus" in any
      letter case. */
  lemma OpusDetection(name: string)
    ensures IsOpus(Str(name)) == Some(Contains(ToLower(name), "opus"))
    ensures IsOpus(Str("opus")) == Some(true) && IsOpus(Undefined) == Some(false)
  {
    assert ToLower("opus") == "opus";
  }
}
