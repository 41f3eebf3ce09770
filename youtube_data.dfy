/** The video-platform data client: video-id extraction and the three fetch operations.
    The HTTP endpoints are an oracle (`Api`): each maps the request's subject to the reply
    the endpoint would give: an error body, a JSON result whose `items` may be absent, or a thrown
    network error. */
module YouTubeData {
  import opened Wrappers
  import opened Strings
  import opened Types

  const ShortHost := "youtu.be/"
  const FullHost := "youtube.com/"

  /** `new URL(url).search`: the query component ("" or "?…"), or None when the URL constructor throws. */
  type UrlParser = string -> Option<string>

  predicate IsIdChar(c: char) {
    'a' <= c <= 'z' || 'A' <= c <= 'Z' || '0' <= c <= '9' || c == '_' || c == '-'
  }

  /** The bare-id pattern: exactly eleven letters, digits, `_` or `-`. */
  predicate IsBareVideoId(s: string) {
    |s| == 11 && forall i :: 0 <= i < |s| ==> IsIdChar(s[i])
  }

  /** JavaScript truthiness of a `string | null`. */
  predicate Truthy(id: Option<string>) {
    id.Some? && id.value != ""
  }

  /** The name of one `name=value` query pair (all of it when it has no `=`). */
  function PairName(pair: string): string {
    match IndexOf(pair, "=")
    case None => pair
    case Some(i) => pair[..i]
  }

  /** The value of one `name=value` query pair (empty when it has no `=`). */
  function PairValue(pair: string): string {
    match IndexOf(pair, "=")
    case None => ""
    case Some(i) => pair[i + 1..]
  }

  /** The value of the first non-empty pair named `name`. */
  function FirstValue(pairs: seq<string>, name: string): (r: Option<string>)
    ensures r.None? <==> forall k :: 0 <= k < |pairs| ==> pairs[k] == "" || PairName(pairs[k]) != name
  {
    if |pairs| == 0 then None
    else if pairs[0] != "" && PairName(pairs[0]) == name then Some(PairValue(pairs[0]))
    else
      var r := FirstValue(pairs[1..], name);
      assert forall k :: 1 <= k < |pairs| ==> pairs[k] == pairs[1..][k - 1];
      r
  }

  /** `new URLSearchParams(search).get(name)`, without percent-decoding. */
  function QueryGet(search: string, name: string): Option<string> {
    var query := if |search| > 0 && search[0] == '?' then search[1..] else search;
    FirstValue(Split(query, "&"), name)
  }

  /** The id the two URL branches of the extractor find, before the bare-id fallback;
      None also stands for the URL constructor throwing. */
  function UrlBranchId(url: string, parseUrl: UrlParser): Option<string> {
    if Contains(url, ShortHost) then
      SplitSecond(url, ShortHost);
      Some(Split(Split(Split(url, ShortHost)[1], "?")[0], "&")[0])
    else if Contains(url, FullHost) then
      match parseUrl(url)
      case None => None
      case Some(search) => QueryGet(search, "v")
    else None
  }

  /** Extracts a video id from a short link, a full watch link or a bare id; None when there is none.
      A short link with an empty path gives the empty id, which is not null. */
  function GetVideoIdFromUrl(url: string, parseUrl: UrlParser): (r: Option<string>)
    ensures url == "" ==> r.None?
  {
    if url == "" then None
    else
      var videoId := UrlBranchId(url, parseUrl);
      if !Truthy(videoId) && IsBareVideoId(url) then Some(url) else videoId
  }

  /** A URL that contains either host has a `.`, so it is never a bare id. */
  lemma {:induction false} HostIsNotBareId(url: string)
    requires Contains(url, ShortHost) || Contains(url, FullHost)
    ensures !IsBareVideoId(url)
  {
    if Contains(url, ShortHost) {
      ContainedCharsIn(url, ShortHost, 5);
    } else {
      ContainedCharsIn(url, FullHost, 7);
    }
    var k :| 0 <= k < |url| && url[k] == '.';
    assert !IsIdChar(url[k]);
  }

  /** A short link yields the longest piece after the first `youtu.be/` that holds no `?`, no `&`
      and no further `youtu.be/`: it is a prefix of that text, and stops at one of those or at the end. */
  lemma {:induction false} ShortLinkId(url: string, parseUrl: UrlParser)
    requires Contains(url, ShortHost)
    ensures var rest := url[IndexOf(url, ShortHost).value + |ShortHost|..];
            var r := GetVideoIdFromUrl(url, parseUrl);
            && r.Some?
            && |r.value| <= |rest| && r.value == rest[..|r.value|]
            && '?' !in r.value && '&' !in r.value && !Contains(r.value, ShortHost)
            && (|r.value| == |rest| || rest[|r.value|] == '?' || rest[|r.value|] == '&'
                || OccursAt(rest, ShortHost, |r.value|))
  {
    HostIsNotBareId(url);
    var rest := url[IndexOf(url, ShortHost).value + |ShortHost|..];
    SplitSecond(url, ShortHost);
    var seg := Split(rest, ShortHost)[0];
    var q := Split(seg, "?")[0];
    var id := Split(q, "&")[0];
    assert GetVideoIdFromUrl(url, parseUrl) == Some(id);
    SplitHead(rest, ShortHost);
    SplitHead(seg, "?");
    SplitHead(q, "&");
    ContainsChar(q, '?');
    ContainsChar(id, '&');
    assert id == q[..|id|];
    assert '?' !in id by {
      forall k | 0 <= k < |id| ensures id[k] != '?' {
        assert id[k] == q[k];
      }
    }
    assert seg[..|q|][..|id|] == seg[..|id|];
    PrefixFree(seg, ShortHost, |id|);
    assert rest[..|seg|][..|id|] == rest[..|id|];
    if |id| < |q| {
      OccursAtChar(q, '&', |id|);
      assert rest[|id|] == q[|id|];
    } else if |q| < |seg| {
      OccursAtChar(seg, '?', |q|);
      assert rest[|q|] == seg[|q|];
    }
  }

  /** A full watch link yields the first `v` query parameter the parsed URL carries, and nothing
      when the URL does not parse or carries none. */
  lemma {:induction false} FullLinkId(url: string, parseUrl: UrlParser)
    requires !Contains(url, ShortHost) && Contains(url, FullHost)
    ensures GetVideoIdFromUrl(url, parseUrl) ==
            match parseUrl(url)
            case None => None
            case Some(search) => QueryGet(search, "v")
  {
    HostIsNotBareId(url);
  }

  /** A bare eleven-character id is its own video id. */
  lemma {:induction false} BareIdIsItsOwnId(url: string, parseUrl: UrlParser)
    requires IsBareVideoId(url)
    ensures GetVideoIdFromUrl(url, parseUrl) == Some(url)
  {
    if Contains(url, ShortHost) || Contains(url, FullHost) {
      HostIsNotBareId(url);
    }
  }

  /** The extractor returns null exactly for the empty input, and for an input whose URL branches find
      no parameter (or do not apply) and which is not a bare id. */
  lemma {:induction false} NullExactly(url: string, parseUrl: UrlParser)
    ensures GetVideoIdFromUrl(url, parseUrl).None? <==>
            url == "" || (UrlBranchId(url, parseUrl).None? && !IsBareVideoId(url))
  {
    if url != "" && UrlBranchId(url, parseUrl) == Some("") {
      if Contains(url, ShortHost) || Contains(url, FullHost) {
        HostIsNotBareId(url);
      }
    }
  }

  /** A query string `?v=<id>` whose id holds no `&` yields that id. */
  lemma {:induction false} QueryRoundTrip(id: string)
    requires '&' !in id
    ensures QueryGet("?v=" + id, "v") == Some(id)
  {
    var query := ("?v=" + id)[1..];
    assert query == "v=" + id;
    ContainsChar(query, '&');
    assert !Contains(query, "&");
    assert Split(query, "&") == [query];
    assert IndexOf(query, "=") == Some(1) by {
      assert OccursAt(query, "=", 1);
      assert !OccursAt(query, "=", 0);
    }
    assert PairName(query) == "v";
    assert PairValue(query) == id;
  }

  // ---------------------------------------------------------------------------------------------
  // Endpoint replies

  /** A reply: a non-OK response with its error message, an OK JSON body whose `items` may be absent,
      or a request that throws before any response (a network failure), with the thrown message. */
  datatype Reply<T> = ErrorReply(message: string) | OkReply(items: Option<seq<T>>) | Thrown(message: string)

  /** No items in an OK reply: `!result.items || result.items.length === 0`. */
  predicate NoItems<T>(items: Option<seq<T>>) {
    items.None? || |items.value| == 0
  }

  datatype Thumbnails = Thumbnails(highUrl: Option<string>, defaultUrl: string)

  datatype VideoSnippet = VideoSnippet(
    title: string,
    description: string,
    tags: Option<seq<string>>,
    thumbnails: Thumbnails,
    channelTitle: string)

  /** One item of the videos endpoint. */
  datatype VideoItem = VideoItem(id: string, snippet: VideoSnippet, statistics: VideoStats)

  /** One item of the search endpoint: `id.videoId`, `snippet.channelId` and `snippet.title`. */
  datatype SearchItem = SearchItem(videoId: string, channelId: string, title: string)

  /** One item of the channels endpoint. */
  datatype ChannelItem = ChannelItem(
    title: string,
    description: string,
    defaultThumbnailUrl: string,
    statistics: ChannelStats)

  /** The endpoints, each applied to the subject of its request
      (video id, search keyword, channel identifier, channel id, channel id). */
  datatype Api = Api(
    videos: string -> Reply<VideoItem>,
    videoSearch: string -> Reply<SearchItem>,
    channelSearch: string -> Reply<SearchItem>,
    channels: string -> Reply<ChannelItem>,
    channelVideos: string -> Reply<SearchItem>)

  /** The message of the TypeError raised by mapping over absent `items`. */
  const MapOfUndefined := "Cannot read properties of undefined (reading 'map')"

  /** The details record built from one video item: tags default to none, and the high-resolution
      thumbnail is preferred when it has a non-empty URL. */
  function ToVideoDetails(item: VideoItem): (v: VideoDetails)
    ensures v.id == item.id && v.title == item.snippet.title && v.description == item.snippet.description
    ensures v.channelTitle == item.snippet.channelTitle && v.stats == item.statistics
    ensures item.snippet.tags.None? ==> v.tags == []
    ensures item.snippet.tags.Some? ==> v.tags == item.snippet.tags.value
    ensures Truthy(item.snippet.thumbnails.highUrl) ==> v.thumbnailUrl == item.snippet.thumbnails.highUrl.value
    ensures !Truthy(item.snippet.thumbnails.highUrl) ==> v.thumbnailUrl == item.snippet.thumbnails.defaultUrl
  {
    var s := item.snippet;
    VideoDetails(
      item.id, s.title, s.description,
      if s.tags.Some? then s.tags.value else [],
      if Truthy(s.thumbnails.highUrl) then s.thumbnails.highUrl.value else s.thumbnails.defaultUrl,
      s.channelTitle, item.statistics)
  }

  function FetchVideoDetails(videoId: string, api: Api): Result<VideoDetails> {
    match api.videos(videoId)
    case ErrorReply(m) => Err("Failed to fetch video details: " + m)
    case Thrown(m) => Err(m)
    case OkReply(items) =>
      if NoItems(items) then Err("Video with ID \"" + videoId + "\" not found.")
      else Ok(ToVideoDetails(items.value[0]))
  }

  function FindBenchmarkVideo(keyword: string, api: Api): Result<VideoDetails> {
    match api.videoSearch(keyword)
    case ErrorReply(m) => Err("Failed to search for benchmark video: " + m)
    case Thrown(m) => Err(m)
    case OkReply(items) =>
      if NoItems(items) then Err("No videos found for keyword \"" + keyword + "\".")
      else FetchVideoDetails(items.value[0].videoId, api)
  }

  /** The channel's video list, in the order the endpoint returned it. */
  function ToVideoInfos(items: seq<SearchItem>): (r: seq<VideoInfo>)
    ensures |r| == |items|
    ensures forall k :: 0 <= k < |items| ==> r[k].id == items[k].videoId && r[k].title == items[k].title
  {
    seq(|items|, k requires 0 <= k < |items| => VideoInfo(items[k].videoId, items[k].title))
  }

  function FetchChannelData(identifier: string, api: Api): Result<Channel> {
    match api.channelSearch(identifier)
    case ErrorReply(m) => Err("Failed to search for YouTube channel: " + m)
    case Thrown(m) => Err(m)
    case OkReply(found) =>
      if NoItems(found) then Err("Channel \"" + identifier + "\" not found.")
      else
        var channelId := found.value[0].channelId;
        match api.channels(channelId)
        case ErrorReply(m) => Err("Failed to fetch channel statistics: " + m)
        case Thrown(m) => Err(m)
        case OkReply(stats) =>
          if NoItems(stats) then Err("Could not retrieve channel statistics.")
          else
            var details := stats.value[0];
            match api.channelVideos(channelId)
            case ErrorReply(m) => Err("Failed to fetch channel videos: " + m)
            case Thrown(m) => Err(m)
            case OkReply(videos) =>
              if videos.None? then Err(MapOfUndefined)
              else
                Ok(Channel(channelId, details.title, details.description, details.defaultThumbnailUrl,
                           details.statistics, ToVideoInfos(videos.value)))
  }

  /** `s` embeds `p` between a fixed prefix and suffix, so it contains `p`. */
  lemma {:induction false} MessageContains(pre: string, x: string, mid: string, p: string, post: string)
    ensures Contains(pre + x + mid + p + post, p)
  {
    assert pre + x + mid + p + post == (pre + x + mid) + p + post;
    ContainsInfix(pre + x + mid, p, post);
  }

  /** Fetching a video: a failed request reports "Failed to fetch", a reply without items reports
      "not found", and otherwise the first item is the result. */
  lemma {:induction false} FetchVideoDetailsOutcomes(videoId: string, api: Api)
    ensures api.videos(videoId).ErrorReply? ==>
            FetchVideoDetails(videoId, api).Err? && Contains(FetchVideoDetails(videoId, api).error, "Failed to fetch")
    ensures api.videos(videoId).OkReply? && NoItems(api.videos(videoId).items) ==>
            FetchVideoDetails(videoId, api).Err? && Contains(FetchVideoDetails(videoId, api).error, "not found")
    ensures api.videos(videoId).Thrown? ==> FetchVideoDetails(videoId, api) == Err(api.videos(videoId).message)
    ensures FetchVideoDetails(videoId, api).Ok? <==> api.videos(videoId).OkReply? && !NoItems(api.videos(videoId).items)
    ensures FetchVideoDetails(videoId, api).Ok? ==>
            FetchVideoDetails(videoId, api).value == ToVideoDetails(api.videos(videoId).items.value[0])
  {
    match api.videos(videoId)
    case ErrorReply(m) =>
      MessageContains("", "", "", "Failed to fetch", " video details: " + m);
      assert "Failed to fetch video details: " + m == "" + "" + "" + "Failed to fetch" + (" video details: " + m);
    case Thrown(_) =>
    case OkReply(items) =>
      MessageContains("Video with ID \"", videoId, "\" ", "not found", ".");
      assert "Video with ID \"" + videoId + "\" not found." == "Video with ID \"" + videoId + "\" " + "not found" + ".";
  }

  /** Finding a benchmark: a failed search reports "Failed to search", an empty search reports
      "No videos found", and otherwise the outcome is that of fetching the first hit. */
  lemma {:induction false} FindBenchmarkVideoOutcomes(keyword: string, api: Api)
    ensures api.videoSearch(keyword).ErrorReply? ==>
            FindBenchmarkVideo(keyword, api).Err? && Contains(FindBenchmarkVideo(keyword, api).error, "Failed to search")
    ensures api.videoSearch(keyword).OkReply? && NoItems(api.videoSearch(keyword).items) ==>
            FindBenchmarkVideo(keyword, api).Err? && Contains(FindBenchmarkVideo(keyword, api).error, "No videos found")
    ensures api.videoSearch(keyword).OkReply? && !NoItems(api.videoSearch(keyword).items) ==>
            FindBenchmarkVideo(keyword, api) == FetchVideoDetails(api.videoSearch(keyword).items.value[0].videoId, api)
  {
    match api.videoSearch(keyword)
    case ErrorReply(m) =>
      MessageContains("", "", "", "Failed to search", " for benchmark video: " + m);
      assert "Failed to search for benchmark video: " + m
          == "" + "" + "" + "Failed to search" + (" for benchmark video: " + m);
    case Thrown(_) =>
    case OkReply(items) =>
      MessageContains("", "", "", "No videos found", " for keyword \"" + keyword + "\".");
      assert "No videos found for keyword \"" + keyword + "\"."
          == "" + "" + "" + "No videos found" + (" for keyword \"" + keyword + "\".");
  }

  /** Fetching a channel: an unknown channel reports "not found"; a success carries the first search
      hit's channel id, the statistics record's title, description, default thumbnail and statistics,
      and every video's id and title in their original order; and a success needs every one of the
      three requests to succeed. */
  lemma {:induction false} FetchChannelDataOutcomes(identifier: string, api: Api)
    ensures api.channelSearch(identifier).OkReply? && NoItems(api.channelSearch(identifier).items) ==>
            FetchChannelData(identifier, api).Err? && Contains(FetchChannelData(identifier, api).error, "not found")
    ensures FetchChannelData(identifier, api).Ok? ==>
            var found := api.channelSearch(identifier);
            && found.OkReply? && !NoItems(found.items)
            && var channelId := found.items.value[0].channelId;
            && var stats := api.channels(channelId);
            && var videos := api.channelVideos(channelId);
            && stats.OkReply? && !NoItems(stats.items)
            && videos.OkReply? && videos.items.Some?
            && var c := FetchChannelData(identifier, api).value;
            && c.id == channelId
            && var details := stats.items.value[0];
            && c.title == details.title
            && c.description == details.description
            && c.thumbnailUrl == details.defaultThumbnailUrl
            && c.stats == details.statistics
            && |c.videos| == |videos.items.value|
            && forall k :: 0 <= k < |c.videos| ==>
                 c.videos[k].id == videos.items.value[k].videoId && c.videos[k].title == videos.items.value[k].title
  {
    var found := api.channelSearch(identifier);
    if found.OkReply? && NoItems(found.items) {
      MessageContains("Channel \"", identifier, "\" ", "not found", ".");
      assert "Channel \"" + identifier + "\" not found." == "Channel \"" + identifier + "\" " + "not found" + ".";
    }
  }
}
