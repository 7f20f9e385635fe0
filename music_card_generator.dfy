/** The music page generator: it loads the music data file (keeping it only
    when the shape check passes), looks up oEmbed metadata for a song or
    playlist URL through a fifteen-minute cache and an ordered list of
    endpoints, and prepares what the cards show: smaller YouTube thumbnails,
    the video id as a fallback title, at most four items per list on mobile,
    and a playlist's title refreshed from its metadata. */
module MusicCards {
  import opened Json
  import opened Network
  import opened Strings
  import opened Storage
  import Cache
  import DataValidator

  const MusicPrefix := "music_data"
  /** Fifteen minutes, in milliseconds. */
  const MusicDuration := 15 * 60 * 1000

  const YouTubeEndpoint := "https://www.youtube.com/oembed?url="
  const NoembedEndpoint := "https://noembed.com/embed?url="
  /** The oEmbed endpoints, in the order they are tried. */
  const OEmbedEndpoints := [YouTubeEndpoint, NoembedEndpoint]

  // ---------------------------------------------------------------------
  // encodeURIComponent

  /** The characters `encodeURIComponent` leaves as they are. */
  predicate Unreserved(c: char) {
    'A' <= c <= 'Z' || 'a' <= c <= 'z' || '0' <= c <= '9' || c in "-_.!~*'()"
  }

  predicate UpperHex(c: char) {
    '0' <= c <= '9' || 'A' <= c <= 'F'
  }

  function HexDigit(n: nat): (c: char)
    requires n < 16
    ensures UpperHex(c)
  {
    if n < 10 then (48 + n) as char else (55 + n) as char
  }

  /** The UTF-8 bytes of one character. */
  function Utf8(c: char): (bytes: seq<nat>)
    ensures 1 <= |bytes| <= 4
    ensures forall k | 0 <= k < |bytes| :: bytes[k] < 256
    ensures |bytes| == 1 <==> (c as int) < 0x80
  {
    var cp := c as int;
    if cp < 0x80 then [cp]
    else if cp < 0x800 then [0xC0 + cp / 64, 0x80 + cp % 64]
    else if cp < 0x10000 then [0xE0 + cp / 4096, 0x80 + (cp / 64) % 64, 0x80 + cp % 64]
    else [0xF0 + cp / 262144, 0x80 + (cp / 4096) % 64, 0x80 + (cp / 64) % 64, 0x80 + cp % 64]
  }

  /** `%XX` for each byte, with upper-case hex digits. */
  function Percent(bytes: seq<nat>): (r: string)
    requires forall k | 0 <= k < |bytes| :: bytes[k] < 256
    ensures |r| == 3 * |bytes|
    ensures forall k | 0 <= k < |r| :: r[k] == '%' || UpperHex(r[k])
  {
    if bytes == [] then ""
    else ['%', HexDigit(bytes[0] / 16), HexDigit(bytes[0] % 16)] + Percent(bytes[1..])
  }

  /** `encodeURIComponent(s)`: unreserved characters pass through, every
      other character becomes the percent-escapes of its UTF-8 bytes. */
  function EncodeUriComponent(s: string): (r: string)
    ensures forall k | 0 <= k < |r| :: Unreserved(r[k]) || r[k] == '%' || UpperHex(r[k])
    ensures (forall k | 0 <= k < |s| :: Unreserved(s[k])) ==> r == s
    ensures |r| >= |s|
  {
    if s == [] then ""
    else
      var head := if Unreserved(s[0]) then [s[0]] else Percent(Utf8(s[0]));
      var rest := EncodeUriComponent(s[1..]);
      assert forall k | 0 <= k < |s[1..]| :: s[1..][k] == s[k + 1];
      head + rest
  }

  /** An encoded URL holds no `/`, `?`, `&`, `=` or `#`: it stays one query
      value of the endpoint. */
  lemma EncodedStaysOneValue(s: string)
    ensures var r := EncodeUriComponent(s);
      '/' !in r && '?' !in r && '&' !in r && '=' !in r && '#' !in r
  {
    var r := EncodeUriComponent(s);
    forall k | 0 <= k < |r|
      ensures r[k] != '/' && r[k] != '?' && r[k] != '&' && r[k] != '=' && r[k] != '#'
    {
      NotADelimiter(r[k]);
    }
  }

  lemma NotADelimiter(c: char)
    requires Unreserved(c) || c == '%' || UpperHex(c)
    ensures c != '/' && c != '?' && c != '&' && c != '=' && c != '#'
  {
    assert c in "-_.!~*'()" ==> c == '-' || c == '_' || c == '.' || c == '!' || c == '~' || c == '*' || c == '\'' || c == '(' || c == ')';
  }

  // ---------------------------------------------------------------------
  // fetchMetadata

  /** A channel URL is not sent to YouTube's oEmbed endpoint. */
  predicate Skipped(url: string, endpoint: string) {
    Contains(url, "/channel/") && Contains(endpoint, "youtube.com/oembed")
  }

  /** An answer `fetchMetadata` takes: ok, parsable, not `null`, and without
      a truthy `error` field. */
  predicate Accepts(o: Outcome) {
    o.Resp? && Ok(o.status) && o.body.Some? && o.body.value != JNull && !TruthyField(o.body.value, "error")
  }

  /** The endpoints that may be asked about `url`, in order. */
  function Usable(url: string, endpoints: seq<string>): (r: seq<string>)
    ensures |r| <= |endpoints|
    ensures forall k | 0 <= k < |r| :: r[k] in endpoints && !Skipped(url, r[k])
    ensures forall e | e in endpoints && !Skipped(url, e) :: e in r
  {
    if endpoints == [] then []
    else if Skipped(url, endpoints[0]) then Usable(url, endpoints[1..])
    else [endpoints[0]] + Usable(url, endpoints[1..])
  }

  /** The filter works endpoint by endpoint, so the usable endpoints keep
      their listed order. */
  lemma {:induction false} UsableAppend(url: string, a: seq<string>, b: seq<string>)
    ensures Usable(url, a + b) == Usable(url, a) + Usable(url, b)
  {
    if a == [] {
      assert a + b == b;
    } else {
      assert (a + b)[0] == a[0];
      assert (a + b)[1..] == a[1..] + b;
      UsableAppend(url, a[1..], b);
    }
  }

  /** The requests made to the endpoints `tried`, each followed by the
      encoded URL `query`. */
  function Requests(tried: seq<string>, query: string): (r: seq<string>)
    ensures |r| == |tried|
  {
    if tried == [] then [] else Requests(tried[..|tried| - 1], query) + [tried[|tried| - 1] + query]
  }

  /** The `k`-th request is the `k`-th endpoint asked, followed by the
      query. */
  lemma {:induction false} RequestsAt(tried: seq<string>, query: string)
    ensures forall k | 0 <= k < |tried| :: Requests(tried, query)[k] == tried[k] + query
  {
    if tried != [] {
      RequestsAt(tried[..|tried| - 1], query);
    }
  }

  /** The endpoint loop: the metadata it returns, if any, and the endpoints
      it sent a request to. */
  datatype Attempt = Attempt(result: Option<Json>, tried: seq<string>)

  function Attempts(url: string, endpoints: seq<string>, script: seq<Outcome>): Attempt
    decreases |endpoints|
  {
    if endpoints == [] then Attempt(None, [])
    else if Skipped(url, endpoints[0]) then Attempts(url, endpoints[1..], script)
    else if Accepts(Head(script)) then Attempt(Some(Head(script).body.value), [endpoints[0]])
    else
      var rest := Attempts(url, endpoints[1..], Tail(script));
      Attempt(rest.result, [endpoints[0]] + rest.tried)
  }

  /** The endpoints are asked in their declared order, skipping only the
      ones a channel URL may not go to; without an accepted answer every
      usable endpoint has been asked. */
  lemma {:induction false} AttemptsInOrder(url: string, endpoints: seq<string>, script: seq<Outcome>)
    ensures var a := Attempts(url, endpoints, script);
      && |a.tried| <= |Usable(url, endpoints)|
      && a.tried == Usable(url, endpoints)[..|a.tried|]
      && (a.result.None? ==> a.tried == Usable(url, endpoints))
    decreases |endpoints|
  {
    if endpoints != [] {
      if Skipped(url, endpoints[0]) {
        AttemptsInOrder(url, endpoints[1..], script);
      } else if !Accepts(Head(script)) {
        AttemptsInOrder(url, endpoints[1..], Tail(script));
        assert Usable(url, endpoints) == [endpoints[0]] + Usable(url, endpoints[1..]);
      }
    }
  }

  /** The first accepted answer is the result and no later endpoint is
      asked: every answer before the last was turned down, and without a
      result every answer was. */
  lemma {:induction false} FirstAcceptedAnswer(url: string, endpoints: seq<string>, script: seq<Outcome>)
    ensures var a := Attempts(url, endpoints, script);
      && (forall k | 0 <= k < |a.tried| - 1 :: !Accepts(At(script, k)))
      && (a.result.None? ==> forall k | 0 <= k < |a.tried| :: !Accepts(At(script, k)))
      && (a.result.Some? ==> |a.tried| > 0 && Accepts(At(script, |a.tried| - 1))
                              && a.result.value == At(script, |a.tried| - 1).body.value)
    decreases |endpoints|
  {
    if endpoints != [] {
      if Skipped(url, endpoints[0]) {
        FirstAcceptedAnswer(url, endpoints[1..], script);
      } else if !Accepts(Head(script)) {
        var rest := Attempts(url, endpoints[1..], Tail(script));
        FirstAcceptedAnswer(url, endpoints[1..], Tail(script));
        assert At(script, 0) == Head(script);
        forall k | 1 <= k <= |rest.tried|
          ensures At(script, k) == At(Tail(script), k - 1)
        {
          AtTail(script, k - 1);
        }
      } else {
        assert At(script, 0) == Head(script);
      }
    }
  }

  /** A URL with `/channel/` in it is never sent to an endpoint whose
      address holds `youtube.com/oembed`. */
  lemma ChannelNeverAskedOfYouTube(url: string, endpoints: seq<string>, script: seq<Outcome>)
    requires Contains(url, "/channel/")
    ensures var a := Attempts(url, endpoints, script);
      forall k | 0 <= k < |a.tried| :: !Contains(a.tried[k], "youtube.com/oembed")
  {
    AttemptsInOrder(url, endpoints, script);
    var a := Attempts(url, endpoints, script);
    var u := Usable(url, endpoints);
    forall k | 0 <= k < |a.tried|
      ensures !Skipped(url, a.tried[k])
    {
      assert a.tried[k] == u[k];
    }
  }

  /** Everything `fetchMetadata` does, for the storage `items` and the
      script of answers: its result, the storage after it and the endpoints
      it asked. */
  datatype Lookup = Lookup(result: Option<Json>, items: map<string, Item>, tried: seq<string>)

  function MetadataLookup(items: map<string, Item>, script: seq<Outcome>, url: string, key: string,
                          duration: int, now: int, writeTime: int, quotaExceeded: bool,
                          endpoints: seq<string>): Lookup
  {
    var cached := Cache.ReadResult(items, key, now, duration);
    var afterRead := Cache.AfterRead(items, key, now, duration);
    if cached.Some? && Truthy(cached.value) then Lookup(cached, afterRead, [])
    else
      var a := Attempts(url, endpoints, script);
      Lookup(a.result,
             if a.result.Some? then Cache.AfterWrite(afterRead, key, a.result.value, writeTime, quotaExceeded) else afterRead,
             a.tried)
  }

  /** A truthy cache hit is the answer, and nothing is requested. */
  lemma CacheHitNeedsNoRequest(items: map<string, Item>, script: seq<Outcome>, url: string, key: string,
                               duration: int, now: int, writeTime: int, quotaExceeded: bool,
                               endpoints: seq<string>, data: Json)
    requires Cache.ReadResult(items, key, now, duration) == Some(data) && Truthy(data)
    ensures var l := MetadataLookup(items, script, url, key, duration, now, writeTime, quotaExceeded, endpoints);
      l.result == Some(data) && l.tried == [] && l.items == items
  {
    Cache.ReadRemovesOnlyStaleKey(items, key, now, duration);
  }

  /** When every endpoint is skipped, fails, or answers with an error, the
      result is null and the cache gets nothing new; an accepted answer is
      stored under the original URL's key with the time of the write. */
  lemma AcceptedAnswerIsCached(items: map<string, Item>, script: seq<Outcome>, url: string, key: string,
                               duration: int, now: int, writeTime: int, quotaExceeded: bool,
                               endpoints: seq<string>)
    requires var cached := Cache.ReadResult(items, key, now, duration); !(cached.Some? && Truthy(cached.value))
    ensures var l := MetadataLookup(items, script, url, key, duration, now, writeTime, quotaExceeded, endpoints);
      var afterRead := Cache.AfterRead(items, key, now, duration);
      && (l.result.None? ==> l.items == afterRead && forall k | 0 <= k < |l.tried| :: !Accepts(At(script, k)))
      && (l.result.Some? && !quotaExceeded ==> l.items == afterRead[key := Entry(l.result.value, writeTime)])
      && (l.result.Some? ==> |l.tried| > 0 && Accepts(At(script, |l.tried| - 1)) && l.result.value == At(script, |l.tried| - 1).body.value)
  {
    FirstAcceptedAnswer(url, endpoints, script);
  }

  /** With the site's two endpoints, a channel URL is sent to noembed and
      nowhere else, and any other URL goes to YouTube first. */
  lemma SiteEndpoints(url: string, script: seq<Outcome>)
    ensures Contains(url, "/channel/") ==> Attempts(url, OEmbedEndpoints, script).tried == [NoembedEndpoint]
    ensures !Contains(url, "/channel/") ==> Attempts(url, OEmbedEndpoints, script).tried[0] == YouTubeEndpoint
  {
    YouTubeEndpointMatches();
    NoembedEndpointDoesNot();
    assert OEmbedEndpoints[1..] == [NoembedEndpoint];
    assert [NoembedEndpoint][1..] == [];
    var last := Attempts(url, [NoembedEndpoint], script);
    assert last.tried == [NoembedEndpoint] by {
      if !Accepts(Head(script)) {
        assert Attempts(url, [], Tail(script)).tried == [];
      }
    }
  }

  lemma YouTubeEndpointMatches()
    ensures Contains(YouTubeEndpoint, "youtube.com/oembed")
  {
    assert YouTubeEndpoint == "https://www." + "youtube.com/oembed" + "?url=";
    StartsAtMiddle("https://www.", "youtube.com/oembed", "?url=");
    ContainsAt(YouTubeEndpoint, "youtube.com/oembed", 12);
  }

  lemma NoembedEndpointDoesNot()
    ensures !Contains(NoembedEndpoint, "youtube.com/oembed")
  {
    assert forall k | 0 <= k < |NoembedEndpoint| :: NoembedEndpoint[k] != 'y';
    assert "youtube.com/oembed"[0] == 'y';
    MissingFirstChar(NoembedEndpoint, "youtube.com/oembed");
  }

  /** The loop of `fetchMetadata` has gone through the first `i` endpoints,
      asking `tried`, so that `script` is what is left of `script0` and
      `sent` is `sent0` followed by those requests: the whole run is what
      was asked so far followed by the run of the remaining endpoints. */
  predicate Consistent(url: string, endpoints: seq<string>, script0: seq<Outcome>, sent0: seq<string>, query: string,
                       i: nat, script: seq<Outcome>, sent: seq<string>, tried: seq<string>)
  {
    && i <= |endpoints|
    && script == Drop(script0, |tried|)
    && sent == sent0 + Requests(tried, query)
    && var a := Attempts(url, endpoints[i..], script);
       Attempts(url, endpoints, script0) == Attempt(a.result, tried + a.tried)
  }

  lemma ConsistentStart(url: string, endpoints: seq<string>, script0: seq<Outcome>, sent0: seq<string>, query: string)
    ensures Consistent(url, endpoints, script0, sent0, query, 0, script0, sent0, [])
  {
    assert endpoints[0..] == endpoints;
    assert sent0 + [] == sent0;
  }

  lemma ConsistentSkip(url: string, endpoints: seq<string>, script0: seq<Outcome>, sent0: seq<string>, query: string,
                       i: nat, script: seq<Outcome>, sent: seq<string>, tried: seq<string>)
    requires Consistent(url, endpoints, script0, sent0, query, i, script, sent, tried)
    requires i < |endpoints| && Skipped(url, endpoints[i])
    ensures Consistent(url, endpoints, script0, sent0, query, i + 1, script, sent, tried)
  {
    assert endpoints[i..][1..] == endpoints[i + 1..];
  }

  /** Asking endpoint `i` with the next scripted answer: an accepted answer
      ends the run, any other moves on to endpoint `i + 1`. */
  lemma ConsistentAsk(url: string, endpoints: seq<string>, script0: seq<Outcome>, sent0: seq<string>, query: string,
                      i: nat, script: seq<Outcome>, sent: seq<string>, tried: seq<string>)
    requires Consistent(url, endpoints, script0, sent0, query, i, script, sent, tried)
    requires i < |endpoints| && !Skipped(url, endpoints[i])
    ensures var tried' := tried + [endpoints[i]];
      && Tail(script) == Drop(script0, |tried'|)
      && sent + [endpoints[i] + query] == sent0 + Requests(tried', query)
      && (Accepts(Head(script)) ==> Attempts(url, endpoints, script0) == Attempt(Some(Head(script).body.value), tried'))
      && (!Accepts(Head(script)) ==> Consistent(url, endpoints, script0, sent0, query, i + 1, Tail(script), sent + [endpoints[i] + query], tried'))
  {
    DropStep(script0, |tried|);
    var tried' := tried + [endpoints[i]];
    assert tried'[..|tried|] == tried;
    assert endpoints[i..][1..] == endpoints[i + 1..];
    if !Accepts(Head(script)) {
      var next := Attempts(url, endpoints[i + 1..], Tail(script));
      assert tried + ([endpoints[i]] + next.tried) == tried' + next.tried;
    }
  }

  lemma ConsistentEnd(url: string, endpoints: seq<string>, script0: seq<Outcome>, sent0: seq<string>, query: string,
                      script: seq<Outcome>, sent: seq<string>, tried: seq<string>)
    requires Consistent(url, endpoints, script0, sent0, query, |endpoints|, script, sent, tried)
    ensures Attempts(url, endpoints, script0) == Attempt(None, tried)
  {
    assert endpoints[|endpoints|..] == [];
    assert tried + [] == tried;
  }

  lemma StartsAtMiddle(a: string, b: string, c: string)
    ensures StartsAt(a + b + c, b, |a|)
  {
    assert (a + b + c)[|a|..|a| + |b|] == b;
  }

  // ---------------------------------------------------------------------
  // data selection

  /** The four lists the page renders. */
  datatype MusicData = MusicData(favoriteArtists: seq<Json>, favoriteSongs: seq<Json>, recentSongs: seq<Json>, playlists: Json)

  /** What `loadFallbackData` sets: four empty lists. */
  function Fallback(): MusicData {
    MusicData([], [], [], JArr([]))
  }

  /** What `init` keeps: the lists of a data file that loaded with an ok
      status, parsed and passed the shape check, with `playlists` defaulting
      to `[]` when it is missing or falsy; the fallback otherwise. */
  function Selection(load: Outcome): (d: MusicData)
    ensures forall k | 0 <= k < |d.favoriteArtists| :: DataValidator.ArtistValid(d.favoriteArtists[k])
    ensures forall k | 0 <= k < |d.favoriteSongs + d.recentSongs| :: DataValidator.SongValid((d.favoriteSongs + d.recentSongs)[k])
    ensures Truthy(d.playlists)
  {
    if load.Resp? && Ok(load.status) && load.body.Some? && DataValidator.MusicVerdict(load.body.value) == DataValidator.Pass then
      var data := load.body.value;
      var p := Get(data, "playlists");
      assert DataValidator.AllSongs(data) == DataValidator.Elements(data, "favoriteSongs") + DataValidator.Elements(data, "recentSongs");
      MusicData(DataValidator.Elements(data, "favoriteArtists"), DataValidator.Elements(data, "favoriteSongs"),
                DataValidator.Elements(data, "recentSongs"), if p.Some? && Truthy(p.value) then p.value else JArr([]))
    else Fallback()
  }

  /** A failed load, a body that does not parse, and data that fails or
      throws in the check all leave the four lists empty. */
  lemma FailureFallsBack(load: Outcome)
    requires !(load.Resp? && Ok(load.status) && load.body.Some?) || !DataValidator.MusicValid(load.body.value)
    ensures Selection(load) == Fallback()
    ensures !PlaylistsRendered(Selection(load).playlists)
  {
  }

  /** The playlists section renders only when `playlists.length > 0`. */
  predicate PlaylistsRendered(playlists: Json): (b: bool)
    ensures playlists.JArr? ==> (b <==> playlists.items != [])
    ensures playlists.JStr? ==> (b <==> playlists.s != "")
    ensures playlists.JNull? || playlists.JBool? || playlists.JNum? ==> !b
  {
    var n := JsLength(playlists);
    n.Value? && n.v.JNum? && n.v.n > 0.0
  }

  /** A valid file's lists are kept as they are. */
  lemma ValidDataKept(status: int, data: Json)
    requires Ok(status) && DataValidator.MusicValid(data)
    ensures var d := Selection(Resp(status, Some(data)));
      && d.favoriteArtists == DataValidator.Elements(data, "favoriteArtists")
      && d.favoriteSongs == DataValidator.Elements(data, "favoriteSongs")
      && d.recentSongs == DataValidator.Elements(data, "recentSongs")
      && (TruthyField(data, "playlists") ==> d.playlists == Get(data, "playlists").value)
      && (!TruthyField(data, "playlists") ==> d.playlists == JArr([]) && !PlaylistsRendered(d.playlists))
  {
  }

  // ---------------------------------------------------------------------
  // what the cards show

  /** On mobile a list shows its first four items at most; on a desktop it
      shows them all. */
  function ShownItems<T>(items: seq<T>, isMobile: bool): (r: seq<T>)
    ensures |r| == if isMobile && |items| > 4 then 4 else |items|
    ensures r == items[..|r|]
  {
    if isMobile && |items| > 4 then items[..4] else items
  }

  const VideoSizes := AnyOf(["/hqdefault.jpg", "/sddefault.jpg", "/maxresdefault.jpg"])
  const PlaylistSizes := AnyOf(["/default.jpg", "/hqdefault.jpg", "/sddefault.jpg", "/maxresdefault.jpg"])
  const ChannelSize := LitThenRun("=s", Digit)

  predicate IsYtimgVideo(u: string) {
    Contains(u, "ytimg.com/") && Contains(u, "/vi/")
  }

  /** The song card's thumbnail: a YouTube video thumbnail in a high,
      standard or maximum resolution is swapped for the medium one (only
      the first occurrence); every other address is kept. */
  function VideoThumbnail(u: string): (r: string)
    ensures !IsYtimgVideo(u) ==> r == u
    ensures !(Contains(u, "hqdefault.jpg") || Contains(u, "sddefault.jpg") || Contains(u, "maxresdefault.jpg")) ==> r == u
  {
    if IsYtimgVideo(u) && (Contains(u, "hqdefault.jpg") || Contains(u, "sddefault.jpg") || Contains(u, "maxresdefault.jpg"))
    then ReplaceFirst(u, VideoSizes, "/mqdefault.jpg")
    else u
  }

  /** The playlist card's thumbnail: as for songs, and the default size is
      swapped as well. */
  function PlaylistThumbnail(u: string): (r: string)
    ensures !IsYtimgVideo(u) ==> r == u
  {
    if IsYtimgVideo(u) then ReplaceFirst(u, PlaylistSizes, "/mqdefault.jpg") else u
  }

  /** The channel card's thumbnail: the first `=s<digits>` size of a YouTube
      image address becomes `=s250`. */
  function ChannelThumbnail(u: string): (r: string)
    ensures !Contains(u, "ytimg.com/") ==> r == u
  {
    if Contains(u, "ytimg.com/") && Contains(u, "=s") then ReplaceFirst(u, ChannelSize, "=s250") else u
  }

  /** A YouTube video thumbnail whose leftmost size suffix sits at `i` gets
      the medium size there and nowhere else. */
  lemma VideoThumbnailAt(u: string, i: nat, n: nat)
    requires IsYtimgVideo(u) && i <= |u| && MatchAt(u, i, VideoSizes) == Some(n)
    requires forall j | 0 <= j < i :: MatchAt(u, j, VideoSizes).None?
    ensures VideoThumbnail(u) == u[..i] + "/mqdefault.jpg" + u[i + n..]
  {
    var m := u[i..i + n];
    assert u[i + 1..i + n] == m[1..];
    assert StartsAt(u, m[1..], i + 1);
    ContainsAt(u, m[1..], i + 1);
    ReplaceFirstAt(u, VideoSizes, "/mqdefault.jpg", i, n);
  }

  /** A playlist thumbnail on YouTube's image host gets the medium size in
      place of its leftmost size suffix, the default size included. */
  lemma PlaylistThumbnailAt(u: string, i: nat, n: nat)
    requires IsYtimgVideo(u) && i <= |u| && MatchAt(u, i, PlaylistSizes) == Some(n)
    requires forall j | 0 <= j < i :: MatchAt(u, j, PlaylistSizes).None?
    ensures PlaylistThumbnail(u) == u[..i] + "/mqdefault.jpg" + u[i + n..]
  {
    ReplaceFirstAt(u, PlaylistSizes, "/mqdefault.jpg", i, n);
  }

  /** A channel image on YouTube's host gets `=s250` in place of its leftmost
      `=s<digits>`, however many digits that had. */
  lemma ChannelThumbnailAt(u: string, i: nat, n: nat)
    requires Contains(u, "ytimg.com/") && i <= |u| && MatchAt(u, i, ChannelSize) == Some(n)
    requires forall j | 0 <= j < i :: MatchAt(u, j, ChannelSize).None?
    ensures ChannelThumbnail(u) == u[..i] + "=s250" + u[i + n..]
  {
    ContainsAt(u, "=s", i);
    ReplaceFirstAt(u, ChannelSize, "=s250", i, n);
  }

  /** The match `[\w-]+` after `watch?v=`: a non-empty run of word characters
      and hyphens. */
  const WatchId := LitThenRun("watch?v=", WordOrHyphen)

  /** The fallback title of a song card: the video id from the URL, or
      "Unknown Song" when the URL has none. */
  function VideoTitle(url: string): (r: string)
    ensures r != "Unknown Song" ==> r != [] && forall k | 0 <= k < |r| :: InClass(r[k], WordOrHyphen)
    ensures r != "Unknown Song" ==> Contains(url, "watch?v=" + r)
  {
    var m := Search(url, 0, WatchId);
    if m.None? then "Unknown Song"
    else
      var (i, n) := m.value;
      LitThenRunMatch(url, i, "watch?v=", WordOrHyphen, n);
      url[i + 8..i + n]
  }

  /** A URL whose first `watch?v=` is followed by the id `id` and then a
      character that cannot be part of an id gives back `id`. */
  lemma VideoTitleFindsId(pre: string, id: string, rest: string)
    requires id != [] && forall k | 0 <= k < |id| :: InClass(id[k], WordOrHyphen)
    requires rest == [] || !InClass(rest[0], WordOrHyphen)
    requires forall j | 0 <= j < |pre| :: !StartsAt(pre + "watch?v=" + id + rest, "watch?v=", j)
    ensures VideoTitle(pre + "watch?v=" + id + rest) == id
  {
    var url := pre + "watch?v=" + id + rest;
    var i := |pre|;
    assert url[i..i + 8] == "watch?v=";
    assert forall k | 0 <= k < |id| :: url[i + 8 + k] == id[k];
    assert RunEnd(url, i + 8, WordOrHyphen) == i + 8 + |id| by {
      RunEndOver(url, i + 8, |id|, WordOrHyphen);
    }
    assert MatchAt(url, i, WatchId) == Some(8 + |id|);
    SearchFindsLeftmost(url, WatchId, i, 8 + |id|);
    assert url[i + 8..i + 8 + |id|] == id;
  }

  /** In general the title is the id after the leftmost `watch?v=` that is
      followed by one, whatever precedes it: an earlier `watch?v=` with no id
      after it is passed over. */
  lemma VideoTitleLeftmost(url: string, i: nat, n: nat)
    requires i <= |url| && MatchAt(url, i, WatchId) == Some(n)
    requires forall j | 0 <= j < i :: MatchAt(url, j, WatchId).None?
    ensures VideoTitle(url) == url[i + 8..i + n]
  {
    SearchFindsLeftmost(url, WatchId, i, n);
  }

  /** A URL in which no `watch?v=` is followed by an id is "Unknown Song". */
  lemma VideoTitleWithoutId(url: string)
    requires forall j | 0 <= j <= |url| :: MatchAt(url, j, WatchId).None?
    ensures VideoTitle(url) == "Unknown Song"
  {
  }

  lemma {:induction false} RunEndOver(s: string, i: nat, n: nat, cls: CharClass)
    requires i + n <= |s|
    requires forall k | i <= k < i + n :: InClass(s[k], cls)
    requires i + n == |s| || !InClass(s[i + n], cls)
    ensures RunEnd(s, i, cls) == i + n
    decreases n
  {
    if n > 0 {
      RunEndOver(s, i + 1, n - 1, cls);
    }
  }

  const PlaceholdHost := "https://placehold.co/"
  const NoThumbnailImage := "/00000000/00000000?text=No+Thumbnail"
  /** The placeholder `createMusicCard` uses when the metadata has no
      thumbnail. */
  const CardPlaceholder := PlaceholdHost + "250x140" + NoThumbnailImage
  /** The thumbnail the fallback card of a song is built with. */
  const FallbackThumbnail := PlaceholdHost + "320x180" + NoThumbnailImage

  /** `createMusicCard` throws on a truthy `thumbnail_url` that is not a
      string. Numbers, booleans and objects have no `includes`; an array
      has one, and is counted as throwing here too (see the README). */
  predicate ThumbnailThrows(metadata: Json) {
    TruthyField(metadata, "thumbnail_url") && !Get(metadata, "thumbnail_url").value.JStr?
  }

  /** The address a song card starts from: a truthy `thumbnail_url`, the
      placeholder otherwise. */
  function ThumbnailOf(metadata: Json): string
    requires !ThumbnailThrows(metadata)
  {
    if TruthyField(metadata, "thumbnail_url") then Get(metadata, "thumbnail_url").value.s else CardPlaceholder
  }

  /** The title and thumbnail a song card shows. */
  datatype SongCardView = SongCardView(title: Json, thumbnail: string)

  /** The card of the song at `url`, from what `fetchMetadata` gave: with
      truthy metadata, its title (or "Unknown Title") and its thumbnail at
      the medium size; without it, or when building that card throws, the
      fallback card titled with the video id. */
  function SongCard(metadata: Option<Json>, url: string): (c: SongCardView)
    ensures Truthy(c.title)
    ensures metadata.None? || !Truthy(metadata.value) || ThumbnailThrows(metadata.value) ==>
      c == SongCardView(JStr(VideoTitle(url)), FallbackThumbnail)
    ensures metadata.Some? && Truthy(metadata.value) && !ThumbnailThrows(metadata.value) ==>
      && (TruthyField(metadata.value, "title") ==> c.title == Get(metadata.value, "title").value)
      && (!TruthyField(metadata.value, "title") ==> c.title == JStr("Unknown Title"))
      && (!TruthyField(metadata.value, "thumbnail_url") ==> c.thumbnail == CardPlaceholder)
      && (TruthyField(metadata.value, "thumbnail_url") ==>
            c.thumbnail == VideoThumbnail(Get(metadata.value, "thumbnail_url").value.s))
  {
    if metadata.Some? && Truthy(metadata.value) && !ThumbnailThrows(metadata.value) then
      var m := metadata.value;
      PlaceholdersOffYtimg();
      SongCardView(if TruthyField(m, "title") then Get(m, "title").value else JStr("Unknown Title"),
                   VideoThumbnail(ThumbnailOf(m)))
    else
      PlaceholdersOffYtimg();
      SongCardView(JStr(VideoTitle(url)), VideoThumbnail(FallbackThumbnail))
  }

  /** Neither placeholder is an address on YouTube's image host, so the
      thumbnail rewrite leaves both as they are. */
  lemma PlaceholdersOffYtimg()
    ensures !Contains(CardPlaceholder, "ytimg.com/") && !Contains(FallbackThumbnail, "ytimg.com/")
  {
    assert 'y' !in PlaceholdHost && 'y' !in NoThumbnailImage && 'y' !in "250x140" && 'y' !in "320x180";
    assert "ytimg.com/"[0] == 'y';
    MissingFirstChar(CardPlaceholder, "ytimg.com/");
    MissingFirstChar(FallbackThumbnail, "ytimg.com/");
  }

  /** A playlist with its metadata merged in: the fetched title replaces the
      stored one when the metadata has a truthy title; every other field is
      kept. */
  function MergeTitle(playlist: map<string, Json>, metadata: Option<Json>): (r: map<string, Json>)
    ensures forall k | k != "title" :: (k in r <==> k in playlist) && (k in playlist ==> r[k] == playlist[k])
    ensures metadata.Some? && TruthyField(metadata.value, "title") ==>
      "title" in r && r["title"] == Get(metadata.value, "title").value
    ensures !(metadata.Some? && TruthyField(metadata.value, "title")) ==> r == playlist
  {
    if metadata.Some? && TruthyField(metadata.value, "title")
    then playlist["title" := Get(metadata.value, "title").value]
    else playlist
  }

  // ---------------------------------------------------------------------
  // the generator

  class MusicCardGenerator {
    var favoriteArtists: seq<Json>
    var favoriteSongs: seq<Json>
    var recentSongs: seq<Json>
    var playlists: Json
    const endpoints: seq<string>
    const cache: Cache.CacheManager
    const net: Net

    constructor (storage: LocalStorage, net: Net)
      ensures favoriteArtists == [] && favoriteSongs == [] && recentSongs == [] && playlists == JArr([])
      ensures endpoints == OEmbedEndpoints && this.net == net
      ensures cache.prefix == MusicPrefix && cache.duration == MusicDuration && cache.storage == storage
    {
      favoriteArtists := [];
      favoriteSongs := [];
      recentSongs := [];
      playlists := JArr([]);
      endpoints := OEmbedEndpoints;
      cache := new Cache.CacheManager(MusicPrefix, 15 * 60 * 1000, storage);
      this.net := net;
    }

    function Data(): MusicData
      reads this
    {
      MusicData(favoriteArtists, favoriteSongs, recentSongs, playlists)
    }

    /** `init`: keeps the checked lists or falls back to empty ones. */
    method Init(load: Outcome)
      modifies this
      ensures Data() == Selection(load)
    {
      if load.Resp? && Ok(load.status) && load.body.Some? {
        var data := load.body.value;
        if DataValidator.MusicVerdict(data) == DataValidator.Pass {
          favoriteArtists := DataValidator.Elements(data, "favoriteArtists");
          favoriteSongs := DataValidator.Elements(data, "favoriteSongs");
          recentSongs := DataValidator.Elements(data, "recentSongs");
          var p := Get(data, "playlists");
          playlists := if p.Some? && Truthy(p.value) then p.value else JArr([]);
          return;
        }
      }
      LoadFallbackData();
    }

    /** `loadFallbackData`. */
    method LoadFallbackData()
      modifies this
      ensures Data() == Fallback()
    {
      favoriteArtists := [];
      favoriteSongs := [];
      recentSongs := [];
      playlists := JArr([]);
    }

    /** `fetchMetadata(url)`: the cache first, then each endpoint in turn. */
    method FetchMetadata(url: string, now: int, writeTime: int, quotaExceeded: bool) returns (r: Option<Json>)
      modifies cache.storage, net
      ensures var l := MetadataLookup(old(cache.storage.items), old(net.script), url, cache.CacheKey(url),
                                      cache.duration, now, writeTime, quotaExceeded, endpoints);
        && r == l.result
        && cache.storage.items == l.items
        && net.sent == old(net.sent) + Requests(l.tried, EncodeUriComponent(url))
        && net.script == Drop(old(net.script), |l.tried|)
    {
      var cached := cache.Get(url, now);
      if cached.Some? && Truthy(cached.value) {
        return cached;
      }
      r := TryEndpoints(url);
      if r.Some? {
        // the answer is cached just before it is returned
        cache.Set(url, r.value, writeTime, quotaExceeded);
      }
    }

    /** The endpoint loop of `fetchMetadata`: the first accepted answer is
        the result; a skipped endpoint, a failed request, an unparsable body
        or an error answer moves on to the next endpoint. */
    method TryEndpoints(url: string) returns (r: Option<Json>)
      modifies net
      ensures var a := Attempts(url, endpoints, old(net.script));
        && r == a.result
        && net.sent == old(net.sent) + Requests(a.tried, EncodeUriComponent(url))
        && net.script == Drop(old(net.script), |a.tried|)
    {
      ghost var script0, sent0 := net.script, net.sent;
      ghost var tried: seq<string> := [];
      var query := EncodeUriComponent(url);
      var i := 0;
      ConsistentStart(url, endpoints, script0, sent0, query);
      while i < |endpoints|
        modifies net
        invariant Consistent(url, endpoints, script0, sent0, query, i, net.script, net.sent, tried)
      {
        var endpoint := endpoints[i];
        if Skipped(url, endpoint) {
          ConsistentSkip(url, endpoints, script0, sent0, query, i, net.script, net.sent, tried);
        } else {
          ConsistentAsk(url, endpoints, script0, sent0, query, i, net.script, net.sent, tried);
          var o := net.Fetch(endpoint + query);
          tried := tried + [endpoint];
          if Accepts(o) {
            return Some(o.body.value);
          }
        }
        i := i + 1;
      }
      ConsistentEnd(url, endpoints, script0, sent0, query, net.script, net.sent, tried);
      r := None;
    }
  }
}
