/**
 * The Spotify-to-YouTube playlist importer (src/PlaylistImporter.js).
 *
 * The network is abstracted into two oracles passed as parameters:
 * `fetch` answers the track request for an endpoint URL (its error branch
 * also stands for a failed client-credentials token request, which comes
 * first), and `search` answers the Invidious search for a query text. What
 * the importer does with the answers (id extraction, endpoint choice, track
 * mapping, thumbnail choice, filtering and the playlist updates) is modelled.
 */
module Importer {
  import opened Text
  import opened Media
  import opened Playlists

  // ---------------------------------------------------------------------
  // Input checks
  // ---------------------------------------------------------------------

  const NameRequired: string := "Please enter a name for the imported playlist"
  const NoMatches: string := "No matching YouTube videos found for any of the Spotify tracks"

  /** The message of the TypeError thrown when an item has no first artist. */
  const MissingArtist: string := "Cannot read properties of undefined (reading 'name')"

  function InvalidUrl(importType: string): string
  {
    "Invalid Spotify " + importType + " URL"
  }

  /** `/${importType}/`. */
  function Separator(importType: string): (sep: string)
    ensures |sep| >= 2 && sep[0] == '/'
  {
    "/" + importType + "/"
  }

  /** Where a cut ends: at the end of the URL, at a `?`, or where a further separator starts. */
  predicate CutEnd(url: string, sep: string, e: nat)
  {
    e == |url| || (e < |url| && url[e] == '?') || OccursAt(url, sep, e)
  }

  /**
   * `id` is the cut at `a`: the text there, holding no `?` and no separator,
   * with no separator starting inside it, and ending at the end of the URL,
   * at a `?`, or where a separator starts. Together these make the end the
   * first such place after `a` (see `IsCutUnique`).
   */
  predicate IsCut(url: string, sep: string, a: nat, id: string)
  {
    && '?' !in id && OccursAt(url, id, a) && IndexOfFrom(id, sep, 0).None?
    && (forall q :: a <= q < a + |id| ==> !OccursAt(url, sep, q))
    && CutEnd(url, sep, a + |id|)
  }

  /**
   * `url.split(sep)[1]?.split('?')[0]`: the text after the first `sep`, up
   * to the next `sep` or the end, cut at the first `?`; nothing when `sep`
   * does not occur.
   */
  function CutAfter(url: string, sep: string): (r: Option<string>)
    requires sep != []
    ensures r.None? <==> IndexOfFrom(url, sep, 0).None?
    ensures r.Some? ==> IsCut(url, sep, IndexOfFrom(url, sep, 0).value + |sep|, r.value)
  {
    IndexOfFromFound(url, sep, 0);
    if IndexOfFrom(url, sep, 0).None? then None
    else Some(CutAt(url, sep, IndexOfFrom(url, sep, 0).value + |sep|))
  }

  /**
   * The cut that starts at `a`: the split piece there, up to its first `?`.
   * It is the text at `a`, holds no `?` and no separator, and ends at the
   * first `?` or separator start after `a`, or at the end of the URL.
   */
  function CutAt(url: string, sep: string, a: nat): (id: string)
    requires a <= |url| && sep != []
    ensures IsCut(url, sep, a, id)
  {
    FirstPieceFacts(Piece(url, sep, a), '?');
    PieceHead(url, sep, a);
    FirstPiece(Piece(url, sep, a), '?')
  }

  /**
   * `spotifyUrl.split(`/${importType}/`)[1]?.split('?')[0]` followed by the
   * `if (!id)` check: a URL without the separator, or an empty id, is an
   * error.
   */
  function ExtractId(url: string, importType: string): (r: Result<string, string>)
    ensures r.Err? ==> r.error == InvalidUrl(importType)
    ensures r.Ok? ==> r.value != []
    ensures IndexOfFrom(url, Separator(importType), 0).None? ==> r.Err?
    ensures CutAfter(url, Separator(importType)).Some? && CutAfter(url, Separator(importType)).value != [] ==>
              r == Ok(CutAfter(url, Separator(importType)).value)
    ensures r.Ok? ==> IsCut(url, Separator(importType),
                            IndexOfFrom(url, Separator(importType), 0).value + |Separator(importType)|, r.value)
  {
    match CutAfter(url, Separator(importType))
    case None => Err(InvalidUrl(importType))
    case Some(id) => if id == [] then Err(InvalidUrl(importType)) else Ok(id)
  }

  /** The split piece that starts at `a`: up to the next separator at or after `a`, or to the end. */
  function Piece(url: string, sep: string, a: nat): string
    requires a <= |url|
  {
    IndexOfFromFound(url, sep, a);
    match IndexOfFrom(url, sep, a)
    case None => url[a..]
    case Some(q) => url[a..q]
  }

  /**
   * The piece is the text at `a`, no separator starts inside it, and it ends
   * at the end of the URL or where a separator starts.
   */
  lemma PieceFacts(url: string, sep: string, a: nat)
    requires a <= |url|
    ensures var piece := Piece(url, sep, a);
            && a + |piece| <= |url| && piece == url[a..a + |piece|]
            && (forall q :: a <= q < a + |piece| ==> !OccursAt(url, sep, q))
            && (a + |piece| == |url| || OccursAt(url, sep, a + |piece|))
  {
    IndexOfFromFound(url, sep, a);
    IndexOfFromFirst(url, sep, a);
  }

  /** An occurrence starts with the pattern's first character. */
  lemma OccursAtHead(s: string, pat: string, p: nat)
    requires |pat| > 0
    ensures OccursAt(s, pat, p) ==> s[p] == pat[0]
  {
    if OccursAt(s, pat, p) { assert s[p..p + |pat|][0] == s[p]; }
  }

  /** An occurrence inside a slice is an occurrence in the whole string. */
  lemma OccursAtShift(s: string, t: string, pat: string, a: nat, q: nat)
    requires a + |t| <= |s| && s[a..a + |t|] == t
    ensures OccursAt(t, pat, q) ==> OccursAt(s, pat, a + q)
  {
    if OccursAt(t, pat, q) {
      forall i | 0 <= i < |pat| ensures s[a + q + i] == pat[i] {
        assert s[a..a + |t|][q + i] == s[a + q + i];
      }
    }
  }

  /**
   * The first `?`-piece of the piece starting at `a` is the text right at
   * `a`, holds no separator, has no separator starting inside it, and ends
   * at the end of the URL, at a `?`, or where a separator starts.
   */
  lemma PieceHead(url: string, sep: string, a: nat)
    requires a <= |url| && sep != []
    ensures var id := FirstPiece(Piece(url, sep, a), '?');
            && OccursAt(url, id, a)
            && IndexOfFrom(id, sep, 0).None?
            && (forall q :: a <= q < a + |id| ==> !OccursAt(url, sep, q))
            && CutEnd(url, sep, a + |id|)
  {
    var piece := Piece(url, sep, a);
    var id := FirstPiece(piece, '?');
    PieceFacts(url, sep, a);
    FirstPieceFacts(piece, '?');
    assert id == piece[..|id|];
    assert url[a..a + |id|] == id;
    forall i | 0 <= i < |id| ensures url[a + i] == id[i] {
      assert url[a..a + |id|][i] == url[a + i];
    }
    forall q ensures !OccursAt(id, sep, q) {
      OccursAtShift(url, id, sep, a, q);
    }
    IndexOfFromFound(id, sep, 0);
    if |id| < |piece| {
      assert url[a + |id|] == url[a..a + |piece|][|id|] == '?';
    }
  }

  /** The first occurrence is the one at `p` when none starts before it. */
  lemma FirstOccurrence(url: string, sep: string, p: nat)
    requires OccursAt(url, sep, p)
    requires forall q :: 0 <= q < p ==> !OccursAt(url, sep, q)
    ensures IndexOfFrom(url, sep, 0) == Some(p)
  {
    IndexOfFromFound(url, sep, 0);
    IndexOfFromFirst(url, sep, 0);
    match IndexOfFrom(url, sep, 0)
    case None =>
    case Some(r) =>
  }

  /** No cut ends strictly inside another cut. */
  lemma NoCutEndInsideCut(url: string, sep: string, a: nat, id: string)
    requires IsCut(url, sep, a, id)
    ensures forall e :: a <= e < a + |id| ==> !CutEnd(url, sep, e)
  {
    forall e | a <= e < a + |id| ensures !CutEnd(url, sep, e) {
      assert url[a + (e - a)] == id[e - a];
    }
  }

  /**
   * The cut at `a` is unique: the first `?`, the first separator start, or
   * the end of the URL, whichever comes first, is where it ends.
   */
  lemma IsCutUnique(url: string, sep: string, a: nat, id1: string, id2: string)
    requires IsCut(url, sep, a, id1) && IsCut(url, sep, a, id2)
    ensures id1 == id2
  {
    NoCutEndInsideCut(url, sep, a, id1);
    NoCutEndInsideCut(url, sep, a, id2);
    assert |id1| == |id2|;
    forall i | 0 <= i < |id1| ensures id1[i] == id2[i] {
      assert url[a + i] == id1[i];
    }
  }

  /**
   * A cut stops at the first separator start even when the text after it
   * overlaps a later separator: in "/p/a/p/p/" the cut after "/p/" is "a",
   * not "a/p".
   */
  lemma CutStopsAtFirstSeparator()
    ensures CutAfter("/p/a/p/p/", "/p/") == Some("a")
  {
    var url, sep := "/p/a/p/p/", "/p/";
    FirstOccurrence(url, sep, 0);
    assert url[3] != sep[0];
    assert url[4..7] == sep;
    forall i | 0 <= i < |sep| ensures url[4 + i] == sep[i] {
      assert url[4..7][i] == url[4 + i];
    }
    assert IsCut(url, sep, 3, "a");
    IsCutUnique(url, sep, 3, CutAfter(url, sep).value, "a");
  }

  /** Text without a `?` placed at `a` cannot reach past a `?` at `a + n`. */
  lemma StopsAtQuestion(url: string, r: string, a: nat, n: nat)
    requires OccursAt(url, r, a) && '?' !in r
    requires a + n <= |url| && (a + n < |url| ==> url[a + n] == '?')
    ensures |r| <= n
  {
    forall e | a <= e < a + |r| ensures url[e] != '?' {
      assert url[a + (e - a)] == r[e - a];
    }
  }

  /** No cut ends inside text at `a` that holds neither a `?` nor a `/`. */
  lemma NoEndInside(url: string, sep: string, a: nat, id: string)
    requires |sep| > 0 && sep[0] == '/'
    requires OccursAt(url, id, a) && '/' !in id && '?' !in id
    ensures forall e :: a <= e < a + |id| ==> !CutEnd(url, sep, e)
  {
    forall e | a <= e < a + |id| ensures !CutEnd(url, sep, e) {
      assert url[a + (e - a)] == id[e - a];
      OccursAtHead(url, sep, e);
    }
  }

  /**
   * The cut yields `id` when the first separator starts at `p` and is
   * followed by `id` (with no `/` and no `?`), then by the end or a `?`.
   */
  lemma CutAfterAt(url: string, sep: string, p: nat, id: string)
    requires |sep| > 0 && sep[0] == '/'
    requires OccursAt(url, sep, p)
    requires forall q :: 0 <= q < p ==> !OccursAt(url, sep, q)
    requires '/' !in id && '?' !in id
    requires p + |sep| + |id| <= |url| && url[p + |sep|..p + |sep| + |id|] == id
    requires p + |sep| + |id| < |url| ==> url[p + |sep| + |id|] == '?'
    ensures CutAfter(url, sep) == Some(id)
  {
    FirstOccurrence(url, sep, p);
    var r := CutAfter(url, sep).value;
    var a := p + |sep|;
    forall i | 0 <= i < |id| ensures url[a + i] == id[i] {
      assert url[a..a + |id|][i] == url[a + i];
    }
    // The cut cannot run past the `?` that follows `id`, nor end inside `id`.
    StopsAtQuestion(url, r, a, |id|);
    NoEndInside(url, sep, a, id);
    assert r == id;
  }

  /**
   * The id written into a URL is the id extracted from it: the URL is a prefix
   * holding no separator, the separator, the id (non-empty, with no `/` and
   * no `?`), then nothing or a query string.
   */
  lemma ExtractIdOfUrl(prefix: string, importType: string, id: string, rest: string)
    requires forall p :: 0 <= p < |prefix| ==> !OccursAt(prefix + Separator(importType) + id + rest, Separator(importType), p)
    requires id != [] && '/' !in id && '?' !in id
    requires rest == [] || rest[0] == '?'
    ensures ExtractId(prefix + Separator(importType) + id + rest, importType) == Ok(id)
  {
    var sep := Separator(importType);
    var url := prefix + sep + id + rest;
    var a := |prefix| + |sep|;
    assert url[|prefix|..a] == sep;
    assert url[a..a + |id|] == id;
    assert a + |id| < |url| ==> url[a + |id|] == rest[0];
    CutAfterAt(url, sep, |prefix|, id);
  }

  // ---------------------------------------------------------------------
  // The track request
  // ---------------------------------------------------------------------

  const ApiBase: string := "https://api.spotify.com/v1/"

  /** `playlists/{id}/tracks` for a playlist import, `albums/{id}/tracks` otherwise. */
  function Endpoint(id: string, importType: string): string
  {
    ApiBase + (if importType == "playlist" then "playlists/" else "albums/") + id + "/tracks"
  }

  /** Different ids, or a playlist and an album, never share an endpoint. */
  lemma EndpointInjective(id1: string, t1: string, id2: string, t2: string)
    requires Endpoint(id1, t1) == Endpoint(id2, t2)
    ensures id1 == id2 && (t1 == "playlist" <==> t2 == "playlist")
  {
    var r := Endpoint(id1, t1);
    var n := |ApiBase|;
    var c1 := if t1 == "playlist" then "playlists/" else "albums/";
    var c2 := if t2 == "playlist" then "playlists/" else "albums/";
    assert r == ApiBase + c1 + id1 + "/tracks" == ApiBase + c2 + id2 + "/tracks";
    assert r[n] == c1[0] && r[n] == c2[0];
    assert r[n + |c1|..|r| - 7] == id1;
    assert r[n + |c2|..|r| - 7] == id2;
  }

  datatype Artist = Artist(name: string)

  /** A track object: `{name, artists}`. */
  datatype TrackObject = TrackObject(name: string, artists: seq<Artist>)

  /**
   * An element of `response.data.items`: playlist items wrap the track in
   * `track`, album items are the track itself.
   */
  datatype SpotifyItem = SpotifyItem(track: Option<TrackObject>, name: string, artists: seq<Artist>)

  /** `{name, artist}` as the importer keeps it. */
  datatype SpotifyTrack = SpotifyTrack(name: string, artist: string)

  /**
   * One step of the `items.map(...)`: the fields of `item.track` when it is
   * there, the item's own otherwise; the artist is the first listed one, and
   * an empty artist list throws (None).
   */
  function TrackOf(item: SpotifyItem): Option<SpotifyTrack>
  {
    var src := SourceOf(item);
    if src.artists == [] then None else Some(SpotifyTrack(src.name, src.artists[0].name))
  }

  /** `item.track || item`: the track object an item describes. */
  function SourceOf(item: SpotifyItem): TrackObject
  {
    if item.track.Some? then item.track.value else TrackObject(item.name, item.artists)
  }

  /** The whole `map`: one track per item, in order, or None when some item throws. */
  function TracksOf(items: seq<SpotifyItem>): (r: Option<seq<SpotifyTrack>>)
    ensures r.Some? <==> forall i :: 0 <= i < |items| ==> SourceOf(items[i]).artists != []
    ensures r.Some? ==>
      && |r.value| == |items|
      && forall i :: 0 <= i < |items| ==>
           r.value[i].name == SourceOf(items[i]).name && r.value[i].artist == SourceOf(items[i]).artists[0].name
    decreases |items|
  {
    if items == [] then Some([])
    else
      var first := TrackOf(items[0]);
      var rest := TracksOf(items[1..]);
      assert forall i :: 1 <= i < |items| ==> items[i] == items[1..][i - 1];
      if first.None? || rest.None? then None else Some([first.value] + rest.value)
  }

  // ---------------------------------------------------------------------
  // The YouTube search
  // ---------------------------------------------------------------------

  datatype Thumbnail = Thumbnail(url: string, width: int)

  /** A search result: `{videoId, videoThumbnails}`. */
  datatype SearchResult = SearchResult(videoId: string, videoThumbnails: seq<Thumbnail>)

  /** What the search returns for a track: `{videoId, thumbnailUrl}`. */
  datatype VideoData = VideoData(videoId: string, thumbnailUrl: string)

  /**
   * The `reduce` that keeps the wider of the best-so-far and the current
   * thumbnail, as an index: a widest thumbnail, the first of them on a tie.
   * `reduce` without a start value on an empty array throws, hence the
   * precondition.
   */
  function WidestThumbnail(thumbs: seq<Thumbnail>): (k: nat)
    requires |thumbs| > 0
    ensures k < |thumbs|
    ensures forall j :: 0 <= j < |thumbs| ==> thumbs[j].width <= thumbs[k].width
    ensures forall j :: 0 <= j < k ==> thumbs[j].width < thumbs[k].width
    decreases |thumbs|
  {
    if |thumbs| == 1 then 0
    else
      var best := WidestThumbnail(thumbs[..|thumbs| - 1]);
      assert forall j :: 0 <= j < |thumbs| - 1 ==> thumbs[j] == thumbs[..|thumbs| - 1][j];
      if thumbs[|thumbs| - 1].width > thumbs[best].width then |thumbs| - 1 else best
  }

  /** The search query text: `${artist} ${title}`. */
  function Query(t: SpotifyTrack): string
  {
    t.artist + " " + t.name
  }

  /**
   * `searchYouTubeVideoAlternative`: the first result with its widest
   * thumbnail. A failed request, no results, and a first result without
   * thumbnails all throw (None).
   */
  function FirstHit(response: Option<seq<SearchResult>>): (r: Option<VideoData>)
    ensures r.Some? <==> response.Some? && response.value != [] && response.value[0].videoThumbnails != []
    ensures r.Some? ==>
      var v := response.value[0];
      && r.value.videoId == v.videoId
      && exists k :: 0 <= k < |v.videoThumbnails| && r.value.thumbnailUrl == v.videoThumbnails[k].url
                     && (forall j :: 0 <= j < |v.videoThumbnails| ==> v.videoThumbnails[j].width <= v.videoThumbnails[k].width)
                     && (forall j :: 0 <= j < k ==> v.videoThumbnails[j].width < v.videoThumbnails[k].width)
  {
    if response.None? || response.value == [] then None
    else
      var v := response.value[0];
      if v.videoThumbnails == [] then None
      else Some(VideoData(v.videoId, v.videoThumbnails[WidestThumbnail(v.videoThumbnails)].url))
  }

  /** The playlist entry built for a track and its video. */
  function EntryFor(t: SpotifyTrack, d: VideoData): Video
  {
    Video(d.videoId, Imported(t.artist + " - " + t.name, d.thumbnailUrl))
  }

  /**
   * The entries `convertToYouTubeVideos` collects: one per track whose search
   * succeeds, in track order.
   */
  function Converted(tracks: seq<SpotifyTrack>, search: string -> Option<seq<SearchResult>>): (r: seq<Video>)
    ensures |r| <= |tracks|
    decreases |tracks|
  {
    if tracks == [] then []
    else
      var init := Converted(tracks[..|tracks| - 1], search);
      var t := tracks[|tracks| - 1];
      var hit := FirstHit(search(Query(t)));
      if hit.Some? then init + [EntryFor(t, hit.value)] else init
  }

  /** Converting works track by track, so the entries keep the tracks' order. */
  lemma {:induction false} ConvertedConcat(a: seq<SpotifyTrack>, b: seq<SpotifyTrack>,
                                           search: string -> Option<seq<SearchResult>>)
    ensures Converted(a + b, search) == Converted(a, search) + Converted(b, search)
    decreases |b|
  {
    if b == [] {
      assert a + b == a;
    } else {
      var b' := b[..|b| - 1];
      assert (a + b)[..|a + b| - 1] == a + b';
      ConvertedConcat(a, b', search);
    }
  }

  /** Every entry is titled `artist - name` after a track whose search found a video. */
  lemma {:induction false} ConvertedEntries(tracks: seq<SpotifyTrack>, search: string -> Option<seq<SearchResult>>, v: Video)
    requires v in Converted(tracks, search)
    ensures exists t :: t in tracks && FirstHit(search(Query(t))).Some? &&
                        v == EntryFor(t, FirstHit(search(Query(t))).value) &&
                        v.videoInfo.title == t.artist + " - " + t.name
    decreases |tracks|
  {
    var init := tracks[..|tracks| - 1];
    var t := tracks[|tracks| - 1];
    if v in Converted(init, search) {
      ConvertedEntries(init, search, v);
      var u :| u in init && FirstHit(search(Query(u))).Some? && v == EntryFor(u, FirstHit(search(Query(u))).value)
               && v.videoInfo.title == u.artist + " - " + u.name;
      assert u in tracks;
    } else {
      assert t in tracks;
    }
  }

  /** Every track whose search finds a video contributes its entry. */
  lemma {:induction false} ConvertedKeepsHits(tracks: seq<SpotifyTrack>, search: string -> Option<seq<SearchResult>>,
                                              t: SpotifyTrack)
    requires t in tracks && FirstHit(search(Query(t))).Some?
    ensures EntryFor(t, FirstHit(search(Query(t))).value) in Converted(tracks, search)
    decreases |tracks|
  {
    var init := tracks[..|tracks| - 1];
    if t != tracks[|tracks| - 1] {
      var i :| 0 <= i < |tracks| && tracks[i] == t;
      assert init[i] == t;
      ConvertedKeepsHits(init, search, t);
    }
  }

  /** `convertToYouTubeVideos`: the loop that pushes one entry per found video. */
  method ConvertToYouTubeVideos(tracks: seq<SpotifyTrack>, search: string -> Option<seq<SearchResult>>)
    returns (videos: seq<Video>)
    ensures videos == Converted(tracks, search)
  {
    videos := [];
    for k := 0 to |tracks|
      invariant videos == Converted(tracks[..k], search)
    {
      assert tracks[..k + 1][..k] == tracks[..k];
      var hit := FirstHit(search(Query(tracks[k])));
      if hit.Some? {
        videos := videos + [EntryFor(tracks[k], hit.value)];
      }
    }
    assert tracks[..|tracks|] == tracks;
  }

  // ---------------------------------------------------------------------
  // handleImport
  // ---------------------------------------------------------------------

  /**
   * The tracks an import fetches, or the message of the first error thrown:
   * an invalid URL, a failed request, or an item without artists.
   */
  function Fetched(url: string, importType: string, fetch: string -> Result<seq<SpotifyItem>, string>)
    : (r: Result<seq<SpotifyTrack>, string>)
    ensures ExtractId(url, importType).Err? ==> r == Err(InvalidUrl(importType))
    ensures r.Ok? ==>
      (ExtractId(url, importType).Ok? &&
       var items := fetch(Endpoint(ExtractId(url, importType).value, importType));
       items.Ok? && TracksOf(items.value) == Some(r.value))
    ensures ExtractId(url, importType).Ok? ==>
      var items := fetch(Endpoint(ExtractId(url, importType).value, importType));
      && (items.Err? ==> r == Err(items.error))
      && (items.Ok? && TracksOf(items.value).None? ==> r == Err(MissingArtist))
      && (items.Ok? && TracksOf(items.value).Some? ==> r == Ok(TracksOf(items.value).value))
  {
    match ExtractId(url, importType)
    case Err(e) => Err(e)
    case Ok(id) =>
      match fetch(Endpoint(id, importType))
      case Err(e) => Err(e)
      case Ok(items) =>
        match TracksOf(items)
        case None => Err(MissingArtist)
        case Some(tracks) => Ok(tracks)
  }

  function SuccessMessage(found: nat, total: nat, name: string): string
  {
    "Successfully imported " + NatToString(found) + " out of " + NatToString(total) +
    " songs to \"" + name + "\""
  }

  /**
   * A successful import leaves the named playlist holding what it held
   * before (or nothing) followed by every found video, in order; no other
   * playlist changes.
   */
  lemma ImportedPlaylist(m: map<string, Slot>, name: string, videos: seq<Video>)
    requires videos != []
    ensures Get(WithSongs(Created(m, name), name, videos), name) == Tracks(ListOrEmpty(Get(m, name)) + videos)
    ensures forall k :: k != name ==> Get(WithSongs(Created(m, name), name, videos), k) == Get(m, k)
  {
    WithSongsAppends(Created(m, name), name, videos);
  }

  datatype Status = NoStatus | Message(message: string, isError: bool)

  class PlaylistImporter {
    var importType: string
    var spotifyUrl: string
    var customName: string
    var isLoading: bool
    var status: Status

    constructor()
      ensures importType == "playlist" && spotifyUrl == "" && customName == ""
      ensures !isLoading && status == NoStatus
    {
      importType, spotifyUrl, customName := "playlist", "", "";
      isLoading, status := false, NoStatus;
    }

    /**
     * A click on Import. A blank name only sets an error. Otherwise the
     * tracks are fetched and converted; when at least one video is found the
     * playlist is created if needed, every video is appended to it, and the
     * inputs are cleared; every other outcome sets an error status. Loading
     * ends in every case.
     */
    method HandleImport(store: PlaylistStore, fetch: string -> Result<seq<SpotifyItem>, string>,
                        search: string -> Option<seq<SearchResult>>)
      modifies this, store
      ensures importType == old(importType)
      ensures IsBlank(old(customName)) ==>
        && status == Message(NameRequired, true)
        && isLoading == old(isLoading) && customName == old(customName) && spotifyUrl == old(spotifyUrl)
        && store.playlists == old(store.playlists)
      ensures !IsBlank(old(customName)) ==>
        var fetched := Fetched(old(spotifyUrl), importType, fetch);
        var videos := if fetched.Ok? then Converted(fetched.value, search) else [];
        && !isLoading
        && (fetched.Err? ==>
              && status == Message(fetched.error, true)
              && customName == old(customName) && spotifyUrl == old(spotifyUrl)
              && store.playlists == old(store.playlists))
        && (fetched.Ok? && videos == [] ==>
              && status == Message(NoMatches, true)
              && customName == old(customName) && spotifyUrl == old(spotifyUrl)
              && store.playlists == old(store.playlists))
        && (fetched.Ok? && videos != [] ==>
              && status == Message(SuccessMessage(|videos|, |fetched.value|, old(customName)), false)
              && customName == "" && spotifyUrl == ""
              && store.playlists == WithSongs(Created(old(store.playlists), old(customName)), old(customName), videos))
    {
      // `!customName.trim()`, which is blankness by Text.TrimEmptyIffBlank
      if IsBlank(customName) {
        status := Message(NameRequired, true);
        return;
      }
      isLoading := true;
      status := NoStatus;
      var fetched := Fetched(spotifyUrl, importType, fetch);
      if fetched.Err? {
        status := Message(fetched.error, true);
      } else {
        var videos := ConvertToYouTubeVideos(fetched.value, search);
        if |videos| > 0 {
          var name := customName;
          store.CreatePlaylist(name);
          AddAll(store, name, videos);
          status := Message(SuccessMessage(|videos|, |fetched.value|, name), false);
          customName := "";
          spotifyUrl := "";
        } else {
          status := Message(NoMatches, true);
        }
      }
      isLoading := false;
    }
  }

  /** The importer's loop: each found video is added to the playlist in turn. */
  method AddAll(store: PlaylistStore, name: string, videos: seq<Video>)
    modifies store
    ensures store.playlists == WithSongs(old(store.playlists), name, videos)
  {
    ghost var start := store.playlists;
    for k := 0 to |videos|
      invariant store.playlists == WithSongs(start, name, videos[..k])
    {
      WithSongsStep(start, name, videos[..k], videos[k]);
      assert videos[..k + 1] == videos[..k] + [videos[k]];
      store.AddSongToPlaylist(name, videos[k]);
    }
    assert videos[..|videos|] == videos;
  }

  /** Adding one more song after a run of songs is adding the longer run. */
  lemma {:induction false} WithSongsStep(m: map<string, Slot>, p: string, songs: seq<Video>, song: Video)
    ensures WithSongs(m, p, songs + [song]) == WithSong(WithSongs(m, p, songs), p, song)
    decreases |songs|
  {
    if songs == [] {
      assert songs + [song] == [song];
    } else {
      assert (songs + [song])[1..] == songs[1..] + [song];
      WithSongsStep(WithSong(m, p, songs[0]), p, songs[1..], song);
    }
  }
}
