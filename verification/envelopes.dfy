/**
 The three fetchers of the resolver, `getAlbum`, `getPlaylist` and
 `getTrack`, and the response envelope they build.

 The resolver's state is its options and its cache. The Spotify Web API
 request each fetcher starts with is wrapped in `Util.tryPromise`, so it is
 an input that is either the entity or `None`; the later playlist pages and
 the node's searches are inputs as in `Pagination` and `Resolution`.
 */
module Envelopes {
  import opened Types
  import opened Pagination
  import opened Resolution

  /** The `type` every fetcher's envelope carries, a single track included. */
  const PlaylistType: string := "PLAYLIST"

  /** `{type, playlistName, tracks}`; `playlistName` is `None` for `null`. */
  datatype Envelope = Envelope(kind: string, playlistName: Option<string>, tracks: seq<LavaTrack>)

  /** What a fetcher settles with: `null`, an envelope, or a rejection. */
  datatype Reply = Null | Answer(envelope: Envelope) | Rejected

  /** The resolver's state. */
  datatype Resolver = Resolver(options: Options, cache: Cache)

  /** A fetcher's effect: the resolver afterwards and the reply. */
  datatype Step = Step(resolver: Resolver, reply: Reply)

  /** A Spotify album: its name and `tracks.items`. */
  datatype Album = Album(name: string, tracks: seq<SpotifyTrack>)

  /** One `{track}` entry of a playlist's track listing. */
  datatype PlaylistItem = PlaylistItem(track: SpotifyTrack)

  /** A Spotify playlist: its name, the items of its first track page, and
      the later pages its `next` cursors lead to. */
  datatype Playlist = Playlist(name: string, items: seq<PlaylistItem>, later: seq<Option<seq<PlaylistItem>>>)

  /** `.filter(Boolean)` over resolution results: the resolved tracks, in order. */
  function Present<T>(results: seq<Option<T>>): (r: seq<T>)
    ensures |r| <= |results|
    ensures forall i :: 0 <= i < |r| ==> Some(r[i]) in results
  {
    if |results| == 0 then []
    else (match results[0] case Some(x) => [x] case None => []) + Present(results[1..])
  }

  /** Filtering distributes over concatenation, so it keeps the input order. */
  lemma {:induction false} PresentAppend<T>(a: seq<Option<T>>, b: seq<Option<T>>)
    ensures Present(a + b) == Present(a) + Present(b)
    decreases |a|
  {
    if |a| == 0 {
      assert a + b == b;
    } else {
      assert (a + b)[0] == a[0];
      assert (a + b)[1..] == a[1..] + b;
      PresentAppend(a[1..], b);
    }
  }

  /** Every resolved track survives the filter. */
  lemma {:induction false} PresentKeepsResolved<T>(results: seq<Option<T>>, x: T)
    requires Some(x) in results
    ensures x in Present(results)
    decreases |results|
  {
    if results[0] != Some(x) {
      assert Some(x) in results[1..];
      PresentKeepsResolved(results[1..], x);
    }
  }

  /** When nothing failed, the filter removes nothing. */
  lemma {:induction false} PresentAllResolved<T>(results: seq<Option<T>>)
    requires forall i :: 0 <= i < |results| ==> results[i].Some?
    ensures |Present(results)| == |results|
    ensures forall i :: 0 <= i < |results| ==> Present(results)[i] == results[i].value
    decreases |results|
  {
    if |results| > 0 {
      PresentAllResolved(results[1..]);
    }
  }

  /** Each track of a list resolved against one cache, in list order. */
  function EachResolved(cache: Cache, ts: seq<SpotifyTrack>, opts: Options, search: Search): (rs: seq<Option<LavaTrack>>)
    ensures |rs| == |ts|
  {
    seq(|ts|, i requires 0 <= i < |ts| => Resolve(cache, ts[i], opts, search).track)
  }

  /** The cache after a batch against the cache before it: every entry that
      was there is kept, every track that resolved has its id cached, and
      every new entry is the resolution of some track with that id. */
  ghost predicate CachesBatch(before: Cache, after: Cache, ts: seq<SpotifyTrack>, opts: Options, search: Search) {
    var rs := EachResolved(before, ts, opts, search);
    && (forall k :: k in before ==> k in after && after[k] == before[k])
    && (forall i :: 0 <= i < |ts| && rs[i].Some? ==> ts[i].id in after)
    && (forall k :: k in after && k !in before ==>
          exists i :: 0 <= i < |ts| && ts[i].id == k && rs[i] == Some(after[k]))
  }

  /** Resolves a batch and wraps the survivors as a named playlist envelope. */
  function Assemble(res: Resolver, name: string, ts: seq<SpotifyTrack>, search: Search): (s: Step)
    ensures s.resolver.options == res.options
    ensures s.reply == Answer(Envelope(PlaylistType, Some(name), Present(EachResolved(res.cache, ts, res.options, search))))
    ensures CachesBatch(res.cache, s.resolver.cache, ts, res.options, search)
  {
    var b := ResolveAll(res.cache, ts, res.options, search);
    ResolveAllResults(res.cache, ts, res.options, search);
    ResolveAllKeeps(res.cache, ts, res.options, search);
    ResolveAllCachesResolved(res.cache, ts, res.options, search);
    ResolveAllAddsOnlyResults(res.cache, ts, res.options, search);
    assert b.tracks == EachResolved(res.cache, ts, res.options, search);
    Step(res.(cache := b.cache), Answer(Envelope(PlaylistType, Some(name), Present(b.tracks))))
  }

  /** `getAlbum(id)`: `null` when the album request failed; otherwise a
      PLAYLIST envelope named after the album with its tracks that resolved,
      in album order. */
  function GetAlbum(res: Resolver, album: Option<Album>, search: Search): (s: Step)
    ensures album.None? ==> s == Step(res, Null)
    ensures album.Some? ==> s.reply == Answer(Envelope(PlaylistType, Some(album.value.name),
      Present(EachResolved(res.cache, album.value.tracks, res.options, search))))
    ensures album.Some? ==> CachesBatch(res.cache, s.resolver.cache, album.value.tracks, res.options, search)
    ensures s.resolver.options == res.options
  {
    match album
    case None => Step(res, Null)
    case Some(a) => Assemble(res, a.name, a.tracks, search)
  }

  /** The Spotify tracks of playlist entries. */
  function TracksOf(items: seq<PlaylistItem>): (ts: seq<SpotifyTrack>)
    ensures |ts| == |items|
    ensures forall i :: 0 <= i < |items| ==> ts[i] == items[i].track
  {
    seq(|items|, i requires 0 <= i < |items| => items[i].track)
  }

  /** `getPlaylist(id)`: `null` when the playlist request failed; a rejection,
      with the cache untouched, when a later page request failed; otherwise a
      PLAYLIST envelope named after the playlist with the tracks of its loaded
      pages that resolved, in listing order. */
  function GetPlaylist(res: Resolver, playlist: Option<Playlist>, search: Search): (s: Step)
    ensures playlist.None? ==> s == Step(res, Null)
    ensures s.reply.Rejected? ==> s.resolver == res
    ensures playlist.Some? ==>
      var loaded := GetPlaylistTracks(playlist.value.items, playlist.value.later, res.options.playlistPageLimit).items;
      && (s.reply.Rejected? <==> loaded.None?)
      && (loaded.Some? ==>
            && s.reply == Answer(Envelope(PlaylistType, Some(playlist.value.name),
                 Present(EachResolved(res.cache, TracksOf(loaded.value), res.options, search))))
            && CachesBatch(res.cache, s.resolver.cache, TracksOf(loaded.value), res.options, search))
    ensures s.resolver.options == res.options
  {
    match playlist
    case None => Step(res, Null)
    case Some(p) =>
      match GetPlaylistTracks(p.items, p.later, res.options.playlistPageLimit).items
      case None => Step(res, Rejected)
      case Some(items) => Assemble(res, p.name, TracksOf(items), search)
  }

  /** `getTrack(id)`: an envelope holding just the resolved track when the
      track request and its resolution both succeed, `null` otherwise. The
      envelope's type is PLAYLIST and its name is `null`. */
  function GetTrack(res: Resolver, track: Option<SpotifyTrack>, search: Search): (s: Step)
    ensures track.None? ==> s == Step(res, Null)
    ensures !s.reply.Rejected?
    ensures s.reply.Answer? <==> track.Some? && track.value.id in s.resolver.cache
    ensures s.reply.Answer? ==>
      s.reply.envelope == Envelope(PlaylistType, None, [s.resolver.cache[track.value.id]])
    ensures track.Some? ==>
      s.resolver == res.(cache := Resolve(res.cache, track.value, res.options, search).cache)
  {
    match track
    case None => Step(res, Null)
    case Some(t) =>
      var r := Resolve(res.cache, t, res.options, search);
      Step(res.(cache := r.cache),
           match r.track
           case Some(found) => Answer(Envelope(PlaylistType, None, [found]))
           case None => Null)
  }

  /** Every album track that resolves appears in the album envelope. */
  lemma AlbumKeepsEveryResolved(res: Resolver, album: Album, search: Search, i: nat)
    requires i < |album.tracks|
    requires Resolve(res.cache, album.tracks[i], res.options, search).track.Some?
    ensures Resolve(res.cache, album.tracks[i], res.options, search).track.value
      in GetAlbum(res, Some(album), search).reply.envelope.tracks
  {
    var rs := EachResolved(res.cache, album.tracks, res.options, search);
    assert rs[i] == Resolve(res.cache, album.tracks[i], res.options, search).track;
    PresentKeepsResolved(rs, rs[i].value);
  }

  /** When every album track resolves, the album envelope is their
      resolutions one-for-one, in album order. */
  lemma AlbumAllResolvedInOrder(res: Resolver, album: Album, search: Search)
    requires forall i :: 0 <= i < |album.tracks| ==>
      Resolve(res.cache, album.tracks[i], res.options, search).track.Some?
    ensures var env := GetAlbum(res, Some(album), search).reply.envelope;
      && |env.tracks| == |album.tracks|
      && forall i :: 0 <= i < |album.tracks| ==>
           env.tracks[i] == Resolve(res.cache, album.tracks[i], res.options, search).track.value
  {
    PresentAllResolved(EachResolved(res.cache, album.tracks, res.options, search));
  }

  /** A playlist whose pages all load yields, in listing order, the resolved
      tracks of its first `min(limit, pages)` pages. */
  lemma PlaylistKeepsLoadedPages(res: Resolver, p: Playlist, search: Search)
    ensures var m := PagesLoaded(res.options.playlistPageLimit, 1 + |p.later|);
      var s := GetPlaylist(res, Some(p), search);
      && (s.reply.Rejected? <==> !AllLoaded(p.later[..m - 1]))
      && (AllLoaded(p.later[..m - 1]) ==>
            s.reply.envelope.tracks
            == Present(EachResolved(res.cache, TracksOf(p.items + Flatten(p.later[..m - 1])), res.options, search)))
  {
    GetPlaylistTracksLoadsFirstPages(p.items, p.later, res.options.playlistPageLimit);
  }

  /** A playlist's envelope splits at its page boundaries: the first page's
      resolved tracks come first, then those of the later loaded pages. */
  lemma PlaylistFirstPageFirst(cache: Cache, first: seq<PlaylistItem>, rest: seq<PlaylistItem>, opts: Options, search: Search)
    ensures Present(EachResolved(cache, TracksOf(first + rest), opts, search))
         == Present(EachResolved(cache, TracksOf(first), opts, search))
          + Present(EachResolved(cache, TracksOf(rest), opts, search))
  {
    var whole := EachResolved(cache, TracksOf(first + rest), opts, search);
    var a := EachResolved(cache, TracksOf(first), opts, search);
    var b := EachResolved(cache, TracksOf(rest), opts, search);
    assert whole == a + b;
    PresentAppend(a, b);
  }

  /** Once a track has been answered with an envelope, asking for it again
      answers the same and leaves the resolver as it was, whatever the node
      would answer now: the second call is a cache hit. */
  lemma GetTrackAgain(res: Resolver, t: SpotifyTrack, search: Search, later: Search)
    ensures var first := GetTrack(res, Some(t), search);
      var second := GetTrack(first.resolver, Some(t), later);
      first.reply.Answer? ==> second == first
  {
    ResolveAgain(res.cache, t, res.options, search, later);
  }
}
