/**
 `resolve`: turning one Spotify track into a Lavalink track through the
 resolver's cache and, on a miss, one search on the node. Also the batch
 form used by the album and playlist fetchers, `Promise.all` over `resolve`.

 The node is the `search` oracle. Every failure inside the `try` (a track
 with no artist, a rejected request, a body without `tracks`) ends in "no
 result": nothing is raised and nothing is cached.
 */
module Resolution {
  import opened Types
  import opened Query

  /** The outcome of one `resolve`: the cache afterwards, the track handed
      back (`None` for `undefined`), and the query sent to the node, if any. */
  datatype Resolution = Resolution(cache: Cache, track: Option<LavaTrack>, query: Option<string>)

  /** The search answered with at least one candidate. */
  predicate HasCandidate(outcome: SearchOutcome) {
    outcome.Loaded? && |outcome.tracks| > 0
  }

  /** The track kept from a candidate: the candidate with the Spotify
      metadata merged in when `useSpotifyMetadata` is set, untouched otherwise. */
  function Adopt(candidate: LavaTrack, t: SpotifyTrack, opts: Options): (kept: LavaTrack)
    ensures !opts.useSpotifyMetadata ==> kept == candidate
    ensures opts.useSpotifyMetadata ==>
      kept.info.title == t.name && kept.info.author == AuthorOf(t) && kept.info.uri == t.spotifyUrl
    ensures kept.track == candidate.track && SamePlayback(kept.info, candidate.info)
  {
    if opts.useSpotifyMetadata then MergeMetadata(candidate, t) else candidate
  }

  /** The miss path: the query sent (none when the track has no artist) and
      the track kept from the first candidate, if there is one. */
  function SearchOnMiss(t: SpotifyTrack, opts: Options, search: Search): (Option<string>, Option<LavaTrack>) {
    match SearchQuery(t, opts.audioOnlyResults)
    case None => (None, None)
    case Some(q) =>
      var outcome := search(q);
      if HasCandidate(outcome) then (Some(q), Some(Adopt(outcome.tracks[0], t, opts)))
      else (Some(q), None)
  }

  /** `resolve(track)`: a cache hit hands back the cached track; a miss
      searches, caches the kept track under the Spotify id and hands it back. */
  function Resolve(cache: Cache, t: SpotifyTrack, opts: Options, search: Search): (r: Resolution)
    // a hit hands back the cached entry, asks nothing, changes nothing
    ensures t.id in cache ==> r == Resolution(cache, Some(cache[t.id]), None)
    // a miss asks the node exactly when the track has a first artist, with that artist's query
    ensures t.id !in cache ==> r.query == SearchQuery(t, opts.audioOnlyResults)
    // a miss caches exactly when the search found a candidate, and caches the kept first candidate
    ensures t.id !in cache ==>
      (t.id in r.cache <==> r.query.Some? && HasCandidate(search(r.query.value)))
    ensures t.id !in cache && t.id in r.cache ==>
      r.cache[t.id] == Adopt(search(r.query.value).tracks[0], t, opts)
    ensures t.id !in cache && t.id in r.cache && !opts.useSpotifyMetadata ==>
      r.cache[t.id] == search(r.query.value).tracks[0]
    // what is handed back is what the cache holds for the id, or nothing
    ensures r.track.Some? <==> t.id in r.cache
    ensures r.track.Some? ==> r.track.value == r.cache[t.id]
    // the cache only ever gains the id, and only on success
    ensures r.cache.Keys == cache.Keys + (if r.track.Some? then {t.id} else {})
    ensures forall k :: k in cache ==> r.cache[k] == cache[k]
    ensures r.track.None? ==> r.cache == cache
  {
    if t.id in cache then Resolution(cache, Some(cache[t.id]), None)
    else
      var (query, found) := SearchOnMiss(t, opts, search);
      match found
      case Some(kept) => Resolution(cache[t.id := kept], found, query)
      case None => Resolution(cache, None, query)
  }

  /** After a success, resolving the same track again is a cache hit: the
      same value, the same cache, and no query, whatever the node would
      answer now. After a failure nothing was recorded, so the second call
      sends the same query again and may now succeed. */
  lemma ResolveAgain(cache: Cache, t: SpotifyTrack, opts: Options, search: Search, later: Search)
    ensures var first := Resolve(cache, t, opts, search);
      var second := Resolve(first.cache, t, opts, later);
      && (first.track.Some? ==> second == Resolution(first.cache, first.track, None))
      && (first.track.None? ==> second.query == first.query)
  {
  }

  /** The query list sent by one resolution. */
  function Sent(query: Option<string>): seq<string> {
    match query
    case Some(q) => [q]
    case None => []
  }

  /** A batch of resolutions: the cache afterwards, one result per input in
      input order, and the queries sent. */
  datatype Batch = Batch(cache: Cache, tracks: seq<Option<LavaTrack>>, queries: seq<string>)

  /** `Promise.all(tracks.map(x => this.resolve(x)))`. Each call reads the
      cache before its first `await`, so every lookup sees the cache as it
      was when the batch started; the insertions follow, here in input order,
      a later duplicate overwriting an earlier one. */
  function ResolveAll(cache: Cache, ts: seq<SpotifyTrack>, opts: Options, search: Search): (b: Batch)
    ensures |b.tracks| == |ts|
    ensures |b.queries| <= |ts|
    decreases |ts|
  {
    if |ts| == 0 then Batch(cache, [], [])
    else
      var b := ResolveAll(cache, ts[..|ts| - 1], opts, search);
      var t := ts[|ts| - 1];
      var r := Resolve(cache, t, opts, search);
      var c := if t.id !in cache && r.track.Some? then b.cache[t.id := r.track.value] else b.cache;
      Batch(c, b.tracks + [r.track], b.queries + Sent(r.query))
  }

  /** A batch gives one result per input, in input order, each what a single
      `resolve` against the starting cache gives. */
  lemma {:induction false} ResolveAllResults(cache: Cache, ts: seq<SpotifyTrack>, opts: Options, search: Search)
    ensures var b := ResolveAll(cache, ts, opts, search);
      forall i :: 0 <= i < |ts| ==> b.tracks[i] == Resolve(cache, ts[i], opts, search).track
    decreases |ts|
  {
    if |ts| > 0 {
      var init := ts[..|ts| - 1];
      ResolveAllResults(cache, init, opts, search);
      var b := ResolveAll(cache, init, opts, search);
      var whole := ResolveAll(cache, ts, opts, search);
      assert whole.tracks == b.tracks + [Resolve(cache, ts[|ts| - 1], opts, search).track];
      forall i | 0 <= i < |init|
        ensures init[i] == ts[i] && whole.tracks[i] == b.tracks[i]
      {
      }
    }
  }

  /** A batch keeps every entry of the starting cache. */
  lemma {:induction false} ResolveAllKeeps(cache: Cache, ts: seq<SpotifyTrack>, opts: Options, search: Search)
    ensures var b := ResolveAll(cache, ts, opts, search);
      forall k :: k in cache ==> k in b.cache && b.cache[k] == cache[k]
    decreases |ts|
  {
    if |ts| > 0 {
      ResolveAllKeeps(cache, ts[..|ts| - 1], opts, search);
    }
  }

  /** A batch caches the id of every track that resolved. */
  lemma {:induction false} ResolveAllCachesResolved(cache: Cache, ts: seq<SpotifyTrack>, opts: Options, search: Search)
    ensures var b := ResolveAll(cache, ts, opts, search);
      forall i :: 0 <= i < |ts| && Resolve(cache, ts[i], opts, search).track.Some? ==> ts[i].id in b.cache
    decreases |ts|
  {
    if |ts| > 0 {
      var init := ts[..|ts| - 1];
      ResolveAllCachesResolved(cache, init, opts, search);
      ResolveAllKeeps(cache, init, opts, search);
      var b := ResolveAll(cache, init, opts, search);
      var whole := ResolveAll(cache, ts, opts, search);
      assert cache.Keys <= b.cache.Keys <= whole.cache.Keys;
      forall i | 0 <= i < |init|
        ensures init[i] == ts[i]
      {
      }
    }
  }

  /** Every entry a batch adds is the result of some input with that id. */
  lemma {:induction false} ResolveAllAddsOnlyResults(cache: Cache, ts: seq<SpotifyTrack>, opts: Options, search: Search)
    ensures var b := ResolveAll(cache, ts, opts, search);
      forall k :: k in b.cache && k !in cache ==>
        exists i :: 0 <= i < |ts| && ts[i].id == k && Resolve(cache, ts[i], opts, search).track == Some(b.cache[k])
    decreases |ts|
  {
    if |ts| > 0 {
      var init := ts[..|ts| - 1];
      var t := ts[|ts| - 1];
      ResolveAllAddsOnlyResults(cache, init, opts, search);
      var b := ResolveAll(cache, init, opts, search);
      var r := Resolve(cache, t, opts, search);
      var whole := ResolveAll(cache, ts, opts, search);
      forall k | k in whole.cache && k !in cache
        ensures exists i :: 0 <= i < |ts| && ts[i].id == k && Resolve(cache, ts[i], opts, search).track == Some(whole.cache[k])
      {
        if k == t.id && r.track.Some? {
          assert ts[|ts| - 1].id == k;
        } else {
          var i :| 0 <= i < |init| && init[i].id == k && Resolve(cache, init[i], opts, search).track == Some(b.cache[k]);
          assert init[i] == ts[i];
        }
      }
    }
  }

  /** The same batch resolved one call after another, each call seeing the
      cache the previous one left. */
  function ResolveInTurn(cache: Cache, ts: seq<SpotifyTrack>, opts: Options, search: Search): Batch
    decreases |ts|
  {
    if |ts| == 0 then Batch(cache, [], [])
    else
      var b := ResolveInTurn(cache, ts[..|ts| - 1], opts, search);
      var r := Resolve(b.cache, ts[|ts| - 1], opts, search);
      Batch(r.cache, b.tracks + [r.track], b.queries + Sent(r.query))
  }

  /** A resolution looks at the cache only under the track's own id. */
  lemma ResolveSeesOnlyItsId(c1: Cache, c2: Cache, t: SpotifyTrack, opts: Options, search: Search)
    requires t.id in c1 <==> t.id in c2
    requires t.id in c1 ==> c1[t.id] == c2[t.id]
    ensures var r1, r2 := Resolve(c1, t, opts, search), Resolve(c2, t, opts, search);
      && r2.track == r1.track
      && r2.query == r1.query
      && r2.cache == (if t.id !in c1 && r1.track.Some? then c2[t.id := r1.track.value] else c2)
  {
  }

  /** No Spotify id occurs twice in the batch. */
  predicate DistinctIds(ts: seq<SpotifyTrack>) {
    forall i, j :: 0 <= i < j < |ts| ==> ts[i].id != ts[j].id
  }

  /** With pairwise distinct ids the concurrent batch and the sequential one
      agree on everything: results, queries and the final cache. */
  lemma {:induction false} ResolveAllInTurn(cache: Cache, ts: seq<SpotifyTrack>, opts: Options, search: Search)
    requires DistinctIds(ts)
    ensures ResolveAll(cache, ts, opts, search) == ResolveInTurn(cache, ts, opts, search)
    decreases |ts|
  {
    if |ts| > 0 {
      var init := ts[..|ts| - 1];
      var t := ts[|ts| - 1];
      assert DistinctIds(init) by {
        forall i, j | 0 <= i < j < |init|
          ensures init[i].id != init[j].id
        {
          assert init[i] == ts[i] && init[j] == ts[j];
        }
      }
      ResolveAllInTurn(cache, init, opts, search);
      ResolveAllKeeps(cache, init, opts, search);
      ResolveAllAddsOnlyResults(cache, init, opts, search);
      var b := ResolveAll(cache, init, opts, search);
      // the earlier calls only added ids other than t's
      assert t.id in b.cache <==> t.id in cache;
      ResolveSeesOnlyItsId(cache, b.cache, t, opts, search);
    }
  }

  /** Without distinct ids the two differ: two copies of an uncached track
      in one batch each ask the node, while in turn the second is a hit. */
  lemma DuplicateInBatchSearchesTwice(cache: Cache, t: SpotifyTrack, opts: Options, search: Search)
    requires t.id !in cache
    requires |t.artists| > 0 && HasCandidate(search(SearchQuery(t, opts.audioOnlyResults).value))
    ensures |ResolveAll(cache, [t, t], opts, search).queries| == 2
    ensures |ResolveInTurn(cache, [t, t], opts, search).queries| == 1
  {
    var q := SearchQuery(t, opts.audioOnlyResults).value;
    var r := Resolve(cache, t, opts, search);
    assert r.query == Some(q) && r.track.Some?;
    assert [t, t][..1] == [t];
    assert [t][..0] == [];
    var none := ResolveInTurn(cache, [], opts, search);
    assert none == Batch(cache, [], []);
    var once := ResolveInTurn(cache, [t], opts, search);
    assert once.cache == r.cache;
    assert Resolve(once.cache, t, opts, search).query == None;
    var batch := ResolveAll(cache, [t], opts, search);
    assert batch.queries == [q];
  }
}
