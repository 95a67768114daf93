# lava-spotify resolver, modelled in Dafny

This project models the `Resolver` of lava-spotify (`src/structures/Resolver.ts`).
The resolver turns Spotify albums, playlists and tracks into Lavalink tracks.
It reads metadata from the Spotify Web API. For each Spotify track not yet cached it
runs a `ytsearch:` query on a Lavalink node. Results are kept in a cache keyed by
Spotify track id.

The network becomes explicit inputs:

- The first Web API request of each fetcher goes through `Util.tryPromise`.
  It is an `Option` of the album, playlist or track.
- The later pages of a playlist's track listing are a sequence. Each page is
  either its items or `None` for a rejected request.
- The Lavalink node is a `search` oracle. It maps a query string to `Failed`
  or `Loaded(tracks)`.

Modules:

- `Types` (`types.dfy`): the Spotify and Lavalink records, the options and the cache.
- `Query` (`query.dfy`): the search identifier, the `", "` join of artist
  names, and the metadata merge.
- `Pagination` (`pagination.dfy`): `playlistPageLimit` and `getPlaylistTracks`.
- `Resolution` (`resolution.dfy`): `resolve` as a step on the cache, and the
  `Promise.all` batch.
- `Envelopes` (`envelopes.dfy`): `getAlbum`, `getPlaylist` and `getTrack`
  with the `{type, playlistName, tracks}` envelope.

## Behaviour worth noting

- `getTrack` answers with type `PLAYLIST` and a `null` playlist name. It never uses `TRACK`.
- A failed search request is caught and ends as "no result". It is not raised.
- The query uses only the first artist. When `audioOnlyResults` is off, the
  query still ends in a space.
- A rejected request for a later playlist page is not caught, so
  `getPlaylist` rejects. The first request of every fetcher is caught and
  gives `null`.

A `Promise.all` batch is modelled by what it can observe. Each `resolve`
reads the cache before its first `await`. So every lookup in a batch sees
the cache as it was when the batch began, and two copies of one uncached
track both search. The insertions happen afterwards. The model applies them
in input order, which is one of the possible completion orders.
`Resolution.ResolveAllInTurn` proves that with pairwise distinct ids the
batch equals the one-at-a-time fold. `Resolution.DuplicateInBatchSearchesTwice`
shows that without distinct ids the two differ.

## Model

| member | source | states |
|---|---|---|
| `Pagination.PlaylistPageLimit` | src/structures/Resolver.ts:16-20 | a configured 0 is the unbounded limit; any other value bounds the page number to below itself |
| `Pagination.PlaylistTracks` | src/structures/Resolver.ts:68-92 | the recursion makes at most one request per remaining page, only ever appends to the items it holds, and is rejected only by a rejected page it requested |
| `Pagination.PlaylistTracksLoadsPrefix` | src/structures/Resolver.ts:74-91 | from any page count, if the next `Extra` pages all load, exactly those are requested and the result is the held items followed by those pages in order; otherwise the load is rejected |
| `Pagination.PlaylistTracksStopsAtRejection` | src/structures/Resolver.ts:77-91 | a rejected load stops at the first rejected page: the last request made is the rejected one, every page requested before it loaded, and no more than `Extra` pages were requested |
| `Pagination.GetPlaylistTracksLoadsFirstPages` | src/structures/Resolver.ts:74-91 | a playlist load gives exactly the items of its first `min(limit, pages)` pages concatenated in listing order (all pages for limit 0), with one request per page after the first, or a rejection if one of those requests fails, in which case the requests stop at the first failing page |
| `Pagination.GetPlaylistTracks` | src/structures/Resolver.ts:68-91 | a load makes at most one request per later page, the first page's items always lead the result, and a rejection always comes from one of the requests actually made |
| `Pagination.FirstPageOnly` | src/structures/Resolver.ts:74 | with no `next` cursor or a limit of one page, the first page comes back unchanged and nothing is requested |
| `Pagination.TwoOfThreePages` | src/structures/Resolver.ts:74-91 | limit 2 over three pages yields pages 1 and 2 from one request; limit 0 yields all three from two requests |
| `Query.Join` | src/structures/Resolver.ts:113 | `join` starts with the first part, gives "" for no parts, and its length is the parts' total plus one separator between each neighbouring pair |
| `Query.JoinAppend` | src/structures/Resolver.ts:113 | joining a concatenation is joining the halves around one separator |
| `Query.ArtistNames` | src/structures/Resolver.ts:113 | the mapped names are the artists' names, one per artist, in order |
| `Query.QueryFor` | src/structures/Resolver.ts:100 | the identifier starts with `ytsearch:`, the artist and ` - `, ends with a space and the optional filter, and the title reads back out of it |
| `Query.SearchQuery` | src/structures/Resolver.ts:99-101 | no query is formed exactly when the track has no artist; otherwise the query begins with `ytsearch:`, the first artist and ` - `, its length accounts for the title, the separating space and the optional filter, and the track's title reads back out of it for that first artist |
| `Query.SearchQueryUsesFirstArtistOnly` | src/structures/Resolver.ts:100 | tracks agreeing on title and first artist get the same query whatever their other artists are |
| `Query.ParseQueryFor` | src/structures/Resolver.ts:100 | the title can be read back from the query for a known first artist and filter setting |
| `Query.ParseQuerySound` | src/structures/Resolver.ts:100 | every string the reader accepts is the query built from the title it returns, so distinct titles give distinct queries |
| `Query.MergeMetadata` | src/structures/Resolver.ts:110-116 | the merge sets title to the Spotify name, author to all artist names joined by ", ", and uri to the Spotify URL, and leaves the encoded track and every other info field as they were |
| `Query.MergeMetadataForgetsDisplay` | src/structures/Resolver.ts:111-115 | two candidates merge to the same track exactly when they agree on every field the merge does not overwrite |
| `Resolution.Adopt` | src/structures/Resolver.ts:110-116 | without `useSpotifyMetadata` the candidate is kept as found; with it, title, author and uri come from Spotify; either way the encoded track and the playback fields are the candidate's |
| `Resolution.Resolve` | src/structures/Resolver.ts:94-124 | a hit returns the cached entry, sends no query and keeps the cache; a miss sends the first-artist query when there is an artist and caches the first candidate exactly when the search found one, as found unless metadata merging is configured; the returned value is always the cache's entry for the id or nothing; no other key changes and failures leave the cache as it was |
| `Resolution.ResolveAgain` | src/structures/Resolver.ts:95-120 | after a success, resolving the track again returns the same value and cache and sends no query, whatever the node would answer now; after a failure, the same query, if any, is sent again |
| `Resolution.ResolveSeesOnlyItsId` | src/structures/Resolver.ts:95-96 | a resolution depends on the cache only through the track's own id |
| `Resolution.ResolveAll` | src/structures/Resolver.ts:32 | a batch gives one result per input and sends at most one query per input |
| `Resolution.ResolveAllResults` | src/structures/Resolver.ts:32 | each result of a batch, in input order, is the resolution of that input against the cache as it was at the start |
| `Resolution.ResolveAllKeeps` | src/structures/Resolver.ts:32 | a batch keeps every entry of the starting cache |
| `Resolution.ResolveAllCachesResolved` | src/structures/Resolver.ts:32 | every input that resolves has its id cached after the batch |
| `Resolution.ResolveAllAddsOnlyResults` | src/structures/Resolver.ts:32 | every entry a batch adds is the result of some input with that id |
| `Resolution.ResolveAllInTurn` | src/structures/Resolver.ts:48 | with pairwise distinct ids the batch equals resolving the tracks one after another: same results, same queries, same cache |
| `Resolution.DuplicateInBatchSearchesTwice` | src/structures/Resolver.ts:95-117 | two copies of an uncached, findable track in one batch send two queries, but sent one after the other they send one |
| `Envelopes.Present` | src/structures/Resolver.ts:32 | the filter never lengthens the list and keeps only values that some result held |
| `Envelopes.PresentAppend` | src/structures/Resolver.ts:32 | the filter distributes over concatenation, so survivors keep their relative order |
| `Envelopes.PresentKeepsResolved` | src/structures/Resolver.ts:48 | every resolved result survives the filter |
| `Envelopes.PresentAllResolved` | src/structures/Resolver.ts:32 | when every result resolved, the filter returns all of them in place |
| `Envelopes.Assemble` | src/structures/Resolver.ts:29-33 | a batch is wrapped as a PLAYLIST envelope of the surviving resolutions; the options and all existing cache entries are kept, every resolved id is cached, and every new entry is the resolution of an input with that id |
| `Envelopes.GetAlbum` | src/structures/Resolver.ts:22-34 | a failed album request gives `null` and changes nothing; otherwise a PLAYLIST envelope named after the album holding the album's resolved tracks in order, with the album's resolved ids cached as for a batch |
| `Envelopes.TracksOf` | src/structures/Resolver.ts:48 | the playlist entries' tracks, one per entry, in order |
| `Envelopes.GetPlaylist` | src/structures/Resolver.ts:36-50 | a failed playlist request gives `null`; a failed page request rejects with the resolver unchanged; otherwise a PLAYLIST envelope named after the playlist holding the resolved tracks of the loaded pages in order, with those tracks' resolved ids cached as for a batch |
| `Envelopes.GetTrack` | src/structures/Resolver.ts:52-66 | the reply is an envelope exactly when the track was fetched and its id is cached afterwards; that envelope is type PLAYLIST, name `null`, holding just the cached track; it never rejects |
| `Envelopes.AlbumKeepsEveryResolved` | src/structures/Resolver.ts:29-33 | every album track that resolves appears in the album envelope |
| `Envelopes.AlbumAllResolvedInOrder` | src/structures/Resolver.ts:29-33 | when every album track resolves, the envelope is their resolutions one-for-one in album order |
| `Envelopes.PlaylistKeepsLoadedPages` | src/structures/Resolver.ts:43-49 | `getPlaylist` rejects exactly when one of the first `min(limit, pages)` pages fails; otherwise its tracks are the resolved tracks of those pages in listing order |
| `Envelopes.PlaylistFirstPageFirst` | src/structures/Resolver.ts:48 | the first page's resolved tracks come before those of the later pages |
| `Envelopes.GetTrackAgain` | src/structures/Resolver.ts:59-65 | once a track has been answered with an envelope, asking for it again answers the same and leaves the resolver as the first call left it, whatever the node would answer the second time |

## Left out

- HTTP through `node-superfetch`: the Web API base URL, the `/loadtracks` URL built from the node's host, port and `secure` flag, and the `Authorization` headers. Each response is an input.
- `URLSearchParams` encoding of the identifier. The model stops at the query string before it is encoded.
- `Util.tryPromise` and `Util.structuredClone` are not part of this model. The first is an `Option` input. The second is a value copy, which Dafny's value semantics already give.
- `Object.freeze` on cached entries. It is a runtime immutability marker, and model values are immutable anyway.
- `getTrack` answers with the envelope type `PLAYLIST`, never `TRACK`, so the type is a single string constant rather than an enumeration.
- A node whose answer to one query changes between two searches of the same batch or call. The `search` oracle is a function, so within one batch the same query gets the same answer. Across separate calls a different oracle may be passed, as `Resolution.ResolveAgain` and `Envelopes.GetTrackAgain` do.
- The timing of `Promise.all`. The model applies cache insertions in input order. With duplicate ids whose tracks differ, another completion order could leave a different value cached.
- The `token` getter and the `client`/`node` wiring. They only read configuration.
- `playlistPageLimit` values that are not non-negative integers (negative, fractional or unset). The option is a `nat`.
- A playlist entry whose `track` is `null`. There `resolve` throws outside its `try` and the batch rejects. Every modelled entry carries a track.
- The typings file is not part of this model. The Lavalink track fields follow Lavalink's track-info record: identifier, isSeekable, author, length, isStream, position, title and uri.
- A search response whose `tracks` is missing is folded into `Failed`. This matches the source, where reading its `length` throws inside the `try`.
