/**
 The values the resolver works on: Spotify track records coming from the
 Web API, Lavalink tracks coming back from a node's `/loadtracks` search,
 the client options the resolver reads, and the resolution cache.
 */
module Types {

  /** An optional value; `None` stands for JavaScript's `undefined`/`null`. */
  datatype Option<+T> = None | Some(value: T)

  /** One entry of a Spotify track's `artists` array. */
  datatype Artist = Artist(name: string)

  /** The fields of a Spotify track record the resolver reads: `id`, `name`,
      `artists` and `external_urls.spotify`. */
  datatype SpotifyTrack = SpotifyTrack(
    id: string,
    name: string,
    artists: seq<Artist>,
    spotifyUrl: string)

  /** The `info` part of a Lavalink track. */
  datatype TrackInfo = TrackInfo(
    identifier: string,
    isSeekable: bool,
    author: string,
    length: nat,
    isStream: bool,
    position: nat,
    title: string,
    uri: string)

  /** A Lavalink track: the node's opaque encoded `track` plus its `info`. */
  datatype LavaTrack = LavaTrack(track: string, info: TrackInfo)

  /** The client options the resolver consults. */
  datatype Options = Options(
    playlistPageLimit: nat,
    audioOnlyResults: bool,
    useSpotifyMetadata: bool)

  /** What a `/loadtracks` request yields: the candidate tracks of the body,
      or a failure (the request threw or the body had no `tracks`). */
  datatype SearchOutcome = Failed | Loaded(tracks: seq<LavaTrack>)

  /** The oracle standing for the Lavalink node: the outcome of searching a
      query string. */
  type Search = string -> SearchOutcome

  /** The resolution cache, keyed by Spotify track id. */
  type Cache = map<string, LavaTrack>
}
