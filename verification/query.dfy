/**
 The two pieces of string work `resolve` does on a cache miss: building the
 Lavalink search identifier from a Spotify track, and overwriting a found
 track's display fields with the Spotify metadata.
 */
module Query {
  import opened Types

  /** Asks the node for a YouTube search rather than a direct lookup. */
  const SearchPrefix: string := "ytsearch:"

  /** Appended when `audioOnlyResults` is set. */
  const AudioOnlyFilter: string := "description:(\"Auto-generated by YouTube.\")"

  /** What `Array.prototype.join` puts between artist names in the author. */
  const ArtistSeparator: string := ", "

  /** The search-mode suffix: the filter, or nothing. */
  function Filter(audioOnly: bool): string {
    if audioOnly then AudioOnlyFilter else ""
  }

  /** Sum of the lengths of the parts. */
  function TotalLength(parts: seq<string>): nat {
    if |parts| == 0 then 0 else |parts[0]| + TotalLength(parts[1..])
  }

  /** `parts.join(sep)`: the parts in order with `sep` between neighbours. */
  function Join(parts: seq<string>, sep: string): (r: string)
    ensures |parts| == 0 ==> r == ""
    ensures |parts| > 0 ==> parts[0] <= r
    ensures |parts| > 0 ==> |r| == TotalLength(parts) + |sep| * (|parts| - 1)
  {
    if |parts| == 0 then ""
    else if |parts| == 1 then parts[0]
    else parts[0] + sep + Join(parts[1..], sep)
  }

  /** Joining a concatenation joins the halves with one more separator. */
  lemma {:induction false} JoinAppend(a: seq<string>, b: seq<string>, sep: string)
    requires |a| > 0 && |b| > 0
    ensures Join(a + b, sep) == Join(a, sep) + sep + Join(b, sep)
    decreases |a|
  {
    if |a| == 1 {
      assert (a + b)[1..] == b;
    } else {
      assert (a + b)[1..] == a[1..] + b;
      JoinAppend(a[1..], b, sep);
    }
  }

  /** `artists.map(artist => artist.name)`. */
  function ArtistNames(artists: seq<Artist>): (names: seq<string>)
    ensures |names| == |artists|
    ensures forall i :: 0 <= i < |artists| ==> names[i] == artists[i].name
  {
    seq(|artists|, i requires 0 <= i < |artists| => artists[i].name)
  }

  /** The author written into a track when Spotify metadata is used: every
      artist name, in order, separated by ", ". */
  function AuthorOf(t: SpotifyTrack): string {
    Join(ArtistNames(t.artists), ArtistSeparator)
  }

  /** The search identifier for a given first artist and title. The space
      before the filter is emitted whether or not the filter is. */
  function QueryFor(artist: string, title: string, audioOnly: bool): (q: string)
    ensures SearchPrefix + artist + " - " <= q
    ensures |q| >= 1 + |Filter(audioOnly)| && q[|q| - 1 - |Filter(audioOnly)|..] == " " + Filter(audioOnly)
    ensures ParseQuery(q, artist, audioOnly) == Some(title)
  {
    var q := SearchPrefix + artist + " - " + title + " " + Filter(audioOnly);
    ParseQueryFor(artist, title, audioOnly);
    q
  }

  /** The identifier `resolve` sends for a track. Reading `artists[0].name`
      throws when the track has no artist, which the surrounding `try`
      turns into no query at all. */
  function SearchQuery(t: SpotifyTrack, audioOnly: bool): (q: Option<string>)
    ensures q.None? <==> |t.artists| == 0
    ensures q.Some? ==> SearchPrefix + t.artists[0].name + " - " <= q.value
    ensures q.Some? ==> |q.value| == 13 + |t.artists[0].name| + |t.name| + |Filter(audioOnly)|
    ensures q.Some? ==> ParseQuery(q.value, t.artists[0].name, audioOnly) == Some(t.name)
  {
    if |t.artists| == 0 then None
    else Some(QueryFor(t.artists[0].name, t.name, audioOnly))
  }

  /** Only the first artist and the title enter the query: tracks that agree
      on those two get the same query whatever their other artists are. */
  lemma SearchQueryUsesFirstArtistOnly(t: SpotifyTrack, u: SpotifyTrack, audioOnly: bool)
    requires |t.artists| > 0 && |u.artists| > 0
    requires t.artists[0].name == u.artists[0].name && t.name == u.name
    ensures SearchQuery(t, audioOnly) == SearchQuery(u, audioOnly)
  {
  }

  /** Reads the title back out of a search identifier made for `artist`
      under the given filter setting; `None` if `q` does not have that shape. */
  function ParseQuery(q: string, artist: string, audioOnly: bool): Option<string> {
    var head := SearchPrefix + artist + " - ";
    var tail := " " + Filter(audioOnly);
    if |head| + |tail| <= |q| && head <= q && q[|q| - |tail|..] == tail
    then Some(q[|head|..|q| - |tail|])
    else None
  }

  /** The title round-trips through the identifier template. */
  lemma ParseQueryFor(artist: string, title: string, audioOnly: bool)
    ensures ParseQuery(SearchPrefix + artist + " - " + title + " " + Filter(audioOnly), artist, audioOnly) == Some(title)
  {
    var head := SearchPrefix + artist + " - ";
    var tail := " " + Filter(audioOnly);
    var q := SearchPrefix + artist + " - " + title + " " + Filter(audioOnly);
    assert q == head + title + tail;
    assert q[..|head|] == head;
    assert q[|q| - |tail|..] == tail;
    assert q[|head|..|q| - |tail|] == title;
  }

  /** Every identifier the parser accepts is the one built from what it
      returns, so distinct titles give distinct identifiers. */
  lemma ParseQuerySound(q: string, artist: string, audioOnly: bool)
    requires ParseQuery(q, artist, audioOnly).Some?
    ensures q == QueryFor(artist, ParseQuery(q, artist, audioOnly).value, audioOnly)
  {
    var head := SearchPrefix + artist + " - ";
    var tail := " " + Filter(audioOnly);
    var title := q[|head|..|q| - |tail|];
    assert q == q[..|head|] + title + q[|q| - |tail|..];
  }

  /** The two Lavalink track infos agree on everything the metadata merge
      leaves alone. */
  predicate SamePlayback(a: TrackInfo, b: TrackInfo) {
    && a.identifier == b.identifier
    && a.isSeekable == b.isSeekable
    && a.length == b.length
    && a.isStream == b.isStream
    && a.position == b.position
  }

  /** `Object.assign(lavaTrack.info, {title, author, uri})` with the Spotify
      track's name, joined artist names and Spotify URL. */
  function MergeMetadata(candidate: LavaTrack, t: SpotifyTrack): (r: LavaTrack)
    ensures r.info.title == t.name
    ensures r.info.author == AuthorOf(t)
    ensures r.info.uri == t.spotifyUrl
    ensures r.track == candidate.track && SamePlayback(r.info, candidate.info)
  {
    candidate.(info := candidate.info.(title := t.name, author := AuthorOf(t), uri := t.spotifyUrl))
  }

  /** The merged track depends on the candidate only through the fields the
      merge keeps: the search backend's own title, author and uri are lost. */
  lemma MergeMetadataForgetsDisplay(a: LavaTrack, b: LavaTrack, t: SpotifyTrack)
    ensures MergeMetadata(a, t) == MergeMetadata(b, t)
        <==> a.track == b.track && SamePlayback(a.info, b.info)
  {
  }
}
