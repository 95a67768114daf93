/**
 Page-limited loading of a playlist's track listing. The playlist object
 carries the first page; every further page is one request to the previous
 page's `next` cursor. A configured limit of 0 means no limit.

 A listing is modelled as the first page's items plus the later pages in
 order, each either the items the request returned or `None` when the
 request was rejected. A page has a `next` cursor exactly when a later page
 follows it.
 */
module Pagination {
  import opened Types

  /** A page limit: a finite page count, or `Infinity`. */
  datatype Limit = Finite(pages: nat) | Infinite

  /** `page < limit`, with every page below `Infinity`. */
  predicate Below(page: nat, limit: Limit) {
    limit.Infinite? || page < limit.pages
  }

  /** The `playlistPageLimit` getter: a configured 0 becomes `Infinity`, any
      other value is the limit itself. */
  function PlaylistPageLimit(configured: nat): (l: Limit)
    ensures l.Infinite? <==> configured == 0
    ensures forall page: nat :: Below(page, l) <==> configured == 0 || page < configured
  {
    if configured == 0 then Infinite else Finite(configured)
  }

  /** What loading a listing gives: the items, or `None` when a page request
      was rejected, and the number of page requests made. */
  datatype Paged<T> = Paged(items: Option<seq<T>>, requests: nat)

  /** `getPlaylistTracks(playlist, currPage)`: `items` are the items gathered
      so far, `later` the pages after the one whose `next` cursor is being
      followed, `currPage` the number of pages gathered. */
  function PlaylistTracks<T>(items: seq<T>, later: seq<Option<seq<T>>>, currPage: nat, limit: Limit): (r: Paged<T>)
    ensures r.requests <= |later|
    ensures r.items.Some? ==> items <= r.items.value
    ensures r.items.None? ==> exists i :: 0 <= i < r.requests && later[i].None?
    decreases |later|
  {
    if |later| == 0 || !Below(currPage, limit) then Paged(Some(items), 0)
    else
      match later[0]
      case None => Paged(None, 1)
      case Some(page) =>
        var merged := items + page;
        var next := currPage + 1;
        if |later| > 1 && Below(next, limit) then
          var rest := PlaylistTracks(merged, later[1..], next, limit);
          Paged(rest.items, rest.requests + 1)
        else
          Paged(Some(merged), 1)
  }

  /** The public entry point: pagination starts on page 1, the playlist's own.
      The first page always leads the result, and a rejection is always one
      of the requests actually made. */
  function GetPlaylistTracks<T>(first: seq<T>, later: seq<Option<seq<T>>>, configuredLimit: nat): (r: Paged<T>)
    ensures r.requests <= |later|
    ensures r.items.Some? ==> first <= r.items.value
    ensures r.items.None? ==> exists i :: 0 <= i < r.requests && later[i].None?
  {
    PlaylistTracks(first, later, 1, PlaylistPageLimit(configuredLimit))
  }

  /** The concatenation of a sequence of pages, a rejected page adding nothing. */
  function Flatten<T>(pages: seq<Option<seq<T>>>): seq<T> {
    if |pages| == 0 then []
    else (match pages[0] case Some(p) => p case None => []) + Flatten(pages[1..])
  }

  /** Every page request in `pages` succeeded. */
  predicate AllLoaded<T>(pages: seq<Option<seq<T>>>) {
    forall i :: 0 <= i < |pages| ==> pages[i].Some?
  }

  /** How many of `available` further pages are loaded once `currPage` pages
      are held: all of them without a limit, otherwise as many as keep the
      page count within the limit. */
  function Extra(currPage: nat, limit: Limit, available: nat): (k: nat)
    ensures k <= available
  {
    match limit
    case Infinite => available
    case Finite(n) => if currPage >= n then 0 else if n - currPage < available then n - currPage else available
  }

  /** The reference behaviour: the first `Extra` further pages are requested;
      if they all load, the result is the items held followed by those pages'
      items in order, and if any is rejected the whole load is rejected. */
  lemma {:induction false} PlaylistTracksLoadsPrefix<T>(items: seq<T>, later: seq<Option<seq<T>>>, currPage: nat, limit: Limit)
    ensures var k := Extra(currPage, limit, |later|);
      && PlaylistTracks(items, later, currPage, limit).items
         == (if AllLoaded(later[..k]) then Some(items + Flatten(later[..k])) else None)
      && (AllLoaded(later[..k]) ==> PlaylistTracks(items, later, currPage, limit).requests == k)
    decreases |later|
  {
    var k := Extra(currPage, limit, |later|);
    if |later| == 0 || !Below(currPage, limit) {
      assert k == 0;
      assert later[..k] == [];
      assert items + Flatten(later[..k]) == items;
    } else {
      assert k >= 1;
      assert later[..k][0] == later[0];
      match later[0]
      case None =>
        assert !AllLoaded(later[..k]);
      case Some(page) =>
        var next := currPage + 1;
        var tail := later[1..];
        assert later[..k][1..] == tail[..k - 1];
        assert Flatten(later[..k]) == page + Flatten(tail[..k - 1]);
        var held, rest := later[..k], tail[..k - 1];
        assert AllLoaded(held) <==> AllLoaded(rest) by {
          if AllLoaded(rest) {
            forall i | 0 <= i < |held|
              ensures held[i].Some?
            {
              if i > 0 { assert held[i] == rest[i - 1]; }
            }
          }
          if AllLoaded(held) {
            forall i | 0 <= i < |rest|
              ensures rest[i].Some?
            {
              assert rest[i] == held[i + 1];
            }
          }
        }
        if |later| > 1 && Below(next, limit) {
          assert Extra(next, limit, |tail|) == k - 1;
          PlaylistTracksLoadsPrefix(items + page, tail, next, limit);
          assert items + page + Flatten(tail[..k - 1]) == items + (page + Flatten(tail[..k - 1]));
        } else {
          assert k == 1;
          assert Flatten(tail[..0]) == [];
          assert Flatten(later[..k]) == page;
        }
    }
  }

  /** A rejected page ends the load: the last request made is the rejected
      one, every page requested before it loaded, and no page after it is
      requested. */
  lemma {:induction false} PlaylistTracksStopsAtRejection<T>(items: seq<T>, later: seq<Option<seq<T>>>, currPage: nat, limit: Limit)
    ensures var r := PlaylistTracks(items, later, currPage, limit);
      r.items.None? ==>
        && 1 <= r.requests <= Extra(currPage, limit, |later|)
        && later[r.requests - 1].None?
        && AllLoaded(later[..r.requests - 1])
    decreases |later|
  {
    var r := PlaylistTracks(items, later, currPage, limit);
    if |later| > 0 && Below(currPage, limit) && later[0].Some? {
      var next := currPage + 1;
      var tail := later[1..];
      if |later| > 1 && Below(next, limit) {
        PlaylistTracksStopsAtRejection(items + later[0].value, tail, next, limit);
        var rest := PlaylistTracks(items + later[0].value, tail, next, limit);
        if r.items.None? {
          assert r.requests == rest.requests + 1;
          assert later[r.requests - 1] == tail[rest.requests - 1];
          var held, done := later[..r.requests - 1], tail[..rest.requests - 1];
          forall i | 0 <= i < |held|
            ensures held[i].Some?
          {
            if i > 0 { assert held[i] == done[i - 1]; }
          }
        }
      }
    }
  }

  /** The number of pages a configured limit lets through when `total`
      pages exist: all of them for 0, otherwise the smaller of the two. */
  function PagesLoaded(configuredLimit: nat, total: nat): nat {
    if configuredLimit == 0 || total <= configuredLimit then total else configuredLimit
  }

  /** Loading a playlist gives exactly the items of its first
      `min(limit, pages)` pages in listing order, with one request per page
      after the first, or a rejection if one of those requests fails. */
  lemma GetPlaylistTracksLoadsFirstPages<T>(first: seq<T>, later: seq<Option<seq<T>>>, configuredLimit: nat)
    ensures var m := PagesLoaded(configuredLimit, 1 + |later|);
      && GetPlaylistTracks(first, later, configuredLimit).items
         == (if AllLoaded(later[..m - 1]) then Some(first + Flatten(later[..m - 1])) else None)
      && (AllLoaded(later[..m - 1]) ==> GetPlaylistTracks(first, later, configuredLimit).requests == m - 1)
    ensures var r := GetPlaylistTracks(first, later, configuredLimit);
      r.items.None? ==>
        && 1 <= r.requests <= PagesLoaded(configuredLimit, 1 + |later|) - 1
        && later[r.requests - 1].None?
        && AllLoaded(later[..r.requests - 1])
  {
    var m := PagesLoaded(configuredLimit, 1 + |later|);
    assert Extra(1, PlaylistPageLimit(configuredLimit), |later|) == m - 1;
    PlaylistTracksLoadsPrefix(first, later, 1, PlaylistPageLimit(configuredLimit));
    PlaylistTracksStopsAtRejection(first, later, 1, PlaylistPageLimit(configuredLimit));
  }

  /** With no `next` cursor on the first page, or a limit of one page, the
      first page's items come back unchanged and nothing is requested. */
  lemma FirstPageOnly<T>(first: seq<T>, later: seq<Option<seq<T>>>, configuredLimit: nat)
    requires |later| == 0 || configuredLimit == 1
    ensures GetPlaylistTracks(first, later, configuredLimit) == Paged(Some(first), 0)
  {
  }

  /** A limit of 2 over three pages yields pages one and two from a single
      request even though a further cursor exists; a limit of 0 yields all
      three from two requests. */
  lemma TwoOfThreePages<T>(p1: seq<T>, p2: seq<T>, p3: seq<T>)
    ensures GetPlaylistTracks(p1, [Some(p2), Some(p3)], 2) == Paged(Some(p1 + p2), 1)
    ensures GetPlaylistTracks(p1, [Some(p2), Some(p3)], 0) == Paged(Some(p1 + p2 + p3), 2)
  {
    var later := [Some(p2), Some(p3)];
    assert later[1..] == [Some(p3)];
    assert GetPlaylistTracks(p1, later, 0) == PlaylistTracks(p1 + p2, [Some(p3)], 2, Infinite).(requests := 2);
  }
}
