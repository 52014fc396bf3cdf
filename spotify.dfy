/** Spotify metadata as the plugin reads it: track records, the search query
    built from each track, and the offset/limit pages of a long list. */
module Spotify {
  import opened Common

  /** A track record: its `type` field, its `name`, and the `name` of each of
      its artists, in order. */
  datatype Track = Track(kind: string, name: string, artists: seq<string>)

  /** The query searched for a track: `${name} ${artists.map(a => a.name).join(" ")}`. */
  function Query(t: Track): (q: string)
    ensures q != ""
    ensures StartsWith(q, t.name + " ")
  {
    t.name + " " + JoinSpace(t.artists)
  }

  /** The list path of `play`: one query per record whose `type` is "track",
      in list order; other records are dropped. */
  function Queries(ts: seq<Track>): (qs: seq<string>)
    ensures |qs| <= |ts|
    ensures forall i :: 0 <= i < |qs| ==> qs[i] != ""
    decreases |ts|
  {
    if ts == [] then []
    else (if ts[0].kind == "track" then [Query(ts[0])] else []) + Queries(ts[1..])
  }

  lemma {:induction false} QueriesAppend(a: seq<Track>, b: seq<Track>)
    ensures Queries(a + b) == Queries(a) + Queries(b)
    decreases |a|
  {
    if a == [] {
      assert a + b == b;
    } else {
      assert (a + b)[1..] == a[1..] + b;
      QueriesAppend(a[1..], b);
    }
  }

  /** When every record is a track, the queries are exactly one per track, in
      the input order. */
  lemma {:induction false} QueriesOnePerTrack(ts: seq<Track>)
    requires forall i :: 0 <= i < |ts| ==> ts[i].kind == "track"
    ensures |Queries(ts)| == |ts|
    ensures forall i :: 0 <= i < |ts| ==> Queries(ts)[i] == Query(ts[i])
    decreases |ts|
  {
    if ts != [] {
      QueriesOnePerTrack(ts[1..]);
    }
  }

  /** A record that is not a track contributes no query. */
  lemma {:induction false} QueriesSkipNonTrack(a: seq<Track>, t: Track, b: seq<Track>)
    requires t.kind != "track"
    ensures Queries(a + [t] + b) == Queries(a) + Queries(b)
  {
    QueriesAppend(a + [t], b);
    QueriesAppend(a, [t]);
    assert Queries([t]) == [] + Queries([t][1..]);
  }

  /** `tracks.filter(t => t?.type === "track")` over records some of which
      may be null. */
  function OnlyTracks(ts: seq<Option<Track>>): (r: seq<Track>)
    ensures |r| <= |ts|
    ensures forall t :: t in r <==> Some(t) in ts && t.kind == "track"
    decreases |ts|
  {
    if ts == [] then []
    else
      var rest := OnlyTracks(ts[1..]);
      assert forall x :: x in ts <==> x == ts[0] || x in ts[1..];
      if ts[0].Some? && ts[0].value.kind == "track" then [ts[0].value] + rest else rest
  }

  lemma {:induction false} OnlyTracksAppend(a: seq<Option<Track>>, b: seq<Option<Track>>)
    ensures OnlyTracks(a + b) == OnlyTracks(a) + OnlyTracks(b)
    decreases |a|
  {
    if a == [] {
      assert a + b == b;
    } else {
      assert (a + b)[1..] == a[1..] + b;
      OnlyTracksAppend(a[1..], b);
    }
  }

  /** A record of a raw list: a playlist entry wrapping a track (or wrapping
      null, for a removed track), or a bare track record. */
  datatype RawItem = Wrapped(inner: Option<Track>) | Bare(item: Track)

  /** `item.track || item`: the wrapped track, else the item itself, which is
      not a track record when it is a wrapper around null. */
  function Resolve(i: RawItem): Option<Track>
  {
    match i
    case Wrapped(inner) => inner
    case Bare(t) => Some(t)
  }

  function Resolved(items: seq<RawItem>): (r: seq<Track>)
    ensures |r| <= |items|
    decreases |items|
  {
    if items == [] then []
    else (if Resolve(items[0]).Some? then [Resolve(items[0]).value] else []) + Resolved(items[1..])
  }

  /** The older variants' query list: `item.track || item`, keep only track
      records, one query each, in order. */
  function RawQueries(items: seq<RawItem>): (qs: seq<string>)
    ensures |qs| <= |items|
    ensures forall i :: 0 <= i < |qs| ==> qs[i] != ""
  {
    Queries(Resolved(items))
  }

  /** On bare track records the older variants build the same queries as the
      current one. */
  lemma {:induction false} RawQueriesOfBare(items: seq<RawItem>, ts: seq<Track>)
    requires |items| == |ts|
    requires forall i :: 0 <= i < |items| ==> items[i] == Bare(ts[i])
    ensures RawQueries(items) == Queries(ts)
    decreases |items|
  {
    if items != [] {
      RawQueriesOfBare(items[1..], ts[1..]);
      assert Resolved(items) == [ts[0]] + Resolved(items[1..]);
      assert ts == [ts[0]] + ts[1..];
      QueriesAppend([ts[0]], ts[1..]);
      QueriesAppend([ts[0]], Resolved(items[1..]));
    }
  }

  /** The `tracks` field of a list in the older variants: a bare array of
      records (no `items`), or the first page of the list. */
  datatype TracksField = PlainTracks(tracks: seq<RawItem>) | Paged(first: Page<RawItem>)

  /** `tracks.items || tracks` */
  function ListedItems(t: TracksField): (items: seq<RawItem>)
    ensures t.PlainTracks? ==> items == t.tracks
    ensures t.Paged? ==> items == t.first.items
  {
    match t
    case PlainTracks(ts) => ts
    case Paged(first) => first.items
  }

  /** One page of an offset/limit list as the upstream returns it. */
  datatype Page<T> = Page(items: seq<T>, offset: int, limit: int, next: bool)

  /** The offset the next page is asked for: `prev.offset + prev.limit`. */
  function NextOffset<T>(p: Page<T>): int
  {
    p.offset + p.limit
  }

  /** The upstream's later answers end the list: following `next` from `page`
      reaches a page without `next`, or a failed request, within the script. */
  predicate EndsAfter<T>(page: Page<T>, later: seq<Result<Page<T>, Failure>>)
    decreases |later|
  {
    !page.next || (|later| > 0 && (later[0].Err? || EndsAfter(later[0].value, later[1..])))
  }
}
