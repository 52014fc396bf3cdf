/** The oldest plugin, index.js: constructor defaults, `resolvePlaylist`,
    and `play` with a bounded first-song loop, a single queue creation and a
    background resolution that, in sequential mode, overwrites the query
    array in place. `validate` is `Validation.Validate`. */
module OldestPlugin {
  import opened Common
  import opened Js
  import opened Spotify
  import opened HostFramework
  import opened Pipeline
  import opened LegacyPlugin

  // ---------------------------------------------------------------------
  // Options
  // ---------------------------------------------------------------------

  /** `parallel` is the option when it is a boolean and true otherwise;
      `emitPlaySongAfterFetching` is the option's truthiness. Reading a field
      of `null` throws; an absent argument is `{}`. */
  function OldestOptions(options: JsValue): (r: Result<(bool, bool), Error>)
    ensures r.Err? <==> options.Null?
    ensures r.Err? ==> r.error == TypeError
    ensures r.Ok? ==> r.value.0 == (GetOptional(options, "parallel") != Bool(false))
    ensures r.Ok? ==> r.value.1 == Truthy(GetOptional(options, "emitPlaySongAfterFetching"))
  {
    var o := if options.Undefined? then Object(map[]) else options;
    match Get(o, "parallel")
    case Err(e) => Err(e)
    case Ok(parallel) =>
      var emit := GetOptional(o, "emitPlaySongAfterFetching");
      Ok((if TypeOf(parallel) == "boolean" then parallel.b else true, Truthy(emit)))
  }

  /** The constructed plugin's two flags. */
  class OldestSpotifyPlugin {
    const parallel: bool
    const emitPlaySongAfterFetching: bool

    constructor (parallel: bool, emitPlaySongAfterFetching: bool)
      ensures this.parallel == parallel && this.emitPlaySongAfterFetching == emitPlaySongAfterFetching
    {
      this.parallel := parallel;
      this.emitPlaySongAfterFetching := emitPlaySongAfterFetching;
    }
  }

  /** `new SpotifyPlugin(options)` of index.js. */
  method NewOldestPlugin(options: JsValue) returns (r: Result<OldestSpotifyPlugin, Error>)
    ensures r.Err? <==> OldestOptions(options).Err?
    ensures r.Err? ==> r.error == OldestOptions(options).error
    ensures r.Ok? ==> r.value.parallel == OldestOptions(options).value.0
    ensures r.Ok? ==> r.value.emitPlaySongAfterFetching == OldestOptions(options).value.1
  {
    var flags := OldestOptions(options);
    if flags.Err? {
      return Err(flags.error);
    }
    var plugin := new OldestSpotifyPlugin(flags.value.0, flags.value.1);
    r := Ok(plugin);
  }

  // ---------------------------------------------------------------------
  // resolvePlaylist
  // ---------------------------------------------------------------------

  /** What `spotify.getData` returns in index.js: a track, or a list with its
      name, image urls, `external_urls.spotify` and `tracks` field. */
  datatype OldestData =
    | OldestTrack(track: Track)
    | OldestList(name: string, images: seq<string>, spotifyUrl: Option<string>, tracks: TracksField)

  /** The playlist `resolvePlaylist` builds; its songs start as the queries. */
  datatype ResolvedPlaylist = ResolvedPlaylist(name: string, thumbnail: string, url: string, queries: seq<string>)

  function EmptyListError(name: string): Error
  {
    PlainError("[SpotifyPlugin] `" + name + "` does not contains any tracks.")
  }

  /** `resolvePlaylist(data)`: the queries of the listed items, refused when
      there are none; a list without images fails on `images[0].url`. */
  function ResolvePlaylist(name: string, images: seq<string>, spotifyUrl: Option<string>, tracks: TracksField)
    : (r: Result<ResolvedPlaylist, Error>)
    ensures r.Ok? <==> RawQueries(ListedItems(tracks)) != [] && images != []
    ensures RawQueries(ListedItems(tracks)) == [] ==> r == Err(EmptyListError(name))
    ensures RawQueries(ListedItems(tracks)) != [] && images == [] ==> r == Err(TypeError)
    ensures r.Ok? ==> && r.value.queries == RawQueries(ListedItems(tracks))
                      && r.value.name == name && r.value.thumbnail == images[0]
                      && r.value.url == (if spotifyUrl.Some? then spotifyUrl.value else "")
  {
    var songs := RawQueries(ListedItems(tracks));
    if |songs| == 0 then Err(EmptyListError(name))
    else if images == [] then Err(TypeError)
    else
      var url := if spotifyUrl.Some? && spotifyUrl.value != "" then spotifyUrl.value else "";
      Ok(ResolvedPlaylist(name, images[0], url, songs))
  }

  /** A list whose wrapped entries are all removed tracks is refused. */
  lemma RemovedTracksOnly(name: string, images: seq<string>, url: Option<string>, n: nat)
    ensures var items := seq(n, _ => Wrapped(None));
      ResolvePlaylist(name, images, url, PlainTracks(items)) == Err(EmptyListError(name))
  {
    var items: seq<RawItem> := seq(n, _ => Wrapped(None));
    AllRemovedResolveToNothing(items);
  }

  lemma {:induction false} AllRemovedResolveToNothing(items: seq<RawItem>)
    requires forall i :: 0 <= i < |items| ==> items[i] == Wrapped(None)
    ensures Resolved(items) == []
    decreases |items|
  {
    if items != [] {
      AllRemovedResolveToNothing(items[1..]);
    }
  }

  // ---------------------------------------------------------------------
  // The bounded first-song loop
  // ---------------------------------------------------------------------

  /** The index of the first query the search finds, if any. */
  function FirstFound(qs: seq<string>, search: Search): (r: Option<nat>)
    ensures r.None? <==> forall i :: 0 <= i < |qs| ==> search(qs[i]).None?
    ensures r.Some? ==> r.value < |qs| && search(qs[r.value]).Some?
    ensures r.Some? ==> forall i :: 0 <= i < r.value ==> search(qs[i]).None?
    decreases |qs|
  {
    if qs == [] then None
    else if search(qs[0]).Some? then Some(0)
    else
      var tail := FirstFound(qs[1..], search);
      assert forall i :: 0 < i < |qs| ==> qs[i] == qs[1..][i - 1];
      if tail.None? then None else Some(tail.value + 1)
  }

  /** On non-empty queries, as `resolvePlaylist` produces them, this loop
      stops where the later versions' `getFirstSong` would. */
  lemma {:induction false} FirstFoundIsFirstHit(qs: seq<string>, search: Search)
    requires forall i :: 0 <= i < |qs| ==> qs[i] != ""
    ensures FirstFound(qs, search) == FirstHit(qs, search)
    decreases |qs|
  {
    if qs != [] && search(qs[0]).None? {
      assert forall i :: 0 <= i < |qs[1..]| ==> qs[1..][i] == qs[i + 1];
      FirstFoundIsFirstHit(qs[1..], search);
    }
  }

  /** `while (!firstSong && playlist.songs.length)`: shift a query, search
      it, and stop at the first hit or when the queries run out. */
  method FindFirstSongBounded(queries: seq<string>, search: Search) returns (song: Option<Song>, rest: seq<string>)
    ensures FirstFound(queries, search).None? ==> song.None? && rest == []
    ensures FirstFound(queries, search).Some? ==>
      var k := FirstFound(queries, search).value;
      song == Some(Song(search(queries[k]).value)) && rest == queries[k + 1..]
  {
    song := None;
    rest := queries;
    while song.None? && |rest| > 0
      invariant 0 <= |rest| <= |queries| && rest == queries[|queries| - |rest|..]
      invariant song.None? ==> forall i :: 0 <= i < |queries| - |rest| ==> search(queries[i]).None?
      invariant song.Some? ==> |queries| - |rest| > 0
      invariant song.Some? ==> var k := |queries| - |rest| - 1;
        && (forall i :: 0 <= i < k ==> search(queries[i]).None?)
        && search(queries[k]).Some? && song == Some(Song(search(queries[k]).value))
      decreases |rest|
    {
      var query := rest[0];
      rest := rest[1..];
      var result := search(query);
      if result.Some? {
        song := Some(Song(result.value));
      }
    }
    if song.Some? {
      var k := |queries| - |rest| - 1;
      var f := FirstFound(queries, search);
      assert f.Some? && f.value == k;
    }
  }

  // ---------------------------------------------------------------------
  // fetchTheRest
  // ---------------------------------------------------------------------

  /** An entry of `playlist.songs` while it is resolved in place: a query
      not yet searched, or the search's answer. */
  datatype Slot = Pending(query: string) | Searched(result: Option<SearchResult>)

  /** The answer a resolved entry holds (every entry is resolved when it is
      read). */
  function Answer(s: Slot): Option<SearchResult>
  {
    if s.Searched? then s.result else None
  }

  /** `for (const i in playlist.songs) playlist.songs[i] = await this.search(playlist.songs[i])` */
  method SearchEachInPlace(a: array<Slot>, ghost queries: seq<string>, search: Search)
    requires a.Length == |queries|
    requires forall j :: 0 <= j < a.Length ==> a[j] == Pending(queries[j])
    modifies a
    ensures forall j :: 0 <= j < a.Length ==> a[j] == Searched(SearchAll(queries, search)[j])
  {
    for i := 0 to a.Length
      invariant forall j :: 0 <= j < i ==> a[j] == Searched(search(queries[j]))
      invariant forall j :: i <= j < a.Length ==> a[j] == Pending(queries[j])
    {
      a[i] := Searched(search(a[i].query));
    }
  }

  /** The answers of the sequential mode: a fresh array holding the
      queries is resolved in place and read back. They agree with the
      parallel mode's `Promise.all`. */
  method SearchInPlace(queries: seq<string>, search: Search) returns (results: seq<Option<SearchResult>>)
    ensures results == SearchAll(queries, search)
  {
    var a := new Slot[|queries|](j requires 0 <= j < |queries| => Pending(queries[j]));
    SearchEachInPlace(a, queries, search);
    var slots := a[..];
    results := seq(|slots|, j requires 0 <= j < |slots| => Answer(slots[j]));
  }

  /** `fetchTheRest()`: when queries remain, resolve them (the songs are the
      hits in order) and insert them at `position`; then prepend the first
      song. Nothing remaining leaves the array empty, so the first song is
      listed once. */
  method FetchTheRestOnce(q: QueueId, fs: Song, queries: seq<string>, search: Search, parallel: bool,
                          position: int, host: Host)
    returns (songs: seq<Song>)
    modifies host
    ensures songs == [fs] + HitSongs(queries, search)
    ensures host.log == old(host.log) + FetchCalls(q, queries, search, position)
  {
    songs := [];
    if |queries| > 0 {
      var results: seq<Option<SearchResult>>;
      if parallel {
        results := SearchAll(queries, search);
      } else {
        results := SearchInPlace(queries, search);
      }
      songs := MakeSongs(FilterSome(results));
      ResolvedSongsAreHits(queries, search);
      host.Record(AddSongs(q, songs, position));
    }
    songs := [fs] + songs;
  }

  // ---------------------------------------------------------------------
  // The list path on values
  // ---------------------------------------------------------------------

  /** The rest of a list goes at 1 with `skip`, at 2 with `unshift`, else at
      the end; on an existing and on a new queue alike. */
  function OldestRestPosition(skip: bool, unshift: bool): (p: int)
    ensures skip ==> p == 1
    ensures !skip && unshift ==> p == 2
    ensures !skip && !unshift ==> p == -1
  {
    if skip then 1 else if unshift then 2 else -1
  }

  /** The outcome of the list path: the host calls and the playlist's
      songs; when the host answers the creation with its sentinel, no
      playlist is handed over and `songs` is empty. */
  function OldestListPlay(qs: seq<string>, search: Search, existing: Option<QueueId>, create: CreateResult,
                          skip: bool, unshift: bool, emitAfter: bool, noResult: Error): Result<Outcome, Error>
  {
    match FirstFound(qs, search)
    case None => Err(noResult)
    case Some(k) =>
      var fs := Song(search(qs[k]).value);
      var rest := qs[k + 1..];
      var songs := [fs] + HitSongs(rest, search);
      var position := OldestRestPosition(skip, unshift);
      match existing
      case Some(q) => Ok(Outcome(ExistingCalls(q, fs, rest, search, skip, unshift), songs))
      case None =>
        match create
        case AlreadyHandled => Ok(Outcome([CreateQueue(fs)], []))
        case Created(q) => Ok(Outcome([CreateQueue(fs)] + CreatedCalls(q, fs, rest, search, skip, unshift, emitAfter), songs))
  }

  /** The host calls on an existing queue: the first song, the skip, the
      rest of the songs, and the "addList" event unless skipping. */
  function ExistingCalls(q: QueueId, fs: Song, rest: seq<string>, search: Search, skip: bool, unshift: bool): seq<HostCall>
  {
    [AddSong(q, fs, if skip || unshift then 1 else -1)] + (if skip then [Skip(q)] else [])
    + FetchCalls(q, rest, search, OldestRestPosition(skip, unshift))
    + (if skip then [] else [EmitAddList(q, [fs] + HitSongs(rest, search))])
  }

  /** The host calls after the queue is created: the "playSong" event before
      or after the rest of the songs. */
  function CreatedCalls(q: QueueId, fs: Song, rest: seq<string>, search: Search, skip: bool, unshift: bool,
                        emitAfter: bool): seq<HostCall>
  {
    (if emitAfter then [] else [EmitPlaySong(q, fs)])
    + FetchCalls(q, rest, search, OldestRestPosition(skip, unshift))
    + (if emitAfter then [EmitPlaySong(q, fs)] else [])
  }

  /** "Cannot find any tracks" is raised exactly when no query has a hit. */
  lemma OldestFailsIffNoHit(qs: seq<string>, search: Search, existing: Option<QueueId>, create: CreateResult,
                            skip: bool, unshift: bool, emitAfter: bool, noResult: Error)
    ensures OldestListPlay(qs, search, existing, create, skip, unshift, emitAfter, noResult).Err?
            <==> forall i :: 0 <= i < |qs| ==> search(qs[i]).None?
    ensures OldestListPlay(qs, search, existing, create, skip, unshift, emitAfter, noResult).Err? ==>
            OldestListPlay(qs, search, existing, create, skip, unshift, emitAfter, noResult).error == noResult
  {
  }

  /** Up to and including the first found query, the only hit is the first
      song. */
  lemma HitSongsUpToFirstFound(qs: seq<string>, search: Search)
    requires FirstFound(qs, search).Some?
    ensures var k := FirstFound(qs, search).value;
      HitSongs(qs[..k + 1], search) == [Song(search(qs[k]).value)]
  {
    var k := FirstFound(qs, search).value;
    var before := qs[..k];
    PrefixSnoc(qs, k);
    assert forall i :: 0 <= i < |before| ==> before[i] == qs[i] && search(qs[i]).None?;
    NoHitsNoSongs(before, search);
    HitSongsAppend(before, [qs[k]], search);
    OneHit(qs[k], search);
  }

  /** Once a playlist is handed to the host, its songs are the song of every
      query with a hit, in list order, each once. */
  lemma OldestSongsAreAllHits(qs: seq<string>, search: Search, existing: Option<QueueId>, create: CreateResult,
                              skip: bool, unshift: bool, emitAfter: bool, noResult: Error)
    requires existing.Some? || create.Created?
    ensures var r := OldestListPlay(qs, search, existing, create, skip, unshift, emitAfter, noResult);
      r.Ok? ==> r.value.songs == HitSongs(qs, search)
  {
    var r := OldestListPlay(qs, search, existing, create, skip, unshift, emitAfter, noResult);
    if r.Ok? {
      var k := FirstFound(qs, search).value;
      assert qs == qs[..k + 1] + qs[k + 1..];
      HitSongsAppend(qs[..k + 1], qs[k + 1..], search);
      HitSongsUpToFirstFound(qs, search);
    }
  }

  /** When the host answers the creation with its sentinel, `play` returns
      after that one call: no event and no search of the rest. */
  lemma SentinelStopsPlay(qs: seq<string>, search: Search, skip: bool, unshift: bool, emitAfter: bool, noResult: Error)
    requires FirstFound(qs, search).Some?
    ensures var r := OldestListPlay(qs, search, None, AlreadyHandled, skip, unshift, emitAfter, noResult);
      r.Ok? && |r.value.calls| == 1 && r.value.calls[0].CreateQueue?
  {
  }

  /** How often each kind of call occurs on an existing queue. */
  lemma ExistingCallsTally(q: QueueId, fs: Song, rest: seq<string>, search: Search, skip: bool, unshift: bool, t: Tag)
    ensures Tally(ExistingCalls(q, fs, rest, search, skip, unshift), t)
            == (if t == AddSongTag then 1 else 0)
             + (if t == SkipTag && skip then 1 else 0)
             + (if t == AddSongsTag && rest != [] then 1 else 0)
             + (if t == AddListTag && !skip then 1 else 0)
  {
    var a: seq<HostCall> := [AddSong(q, fs, if skip || unshift then 1 else -1)];
    var b: seq<HostCall> := if skip then [Skip(q)] else [];
    var c := FetchCalls(q, rest, search, OldestRestPosition(skip, unshift));
    var d: seq<HostCall> := if skip then [] else [EmitAddList(q, [fs] + HitSongs(rest, search))];
    TallyFour(a, b, c, d, t);
    TallyOne(a[0], t);
    TallyOne(Skip(q), t);
    TallyOne(EmitAddList(q, [fs] + HitSongs(rest, search)), t);
    FetchCallsTally(q, rest, search, OldestRestPosition(skip, unshift), t);
  }

  /** How often each kind of call occurs after a queue is created. */
  lemma CreatedCallsTally(q: QueueId, fs: Song, rest: seq<string>, search: Search, skip: bool, unshift: bool,
                          emitAfter: bool, t: Tag)
    ensures Tally(CreatedCalls(q, fs, rest, search, skip, unshift, emitAfter), t)
            == (if t == PlaySongTag then 1 else 0) + (if t == AddSongsTag && rest != [] then 1 else 0)
  {
    var a: seq<HostCall> := if emitAfter then [] else [EmitPlaySong(q, fs)];
    var b := FetchCalls(q, rest, search, OldestRestPosition(skip, unshift));
    var c: seq<HostCall> := if emitAfter then [EmitPlaySong(q, fs)] else [];
    TallyAppend(a + b, c, t);
    TallyAppend(a, b, t);
    TallyOne(EmitPlaySong(q, fs), t);
    FetchCallsTally(q, rest, search, OldestRestPosition(skip, unshift), t);
  }

  /** On an existing queue, the list is announced once, last, with every
      song, unless the first song is skipped to, in which case it is not
      announced and the queue is skipped once. */
  lemma OldestExistingQueueEvents(qs: seq<string>, search: Search, q: QueueId, skip: bool, unshift: bool,
                                  emitAfter: bool, noResult: Error)
    ensures var r := OldestListPlay(qs, search, Some(q), AlreadyHandled, skip, unshift, emitAfter, noResult);
      r.Ok? ==>
        && Tally(r.value.calls, AddListTag) == (if skip then 0 else 1)
        && Tally(r.value.calls, SkipTag) == (if skip then 1 else 0)
        && Tally(r.value.calls, PlaySongTag) == 0
        && (!skip ==> r.value.calls[|r.value.calls| - 1] == EmitAddList(q, r.value.songs))
        && r.value.calls[0] == AddSong(q, r.value.songs[0], if skip || unshift then 1 else -1)
  {
    var r := OldestListPlay(qs, search, Some(q), AlreadyHandled, skip, unshift, emitAfter, noResult);
    if r.Ok? {
      var k := FirstFound(qs, search).value;
      var fs := Song(search(qs[k]).value);
      var rest := qs[k + 1..];
      assert r.value.calls == ExistingCalls(q, fs, rest, search, skip, unshift);
      ExistingCallsTally(q, fs, rest, search, skip, unshift, AddListTag);
      ExistingCallsTally(q, fs, rest, search, skip, unshift, SkipTag);
      ExistingCallsTally(q, fs, rest, search, skip, unshift, PlaySongTag);
    }
  }

  /** On a new queue the list is never announced, and the first song's
      `playSong` is emitted once: before the rest is searched, or last. */
  lemma OldestNewQueueEvents(qs: seq<string>, search: Search, q: QueueId, skip: bool, unshift: bool,
                             emitAfter: bool, noResult: Error)
    ensures var r := OldestListPlay(qs, search, None, Created(q), skip, unshift, emitAfter, noResult);
      r.Ok? ==>
        && Tally(r.value.calls, AddListTag) == 0
        && Tally(r.value.calls, PlaySongTag) == 1
        && Tally(r.value.calls, CreateTag) == 1
        && (emitAfter ==> r.value.calls[|r.value.calls| - 1] == EmitPlaySong(q, r.value.songs[0]))
        && (!emitAfter ==> r.value.calls[1] == EmitPlaySong(q, r.value.songs[0]))
  {
    var r := OldestListPlay(qs, search, None, Created(q), skip, unshift, emitAfter, noResult);
    if r.Ok? {
      var k := FirstFound(qs, search).value;
      var fs := Song(search(qs[k]).value);
      var rest := qs[k + 1..];
      var cs := CreatedCalls(q, fs, rest, search, skip, unshift, emitAfter);
      assert r.value.calls == [CreateQueue(fs)] + cs;
      forall t: Tag
        ensures Tally(r.value.calls, t) == (if t == CreateTag then 1 else 0) + Tally(cs, t)
      {
        TallyAppend([CreateQueue(fs)], cs, t);
        TallyOne(CreateQueue(fs), t);
      }
      CreatedCallsTally(q, fs, rest, search, skip, unshift, emitAfter, AddListTag);
      CreatedCallsTally(q, fs, rest, search, skip, unshift, emitAfter, PlaySongTag);
      CreatedCallsTally(q, fs, rest, search, skip, unshift, emitAfter, CreateTag);
    }
  }

  // ---------------------------------------------------------------------
  // play
  // ---------------------------------------------------------------------

  /** The list path of `play` of index.js, on an existing queue. */
  method PlayOnExistingOnce(q: QueueId, fs: Song, rest: seq<string>, search: Search, parallel: bool,
                            skip: bool, unshift: bool, host: Host)
    returns (songs: seq<Song>)
    modifies host
    ensures songs == [fs] + HitSongs(rest, search)
    ensures host.log == old(host.log) + ExistingCalls(q, fs, rest, search, skip, unshift)
  {
    ghost var a := [AddSong(q, fs, if skip || unshift then 1 else -1)];
    ghost var b := if skip then [Skip(q)] else [];
    ghost var c := FetchCalls(q, rest, search, OldestRestPosition(skip, unshift));
    host.Record(AddSong(q, fs, if skip || unshift then 1 else -1));
    if skip {
      host.Record(Skip(q));
    }
    assert host.log == old(host.log) + a + b;
    AppendTwice(old(host.log), a, b);
    songs := FetchTheRestOnce(q, fs, rest, search, parallel, OldestRestPosition(skip, unshift), host);
    AppendTwice(old(host.log), a + b, c);
    ghost var d := if skip then [] else [EmitAddList(q, songs)];
    if !skip {
      host.Record(EmitAddList(q, songs));
    }
    assert host.log == old(host.log) + (a + b + c) + d;
    AppendTwice(old(host.log), a + b + c, d);
  }

  /** The list path of `play` of index.js, on a queue just created. */
  method PlayOnCreatedOnce(q: QueueId, fs: Song, rest: seq<string>, search: Search, parallel: bool,
                           skip: bool, unshift: bool, emitAfter: bool, host: Host)
    returns (songs: seq<Song>)
    modifies host
    ensures songs == [fs] + HitSongs(rest, search)
    ensures host.log == old(host.log) + CreatedCalls(q, fs, rest, search, skip, unshift, emitAfter)
  {
    ghost var a := if emitAfter then [] else [EmitPlaySong(q, fs)];
    ghost var b := FetchCalls(q, rest, search, OldestRestPosition(skip, unshift));
    ghost var c := if emitAfter then [EmitPlaySong(q, fs)] else [];
    if !emitAfter {
      host.Record(EmitPlaySong(q, fs));
    }
    assert host.log == old(host.log) + a;
    songs := FetchTheRestOnce(q, fs, rest, search, parallel, OldestRestPosition(skip, unshift), host);
    AppendTwice(old(host.log), a, b);
    if emitAfter {
      host.Record(EmitPlaySong(q, fs));
    }
    assert host.log == old(host.log) + (a + b) + c;
    AppendTwice(old(host.log), a + b, c);
  }

  /** The list path of `play` of index.js once the playlist is resolved. */
  method PlayQueries(plugin: OldestSpotifyPlugin, queries: seq<string>, search: Search, existing: Option<QueueId>,
                     create: CreateResult, skip: bool, unshift: bool, noResult: Error, host: Host)
    returns (r: Result<seq<Song>, Error>)
    modifies host
    ensures var spec := OldestListPlay(queries, search, existing, create, skip, unshift,
                                       plugin.emitPlaySongAfterFetching, noResult);
      && (spec.Err? ==> r == Err(spec.error) && host.log == old(host.log))
      && (spec.Ok? ==> r == Ok(spec.value.songs) && host.log == old(host.log) + spec.value.calls)
  {
    var song, rest := FindFirstSongBounded(queries, search);
    if song.None? {
      return Err(noResult);
    }
    var fs := song.value;
    match existing {
      case Some(q) =>
        var songs := PlayOnExistingOnce(q, fs, rest, search, plugin.parallel, skip, unshift, host);
        r := Ok(songs);
      case None =>
        host.Record(CreateQueue(fs));
        if create.AlreadyHandled? {
          return Ok([]);
        }
        var songs := PlayOnCreatedOnce(create.queue, fs, rest, search, plugin.parallel, skip, unshift,
                                       plugin.emitPlaySongAfterFetching, host);
        AppendTwice(old(host.log), [CreateQueue(fs)],
                    CreatedCalls(create.queue, fs, rest, search, skip, unshift, plugin.emitPlaySongAfterFetching));
        r := Ok(songs);
    }
  }

  /** `play` of index.js after `spotify.getData(url)` resolved to `data`;
      `existing` is the channel's queue and `create` the host's answer to
      creating one. */
  method OldestPlay(plugin: OldestSpotifyPlugin, data: OldestData, search: Search, existing: Option<QueueId>,
                    create: CreateResult, skip: bool, unshift: bool, host: Host)
    returns (r: Result<seq<Song>, Error>)
    modifies host
    ensures data.OldestTrack? ==>
      && (search(Query(data.track)).None? ==> r == Err(LegacyNoResult(Query(data.track))) && host.log == old(host.log))
      && (search(Query(data.track)).Some? ==> r == Ok([]) && host.log == old(host.log) + [PlayOne(search(Query(data.track)).value)])
    ensures data.OldestList? ==>
      var list := ResolvePlaylist(data.name, data.images, data.spotifyUrl, data.tracks);
      && (list.Err? ==> r == Err(list.error) && host.log == old(host.log))
      && (list.Ok? ==>
            var spec := OldestListPlay(list.value.queries, search, existing, create, skip, unshift,
                                       plugin.emitPlaySongAfterFetching, LegacyNoTracks(data.name));
            && (spec.Err? ==> r == Err(spec.error) && host.log == old(host.log))
            && (spec.Ok? ==> r == Ok(spec.value.songs) && host.log == old(host.log) + spec.value.calls))
  {
    match data {
      case OldestTrack(t) =>
        var query := Query(t);
        var result := search(query);
        if result.None? {
          return Err(LegacyNoResult(query));
        }
        host.Record(PlayOne(result.value));
        r := Ok([]);
      case OldestList(name, images, spotifyUrl, tracks) =>
        var list := ResolvePlaylist(name, images, spotifyUrl, tracks);
        if list.Err? {
          return Err(list.error);
        }
        r := PlayQueries(plugin, list.value.queries, search, existing, create, skip, unshift,
                         LegacyNoTracks(list.value.name), host);
    }
  }
}
