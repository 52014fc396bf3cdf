/** The list path of `play` shared by src/index.ts (lines 97-161) and
    index.ts (lines 130-192): pick the first song by shifting queries off the
    front, insert it, create the queue if there is none (retrying while the
    host answers with its sentinel), resolve the remaining queries in the
    background and emit the playlist events. The two versions differ only
    in the queue positions and in their error texts, which come in through
    `ListEnv` and the error parameter.

    Searching is a total function from a query to an optional hit (the
    plugin's `search` swallows every failure into `null`). */
module Pipeline {
  import opened Common
  import opened HostFramework

  type Search = string -> Option<SearchResult>

  /** `getFirstSong` finds a hit for `q`: the query is truthy and the search
      returns a result. */
  predicate Hit(q: string, search: Search)
  {
    q != "" && search(q).Some?
  }

  /** The state `getFirstSong` works on: the queries not yet shifted and the
      current first song. */
  datatype FirstSongState = FirstSongState(rest: seq<string>, song: Option<Song>)

  /** One call of `getFirstSong`: shift a query; stop on an empty array or a
      falsy query; otherwise search it and, on a hit, replace the first song. */
  function GetFirstSong(st: FirstSongState, search: Search): (r: FirstSongState)
    ensures st.rest == [] ==> r == st
    ensures st.rest != [] ==> r.rest == st.rest[1..]
    ensures st.rest != [] && Hit(st.rest[0], search) ==> r.song == Some(Song(search(st.rest[0]).value))
    ensures st.rest != [] && !Hit(st.rest[0], search) ==> r.song == st.song
  {
    if st.rest == [] then st
    else if st.rest[0] == "" then st.(rest := st.rest[1..])
    else
      match search(st.rest[0])
      case None => st.(rest := st.rest[1..])
      case Some(result) => FirstSongState(st.rest[1..], Some(Song(result)))
  }

  /** The index of the first query with a hit, if any. */
  function FirstHit(qs: seq<string>, search: Search): (r: Option<nat>)
    ensures r.None? <==> forall i :: 0 <= i < |qs| ==> !Hit(qs[i], search)
    ensures r.Some? ==> r.value < |qs| && Hit(qs[r.value], search)
    ensures r.Some? ==> forall i :: 0 <= i < r.value ==> !Hit(qs[i], search)
    decreases |qs|
  {
    if qs == [] then None
    else if Hit(qs[0], search) then Some(0)
    else
      var tail := FirstHit(qs[1..], search);
      assert forall i :: 0 < i < |qs| ==> qs[i] == qs[1..][i - 1];
      if tail.None? then None else Some(tail.value + 1)
  }

  /** `n` calls of `getFirstSong`. */
  function GetFirstSongTimes(st: FirstSongState, search: Search, n: nat): FirstSongState
    decreases n
  {
    if n == 0 then st else GetFirstSongTimes(GetFirstSong(st, search), search, n - 1)
  }

  /** The loop `while (!firstSong) await getFirstSong()` as written: when no
      query has a hit, the first song is still unset after any number of
      iterations, so the loop never exits and the "Cannot find any tracks"
      error after it is never thrown. */
  lemma {:induction false} FirstSongLoopNeverExitsWithoutHit(qs: seq<string>, search: Search, n: nat)
    requires FirstHit(qs, search).None?
    ensures GetFirstSongTimes(FirstSongState(qs, None), search, n).song.None?
    decreases n
  {
    if n > 0 {
      var st := GetFirstSong(FirstSongState(qs, None), search);
      if qs != [] {
        assert !Hit(qs[0], search);
        assert forall i :: 0 <= i < |qs[1..]| ==> qs[1..][i] == qs[i + 1];
        FirstSongLoopNeverExitsWithoutHit(qs[1..], search, n - 1);
      } else {
        FirstSongLoopNeverExitsWithoutHit(qs, search, n - 1);
      }
    }
  }

  /** With a hit at index `k`, the as-written loop runs exactly `k + 1`
      iterations: the first song is unset before, and after them it is the
      hit of query `k` and the queries left are those after it. */
  lemma {:induction false} FirstSongLoopExitsAtFirstHit(qs: seq<string>, search: Search, n: nat)
    requires FirstHit(qs, search).Some?
    ensures var k := FirstHit(qs, search).value;
      && (n <= k ==> GetFirstSongTimes(FirstSongState(qs, None), search, n) == FirstSongState(qs[n..], None))
      && (n == k + 1 ==> GetFirstSongTimes(FirstSongState(qs, None), search, n)
                         == FirstSongState(qs[k + 1..], Some(Song(search(qs[k]).value))))
    decreases n
  {
    var k := FirstHit(qs, search).value;
    if n > 0 && n <= k + 1 {
      var st := GetFirstSong(FirstSongState(qs, None), search);
      if k == 0 {
        assert n == 1;
      } else {
        assert !Hit(qs[0], search);
        assert st == FirstSongState(qs[1..], None);
        var t := FirstHit(qs[1..], search);
        assert t == Some(k - 1) by {
          assert Hit(qs[1..][k - 1], search);
          assert forall i :: 0 <= i < k - 1 ==> qs[1..][i] == qs[i + 1];
        }
        FirstSongLoopExitsAtFirstHit(qs[1..], search, n - 1);
        assert qs[1..][n - 1..] == qs[n..];
        assert qs[1..][k..] == qs[k + 1..];
      }
    }
  }

  /** The first-song loop with the exhaustion check the source evidently
      intends: it also stops when the queries run out. On return the song is
      the hit of the first query that has one and `rest` holds exactly the
      queries after it; without any hit the song is unset and nothing is left. */
  method FindFirstSong(queries: seq<string>, search: Search) returns (song: Option<Song>, rest: seq<string>)
    ensures FirstHit(queries, search).None? ==> song.None? && rest == []
    ensures FirstHit(queries, search).Some? ==>
      var k := FirstHit(queries, search).value;
      song == Some(Song(search(queries[k]).value)) && rest == queries[k + 1..]
  {
    song, rest := None, queries;
    ghost var d := 0;
    while song.None? && rest != []
      invariant 0 <= d <= |queries| && rest == queries[d..]
      invariant song.None? ==> forall i :: 0 <= i < d ==> !Hit(queries[i], search)
      invariant song.Some? ==> 0 < d && FirstHit(queries, search) == Some(d - 1)
                               && song == Some(Song(search(queries[d - 1]).value))
      decreases |rest|
    {
      assert rest[0] == queries[d];
      var st := GetFirstSong(FirstSongState(rest, song), search);
      song, rest := st.song, st.rest;
      d := d + 1;
      assert rest == queries[d..];
      if song.Some? {
        assert Hit(queries[d - 1], search);
      }
    }
  }

  // ---------------------------------------------------------------------
  // Resolving the rest
  // ---------------------------------------------------------------------

  /** `Promise.all(queries.map(q => this.search(q)))`: one result per query,
      in query order. */
  function SearchAll(qs: seq<string>, search: Search): (rs: seq<Option<SearchResult>>)
    ensures |rs| == |qs|
    ensures forall i :: 0 <= i < |qs| ==> rs[i] == search(qs[i])
    decreases |qs|
  {
    if qs == [] then [] else [search(qs[0])] + SearchAll(qs[1..], search)
  }

  /** The sequential mode: `results[i] = await this.search(queries[i])` for
      each index in turn. It yields what the parallel mode yields. */
  method SearchSequentially(queries: seq<string>, search: Search) returns (results: seq<Option<SearchResult>>)
    ensures results == SearchAll(queries, search)
  {
    results := [];
    for i := 0 to |queries|
      invariant |results| == i
      invariant forall j :: 0 <= j < i ==> results[j] == search(queries[j])
    {
      results := results + [search(queries[i])];
    }
  }

  /** `results.filter(isTruthy)` */
  function FilterSome(rs: seq<Option<SearchResult>>): (r: seq<SearchResult>)
    ensures |r| <= |rs|
    ensures forall x :: x in r <==> Some(x) in rs
    decreases |rs|
  {
    if rs == [] then []
    else
      var rest := FilterSome(rs[1..]);
      assert forall x :: x in rs <==> x == rs[0] || x in rs[1..];
      (if rs[0].Some? then [rs[0].value] else []) + rest
  }

  /** `.map(r => new Song(r, ...))` */
  function MakeSongs(rs: seq<SearchResult>): (songs: seq<Song>)
    ensures |songs| == |rs|
    ensures forall i :: 0 <= i < |rs| ==> songs[i] == Song(rs[i])
    decreases |rs|
  {
    if rs == [] then [] else [Song(rs[0])] + MakeSongs(rs[1..])
  }

  /** A reference definition: the song of every query with a search result,
      in query order. */
  function HitSongs(qs: seq<string>, search: Search): seq<Song>
    decreases |qs|
  {
    if qs == [] then []
    else (if search(qs[0]).Some? then [Song(search(qs[0]).value)] else []) + HitSongs(qs[1..], search)
  }

  /** What the background resolution puts in `playlist.songs`: the hits of
      the queries, in order, misses dropped. */
  lemma {:induction false} ResolvedSongsAreHits(qs: seq<string>, search: Search)
    ensures MakeSongs(FilterSome(SearchAll(qs, search))) == HitSongs(qs, search)
    decreases |qs|
  {
    if qs != [] {
      ResolvedSongsAreHits(qs[1..], search);
      var all := SearchAll(qs, search);
      assert all[1..] == SearchAll(qs[1..], search);
      var rest := FilterSome(all[1..]);
      if all[0].Some? {
        assert FilterSome(all) == [all[0].value] + rest;
        assert MakeSongs([all[0].value] + rest)[1..] == MakeSongs(rest);
      } else {
        assert FilterSome(all) == rest;
      }
    }
  }

  lemma {:induction false} HitSongsAppend(a: seq<string>, b: seq<string>, search: Search)
    ensures HitSongs(a + b, search) == HitSongs(a, search) + HitSongs(b, search)
    decreases |a|
  {
    if a == [] {
      assert a + b == b;
    } else {
      var head: seq<Song> := if search(a[0]).Some? then [Song(search(a[0]).value)] else [];
      assert (a + b)[0] == a[0];
      assert (a + b)[1..] == a[1..] + b;
      assert HitSongs(a + b, search) == head + HitSongs(a[1..] + b, search);
      assert HitSongs(a, search) == head + HitSongs(a[1..], search);
      HitSongsAppend(a[1..], b, search);
      AppendTwice(head, HitSongs(a[1..], search), HitSongs(b, search));
    }
  }

  /** A single query with a hit yields exactly its song. */
  lemma OneHit(q: string, search: Search)
    requires search(q).Some?
    ensures HitSongs([q], search) == [Song(search(q).value)]
  {
    assert [q][1..] == [];
  }

  /** `playlist.songs` once `fetchTheRest(q, fs)` is done: `fs` in front of
      the hits of the remaining queries, or in front of the array it had when
      no query remains. */
  function FinalSongs(fs: Song, initial: seq<Song>, rest: seq<string>, search: Search): (songs: seq<Song>)
    ensures |songs| > 0 && songs[0] == fs
    ensures rest != [] ==> songs[1..] == HitSongs(rest, search)
    ensures rest == [] ==> songs[1..] == initial
  {
    [fs] + (if rest == [] then initial else HitSongs(rest, search))
  }

  /** The host calls `fetchTheRest` makes: one insertion of the resolved songs
      (possibly none of them) when queries remain, none otherwise. */
  function FetchCalls(q: QueueId, rest: seq<string>, search: Search, position: int): seq<HostCall>
  {
    if rest == [] then [] else [AddSongs(q, HitSongs(rest, search), position)]
  }

  lemma {:induction false} NoHitsNoSongs(qs: seq<string>, search: Search)
    requires forall i :: 0 <= i < |qs| ==> search(qs[i]).None?
    ensures HitSongs(qs, search) == []
    decreases |qs|
  {
    if qs != [] {
      NoHitsNoSongs(qs[1..], search);
    }
  }

  /** Up to and including the first hit, the only song is the first song. */
  lemma HitSongsUpToFirstHit(qs: seq<string>, search: Search)
    requires forall i :: 0 <= i < |qs| ==> qs[i] != ""
    requires FirstHit(qs, search).Some?
    ensures var k := FirstHit(qs, search).value;
      HitSongs(qs[..k + 1], search) == [Song(search(qs[k]).value)]
  {
    var k := FirstHit(qs, search).value;
    var before := qs[..k];
    PrefixSnoc(qs, k);
    forall i | 0 <= i < |before|
      ensures search(before[i]).None?
    {
      assert before[i] == qs[i] && qs[i] != "" && !Hit(qs[i], search);
    }
    NoHitsNoSongs(before, search);
    HitSongsAppend(before, [qs[k]], search);
    OneHit(qs[k], search);
  }

  /** When every query is a non-empty string and some query after the first
      hit remains, the final playlist lists the song of every query with a
      hit, in list order. */
  lemma FinalSongsAreAllHits(qs: seq<string>, search: Search)
    requires forall i :: 0 <= i < |qs| ==> qs[i] != ""
    requires FirstHit(qs, search).Some?
    requires FirstHit(qs, search).value + 1 < |qs|
    ensures var k := FirstHit(qs, search).value; var fs := Song(search(qs[k]).value);
      FinalSongs(fs, [fs], qs[k + 1..], search) == HitSongs(qs, search)
  {
    var k := FirstHit(qs, search).value;
    assert qs == qs[..k + 1] + qs[k + 1..];
    HitSongsAppend(qs[..k + 1], qs[k + 1..], search);
    HitSongsUpToFirstHit(qs, search);
  }

  /** When the first hit is the last query, the first song is prepended to a
      playlist that already holds it, so it appears twice. */
  lemma FirstSongTwiceWhenNothingRemains(fs: Song, search: Search)
    ensures FinalSongs(fs, [fs], [], search) == [fs, fs]
  {
  }

  /** `fetchTheRest(q, fs)`: resolve the remaining queries in parallel or one
      by one, replace `playlist.songs` by the hits, insert them at
      `position`, and prepend `fs`. */
  method FetchTheRest(q: QueueId, fs: Song, queries: seq<string>, search: Search, parallel: bool,
                      position: int, playlist: Playlist, host: Host)
    modifies playlist, host
    ensures playlist.songs == FinalSongs(fs, old(playlist.songs), queries, search)
    ensures host.log == old(host.log) + FetchCalls(q, queries, search, position)
  {
    if |queries| > 0 {
      var results: seq<Option<SearchResult>>;
      if parallel {
        results := SearchAll(queries, search);
      } else {
        results := SearchSequentially(queries, search);
      }
      playlist.songs := MakeSongs(FilterSome(results));
      ResolvedSongsAreHits(queries, search);
      host.Record(AddSongs(q, playlist.songs, position));
    }
    playlist.songs := [fs] + playlist.songs;
  }

  // ---------------------------------------------------------------------
  // Queue creation with retries
  // ---------------------------------------------------------------------

  /** The host's answers to successive queue creations end with a queue. */
  predicate HasCreated(creates: seq<CreateResult>)
    decreases |creates|
  {
    |creates| > 0 && (creates[0].Created? || HasCreated(creates[1..]))
  }

  /** Where the retry loop ends: the first song then, the queries left, the
      queue, and the creation calls made. */
  datatype Retried = Retried(song: Song, rest: seq<string>, queue: QueueId, calls: seq<HostCall>)

  /** Create the queue with the first song; while the host answers with its
      sentinel, call `getFirstSong` again (which may replace the song and
      shifts one query) and retry. */
  function Retry(fs: Song, rest: seq<string>, creates: seq<CreateResult>, search: Search): (r: Retried)
    requires HasCreated(creates)
    ensures |r.calls| > 0 && r.calls[0] == CreateQueue(fs)
    decreases |creates|
  {
    match creates[0]
    case Created(q) => Retried(fs, rest, q, [CreateQueue(fs)])
    case AlreadyHandled =>
      var st := GetFirstSong(FirstSongState(rest, Some(fs)), search);
      var r := Retry(st.song.value, st.rest, creates[1..], search);
      Retried(r.song, r.rest, r.queue, [CreateQueue(fs)] + r.calls)
  }

  /** The retry loop only creates queues, at least once, and each call only
      shortens the queries, to a suffix of them. */
  lemma {:induction false} RetryOnlyCreates(fs: Song, rest: seq<string>, creates: seq<CreateResult>, search: Search)
    requires HasCreated(creates)
    ensures var r := Retry(fs, rest, creates, search);
      && Tally(r.calls, CreateTag) == |r.calls|
      && (forall t :: t != CreateTag ==> Tally(r.calls, t) == 0)
      && |r.rest| <= |rest| && r.rest == rest[|rest| - |r.rest|..]
    decreases |creates|
  {
    var r := Retry(fs, rest, creates, search);
    if creates[0].AlreadyHandled? {
      var st := GetFirstSong(FirstSongState(rest, Some(fs)), search);
      RetryOnlyCreates(st.song.value, st.rest, creates[1..], search);
      var r1 := Retry(st.song.value, st.rest, creates[1..], search);
      TallyAppend([CreateQueue(fs)], r1.calls, CreateTag);
      forall t | t != CreateTag
        ensures Tally(r.calls, t) == 0
      {
        TallyAppend([CreateQueue(fs)], r1.calls, t);
      }
      if rest != [] {
        assert rest[1..][|rest[1..]| - |r1.rest|..] == rest[|rest| - |r.rest|..];
      }
    }
  }

  /** When the host creates the queue at once there is one creation call and
      the first song and queries are untouched. */
  lemma RetryCreatedAtOnce(fs: Song, rest: seq<string>, creates: seq<CreateResult>, search: Search)
    requires |creates| > 0 && creates[0].Created?
    ensures Retry(fs, rest, creates, search) == Retried(fs, rest, creates[0].queue, [CreateQueue(fs)])
  {
  }

  /** Retrying stops at the first answer that is a queue: with `j` sentinel
      answers before it, the queue is that answer's and there are `j + 1`
      creation calls. */
  lemma {:induction false} RetryEndsAtFirstCreated(fs: Song, rest: seq<string>, creates: seq<CreateResult>,
                                                   search: Search, j: nat)
    requires j < |creates| && creates[j].Created?
    requires forall i :: 0 <= i < j ==> creates[i].AlreadyHandled?
    ensures HasCreated(creates)
    ensures Retry(fs, rest, creates, search).queue == creates[j].queue
    ensures |Retry(fs, rest, creates, search).calls| == j + 1
    decreases j
  {
    if j > 0 {
      assert creates[0].AlreadyHandled?;
      var st := GetFirstSong(FirstSongState(rest, Some(fs)), search);
      assert forall i :: 0 <= i < j - 1 ==> creates[1..][i] == creates[i + 1];
      RetryEndsAtFirstCreated(st.song.value, st.rest, creates[1..], search, j - 1);
    }
  }

  method CreateQueueWithRetry(fs0: Song, rest0: seq<string>, creates: seq<CreateResult>, search: Search, host: Host)
    returns (fs: Song, rest: seq<string>, queue: QueueId)
    requires HasCreated(creates)
    modifies host
    ensures var r := Retry(fs0, rest0, creates, search);
      fs == r.song && rest == r.rest && queue == r.queue && host.log == old(host.log) + r.calls
  {
    fs, rest := fs0, rest0;
    var i := 0;
    ghost var before: seq<HostCall> := [];
    ghost var whole := Retry(fs0, rest0, creates, search);
    host.Record(CreateQueue(fs));
    while creates[i].AlreadyHandled?
      invariant 0 <= i < |creates| && HasCreated(creates[i..])
      invariant host.log == old(host.log) + before + [CreateQueue(fs)]
      invariant var cur := Retry(fs, rest, creates[i..], search);
        whole == Retried(cur.song, cur.rest, cur.queue, before + cur.calls)
      decreases |creates| - i
    {
      var st := GetFirstSong(FirstSongState(rest, Some(fs)), search);
      assert creates[i..][1..] == creates[i + 1..];
      AppendTwice(before, [CreateQueue(fs)], Retry(st.song.value, st.rest, creates[i + 1..], search).calls);
      AppendTwice(old(host.log), before, [CreateQueue(fs)]);
      before := before + [CreateQueue(fs)];
      fs, rest := st.song.value, st.rest;
      i := i + 1;
      host.Record(CreateQueue(fs));
    }
    queue := creates[i].queue;
  }

  // ---------------------------------------------------------------------
  // The whole list path
  // ---------------------------------------------------------------------

  /** How the host is set up for one `play` call and where this version puts
      songs: the existing queue of the voice channel, if any; the answers to
      queue creation; the `skip`, `emitEventsAfterFetching` and
      `emitAddListWhenCreatingQueue` settings; the first song's position,
      and the rest's positions on an existing and on a new queue. */
  datatype ListEnv = ListEnv(existing: Option<QueueId>, creates: seq<CreateResult>,
                             skip: bool, emitAfter: bool, addListOnCreate: bool,
                             firstPosition: int, restPositionExisting: int, restPositionNew: int)

  predicate ValidEnv(env: ListEnv)
  {
    env.existing.None? ==> HasCreated(env.creates)
  }

  /** The outcome of the list path: the host calls made, in order, and the
      playlist's songs in the end. */
  datatype Outcome = Outcome(calls: seq<HostCall>, songs: seq<Song>)

  function ExistingQueueCalls(q: QueueId, fs: Song, rest: seq<string>, search: Search, env: ListEnv): Outcome
  {
    var songs := FinalSongs(fs, [fs], rest, search);
    Outcome(
      [AddSong(q, fs, env.firstPosition)]
      + (if env.skip then [Skip(q)] else if !env.emitAfter then [EmitAddList(q, [fs])] else [])
      + FetchCalls(q, rest, search, env.restPositionExisting)
      + (if !env.skip && env.emitAfter then [EmitAddList(q, songs)] else []),
      songs)
  }

  function NewQueueCalls(fs0: Song, rest0: seq<string>, search: Search, env: ListEnv): Outcome
    requires HasCreated(env.creates)
  {
    var r := Retry(fs0, rest0, env.creates, search);
    var q := r.queue;
    var songs := FinalSongs(r.song, [fs0], r.rest, search);
    Outcome(
      r.calls
      + (if !env.emitAfter then CreationEvents(q, [fs0], r.song, env.addListOnCreate) else [])
      + FetchCalls(q, r.rest, search, env.restPositionNew)
      + (if env.emitAfter then CreationEvents(q, songs, r.song, env.addListOnCreate) else []),
      songs)
  }

  /** The list path on values, with the bounded first-song loop. */
  function ListPlay(qs: seq<string>, search: Search, env: ListEnv, noResult: Error): Result<Outcome, Error>
    requires ValidEnv(env)
  {
    match FirstHit(qs, search)
    case None => Err(noResult)
    case Some(k) =>
      var fs := Song(search(qs[k]).value);
      match env.existing
      case Some(q) => Ok(ExistingQueueCalls(q, fs, qs[k + 1..], search, env))
      case None => Ok(NewQueueCalls(fs, qs[k + 1..], search, env))
  }

  /** The play fails exactly when no query has a hit, with the given error. */
  lemma ListPlayFailsIffNoHit(qs: seq<string>, search: Search, env: ListEnv, noResult: Error)
    requires ValidEnv(env)
    ensures ListPlay(qs, search, env, noResult).Err? <==> forall i :: 0 <= i < |qs| ==> !Hit(qs[i], search)
    ensures ListPlay(qs, search, env, noResult).Err? ==> ListPlay(qs, search, env, noResult).error == noResult
  {
  }

  /** On an existing queue the first song goes in first, at the first
      position, and the rest, when any query remains, at the rest position. */
  lemma ExistingQueuePositions(qs: seq<string>, search: Search, env: ListEnv, noResult: Error)
    requires ValidEnv(env) && env.existing.Some?
    requires ListPlay(qs, search, env, noResult).Ok?
    ensures var o := ListPlay(qs, search, env, noResult).value;
      && o.calls[0].AddSong? && o.calls[0].position == env.firstPosition && o.calls[0].song == o.songs[0]
      && forall c :: c in o.calls && c.AddSongs? ==> c.position == env.restPositionExisting
  {
  }

  lemma FetchCallsTally(q: QueueId, rest: seq<string>, search: Search, position: int, t: Tag)
    ensures Tally(FetchCalls(q, rest, search, position), t) == if t == AddSongsTag && rest != [] then 1 else 0
  {
    if rest != [] {
      TallyOne(AddSongs(q, HitSongs(rest, search), position), t);
    }
  }

  lemma ExistingQueueTally(q: QueueId, fs: Song, rest: seq<string>, search: Search, env: ListEnv, t: Tag)
    ensures var calls := ExistingQueueCalls(q, fs, rest, search, env).calls;
      Tally(calls, t) == (if t == AddSongTag then 1 else 0)
                         + (if t == SkipTag && env.skip then 1 else 0)
                         + (if t == AddListTag && !env.skip then 1 else 0)
                         + (if t == AddSongsTag && rest != [] then 1 else 0)
  {
    var songs := FinalSongs(fs, [fs], rest, search);
    var head := [AddSong(q, fs, env.firstPosition)];
    var early: seq<HostCall> := if env.skip then [Skip(q)] else if !env.emitAfter then [EmitAddList(q, [fs])] else [];
    var extra := FetchCalls(q, rest, search, env.restPositionExisting);
    var late: seq<HostCall> := if !env.skip && env.emitAfter then [EmitAddList(q, songs)] else [];
    TallyFour(head, early, extra, late, t);
    TallyOne(AddSong(q, fs, env.firstPosition), t);
    if env.skip {
      TallyOne(Skip(q), t);
    } else if !env.emitAfter {
      TallyOne(EmitAddList(q, [fs]), t);
    } else {
      TallyOne(EmitAddList(q, songs), t);
    }
    FetchCallsTally(q, rest, search, env.restPositionExisting, t);
  }

  /** Existing queue with `skip`: one skip and no `addList` event. */
  lemma ExistingQueueSkipEvents(qs: seq<string>, search: Search, env: ListEnv, noResult: Error)
    requires ValidEnv(env) && env.existing.Some? && env.skip
    requires ListPlay(qs, search, env, noResult).Ok?
    ensures var calls := ListPlay(qs, search, env, noResult).value.calls;
      Tally(calls, SkipTag) == 1 && Tally(calls, AddListTag) == 0 && Tally(calls, AddSongTag) == 1
  {
    var k := FirstHit(qs, search).value;
    var q, fs, rest := env.existing.value, Song(search(qs[k]).value), qs[k + 1..];
    assert ListPlay(qs, search, env, noResult) == Ok(ExistingQueueCalls(q, fs, rest, search, env));
    ExistingQueueTally(q, fs, rest, search, env, SkipTag);
    ExistingQueueTally(q, fs, rest, search, env, AddListTag);
    ExistingQueueTally(q, fs, rest, search, env, AddSongTag);
  }

  /** Existing queue without `skip`: exactly one `addList` event, right after
      the insertion unless events are emitted after fetching, and last
      otherwise; no skip. */
  lemma ExistingQueueAddListOnce(qs: seq<string>, search: Search, env: ListEnv, noResult: Error)
    requires ValidEnv(env) && env.existing.Some? && !env.skip
    requires ListPlay(qs, search, env, noResult).Ok?
    ensures var calls := ListPlay(qs, search, env, noResult).value.calls;
      && Tally(calls, AddListTag) == 1 && Tally(calls, SkipTag) == 0
      && (!env.emitAfter ==> calls[1].EmitAddList?)
      && (env.emitAfter ==> calls[|calls| - 1].EmitAddList?)
  {
    var k := FirstHit(qs, search).value;
    var q, fs, rest := env.existing.value, Song(search(qs[k]).value), qs[k + 1..];
    assert ListPlay(qs, search, env, noResult) == Ok(ExistingQueueCalls(q, fs, rest, search, env));
    ExistingQueueTally(q, fs, rest, search, env, SkipTag);
    ExistingQueueTally(q, fs, rest, search, env, AddListTag);
  }

  /** The events around a new queue's fetch: `addList` if asked for, then
      `playSong`. */
  function CreationEvents(q: QueueId, list: seq<Song>, fs: Song, addList: bool): seq<HostCall>
  {
    (if addList then [EmitAddList(q, list)] else []) + [EmitPlaySong(q, fs)]
  }

  lemma CreationEventsTally(q: QueueId, list: seq<Song>, fs: Song, addList: bool, t: Tag)
    ensures Tally(CreationEvents(q, list, fs, addList), t)
            == (if t == PlaySongTag then 1 else 0) + (if t == AddListTag && addList then 1 else 0)
  {
    TallyOne(EmitPlaySong(q, fs), t);
    if addList {
      TallyOne(EmitAddList(q, list), t);
      TallyAppend([EmitAddList(q, list)], [EmitPlaySong(q, fs)], t);
    } else {
      assert CreationEvents(q, list, fs, addList) == [EmitPlaySong(q, fs)];
    }
  }

  lemma NewQueueTally(fs0: Song, rest0: seq<string>, search: Search, env: ListEnv, t: Tag)
    requires HasCreated(env.creates)
    ensures var calls := NewQueueCalls(fs0, rest0, search, env).calls;
      var r := Retry(fs0, rest0, env.creates, search);
      Tally(calls, t) == (if t == CreateTag then |r.calls| else 0)
                         + (if t == PlaySongTag then 1 else 0)
                         + (if t == AddListTag && env.addListOnCreate then 1 else 0)
                         + (if t == AddSongsTag && r.rest != [] then 1 else 0)
  {
    var r := Retry(fs0, rest0, env.creates, search);
    RetryOnlyCreates(fs0, rest0, env.creates, search);
    var q := r.queue;
    var songs := FinalSongs(r.song, [fs0], r.rest, search);
    var early := if !env.emitAfter then CreationEvents(q, [fs0], r.song, env.addListOnCreate) else [];
    var extra := FetchCalls(q, r.rest, search, env.restPositionNew);
    var late := if env.emitAfter then CreationEvents(q, songs, r.song, env.addListOnCreate) else [];
    assert NewQueueCalls(fs0, rest0, search, env).calls == r.calls + early + extra + late;
    TallyFour(r.calls, early, extra, late, t);
    FetchCallsTally(q, r.rest, search, env.restPositionNew, t);
    if env.emitAfter {
      CreationEventsTally(q, songs, r.song, env.addListOnCreate, t);
    } else {
      CreationEventsTally(q, [fs0], r.song, env.addListOnCreate, t);
    }
  }

  /** On a new queue there is one creation per sentinel answer of the host,
      plus the one that returns the queue, which the later calls use. */
  lemma NewQueueCreations(fs0: Song, rest0: seq<string>, search: Search, env: ListEnv, j: nat)
    requires j < |env.creates| && env.creates[j].Created?
    requires forall i :: 0 <= i < j ==> env.creates[i].AlreadyHandled?
    ensures HasCreated(env.creates)
    ensures Tally(NewQueueCalls(fs0, rest0, search, env).calls, CreateTag) == j + 1
    ensures Retry(fs0, rest0, env.creates, search).queue == env.creates[j].queue
  {
    RetryEndsAtFirstCreated(fs0, rest0, env.creates, search, j);
    NewQueueTally(fs0, rest0, search, env, CreateTag);
  }

  /** A new queue: creation is retried until the host returns a queue, then
      `playSong` is emitted exactly once and `addList` once exactly when the
      host asks for it on queue creation; no skip and no single insertion. */
  lemma NewQueueEvents(qs: seq<string>, search: Search, env: ListEnv, noResult: Error)
    requires ValidEnv(env) && env.existing.None?
    requires ListPlay(qs, search, env, noResult).Ok?
    ensures var calls := ListPlay(qs, search, env, noResult).value.calls;
      && Tally(calls, PlaySongTag) == 1
      && Tally(calls, AddListTag) == (if env.addListOnCreate then 1 else 0)
      && Tally(calls, SkipTag) == 0 && Tally(calls, AddSongTag) == 0
      && Tally(calls, CreateTag) >= 1 && calls[0].CreateQueue?
  {
    var k := FirstHit(qs, search).value;
    var fs0 := Song(search(qs[k]).value);
    NewQueueTally(fs0, qs[k + 1..], search, env, PlaySongTag);
    NewQueueTally(fs0, qs[k + 1..], search, env, AddListTag);
    NewQueueTally(fs0, qs[k + 1..], search, env, SkipTag);
    NewQueueTally(fs0, qs[k + 1..], search, env, AddSongTag);
    NewQueueTally(fs0, qs[k + 1..], search, env, CreateTag);
  }

  method PlayOnExisting(q: QueueId, fs: Song, queries: seq<string>, search: Search, parallel: bool,
                        env: ListEnv, host: Host) returns (songs: seq<Song>)
    modifies host
    ensures var o := ExistingQueueCalls(q, fs, queries, search, env);
      songs == o.songs && host.log == old(host.log) + o.calls
  {
    ghost var o := ExistingQueueCalls(q, fs, queries, search, env);
    ghost var a: seq<HostCall> := [AddSong(q, fs, env.firstPosition)];
    ghost var b: seq<HostCall> := if env.skip then [Skip(q)] else if !env.emitAfter then [EmitAddList(q, [fs])] else [];
    ghost var c := FetchCalls(q, queries, search, env.restPositionExisting);
    ghost var d: seq<HostCall> := if !env.skip && env.emitAfter then [EmitAddList(q, o.songs)] else [];
    var playlist := new Playlist([fs]);
    host.Record(AddSong(q, fs, env.firstPosition));
    if env.skip {
      host.Record(Skip(q));
    } else if !env.emitAfter {
      host.Record(EmitAddList(q, playlist.songs));
    }
    assert host.log == old(host.log) + a + b;
    FetchTheRest(q, fs, queries, search, parallel, env.restPositionExisting, playlist, host);
    assert playlist.songs == o.songs;
    assert host.log == old(host.log) + a + b + c;
    if !env.skip && env.emitAfter {
      host.Record(EmitAddList(q, playlist.songs));
    }
    AppendTwice(old(host.log), a, b);
    AppendTwice(old(host.log), a + b, c);
    AppendTwice(old(host.log), a + b + c, d);
    songs := playlist.songs;
  }

  method PlayOnNewQueue(fs0: Song, queries: seq<string>, search: Search, parallel: bool,
                        env: ListEnv, host: Host) returns (songs: seq<Song>)
    requires HasCreated(env.creates)
    modifies host
    ensures var o := NewQueueCalls(fs0, queries, search, env);
      songs == o.songs && host.log == old(host.log) + o.calls
  {
    ghost var o := NewQueueCalls(fs0, queries, search, env);
    ghost var r := Retry(fs0, queries, env.creates, search);
    var playlist := new Playlist([fs0]);
    var fs, left, q := CreateQueueWithRetry(fs0, queries, env.creates, search, host);
    ghost var b: seq<HostCall> := if !env.emitAfter then CreationEvents(q, [fs0], fs, env.addListOnCreate) else [];
    ghost var c := FetchCalls(q, left, search, env.restPositionNew);
    ghost var d: seq<HostCall> := if env.emitAfter then CreationEvents(q, o.songs, fs, env.addListOnCreate) else [];
    if !env.emitAfter {
      if env.addListOnCreate {
        host.Record(EmitAddList(q, playlist.songs));
      }
      host.Record(EmitPlaySong(q, fs));
    }
    assert host.log == old(host.log) + r.calls + b;
    FetchTheRest(q, fs, left, search, parallel, env.restPositionNew, playlist, host);
    assert playlist.songs == o.songs;
    assert host.log == old(host.log) + r.calls + b + c;
    if env.emitAfter {
      if env.addListOnCreate {
        host.Record(EmitAddList(q, playlist.songs));
      }
      host.Record(EmitPlaySong(q, fs));
    }
    AppendTwice(old(host.log), r.calls, b);
    AppendTwice(old(host.log), r.calls + b, c);
    AppendTwice(old(host.log), r.calls + b + c, d);
    songs := playlist.songs;
  }

  /** The list path of `play` once the queries are built: find the first
      song, then insert it into the existing queue or create one, resolve
      the rest and emit; `parallel` selects how the rest is searched and does
      not change anything the host sees. */
  method PlayList(qs: seq<string>, search: Search, parallel: bool, env: ListEnv, noResult: Error, host: Host)
    returns (r: Result<seq<Song>, Error>)
    requires ValidEnv(env)
    modifies host
    ensures var spec := ListPlay(qs, search, env, noResult);
      && (spec.Err? ==> r == Err(spec.error) && host.log == old(host.log))
      && (spec.Ok? ==> r == Ok(spec.value.songs) && host.log == old(host.log) + spec.value.calls)
  {
    var firstSong, queries := FindFirstSong(qs, search);
    if firstSong.None? {
      return Err(noResult);
    }
    var songs;
    match env.existing {
      case Some(q) =>
        songs := PlayOnExisting(q, firstSong.value, queries, search, parallel, env, host);
      case None =>
        songs := PlayOnNewQueue(firstSong.value, queries, search, parallel, env, host);
    }
    r := Ok(songs);
  }
}
