/** The host framework as the plugin sees it: opaque search results and songs,
    queues named by an identity, and a log of every call the plugin makes into
    the host (queue insertions, skips, queue creation, emitted events). What a
    queue position means to the host is not interpreted. */
module HostFramework {
  import opened Common

  /** A search hit, opaque to the plugin. */
  datatype SearchResult = SearchResult(id: string)

  /** `new Song(result, ...)`; the member and metadata are the same for every
      song of one `play` call and are not recorded. */
  datatype Song = Song(source: SearchResult)

  type QueueId = nat

  /** What queue creation answers: `true` (the sentinel) or a queue. */
  datatype CreateResult = AlreadyHandled | Created(queue: QueueId)

  /** What the host holds for the voice channel of one `play` call: its
      queue, if any; its answers to successive queue creations; and its
      `emitAddListWhenCreatingQueue` option. */
  datatype HostSetup = HostSetup(existing: Option<QueueId>, creates: seq<CreateResult>, addListOnCreate: bool)

  /** One call from the plugin into the host. Emitted playlists are recorded
      by the songs the listener sees at the moment of emission. */
  datatype HostCall =
    | PlayOne(result: SearchResult)                              // DT.play / DT.playVoiceChannel
    | AddSong(queue: QueueId, song: Song, position: int)          // queue.addToQueue(song, position)
    | AddSongs(queue: QueueId, songs: seq<Song>, position: int)   // queue.addToQueue(songs, position)
    | Skip(queue: QueueId)                                        // queue.skip()
    | CreateQueue(song: Song)                                     // queue creation seeded with a song
    | EmitAddList(queue: QueueId, songs: seq<Song>)               // emit("addList", queue, playlist)
    | EmitPlaySong(queue: QueueId, song: Song)                    // emit("playSong", queue, song)

  /** The kind of a host call, for counting. */
  datatype Tag = PlayOneTag | AddSongTag | AddSongsTag | SkipTag | CreateTag | AddListTag | PlaySongTag

  function TagOf(c: HostCall): Tag
  {
    match c
    case PlayOne(_) => PlayOneTag
    case AddSong(_, _, _) => AddSongTag
    case AddSongs(_, _, _) => AddSongsTag
    case Skip(_) => SkipTag
    case CreateQueue(_) => CreateTag
    case EmitAddList(_, _) => AddListTag
    case EmitPlaySong(_, _) => PlaySongTag
  }

  /** How many calls of one kind a log holds. */
  function Tally(calls: seq<HostCall>, t: Tag): nat
    decreases |calls|
  {
    if calls == [] then 0
    else (if TagOf(calls[0]) == t then 1 else 0) + Tally(calls[1..], t)
  }

  lemma {:induction false} TallyAppend(a: seq<HostCall>, b: seq<HostCall>, t: Tag)
    ensures Tally(a + b, t) == Tally(a, t) + Tally(b, t)
    decreases |a|
  {
    if a == [] {
      assert a + b == b;
    } else {
      assert (a + b)[1..] == a[1..] + b;
      TallyAppend(a[1..], b, t);
    }
  }

  lemma TallyOne(c: HostCall, t: Tag)
    ensures Tally([c], t) == if TagOf(c) == t then 1 else 0
  {
    assert [c][1..] == [];
  }

  lemma TallyFour(a: seq<HostCall>, b: seq<HostCall>, c: seq<HostCall>, d: seq<HostCall>, t: Tag)
    ensures Tally(a + b + c + d, t) == Tally(a, t) + Tally(b, t) + Tally(c, t) + Tally(d, t)
  {
    TallyAppend(a + b + c, d, t);
    TallyAppend(a + b, c, t);
    TallyAppend(a, b, t);
  }

  /** The host's side of one `play` call: the calls made into it, in order. */
  class Host {
    var log: seq<HostCall>

    constructor ()
      ensures log == []
    {
      log := [];
    }

    method Record(c: HostCall)
      modifies this
      ensures log == old(log) + [c]
    {
      log := log + [c];
    }
  }

  /** A host playlist object; the plugin reassigns and prepends to its
      `songs` array after handing the object to the host. */
  class Playlist {
    var songs: seq<Song>

    constructor (songs: seq<Song>)
      ensures this.songs == songs
    {
      this.songs := songs;
    }
  }
}
