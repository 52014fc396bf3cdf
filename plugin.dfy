/** The current plugin, src/index.ts: option checks of the constructor, and
    `play`, which resolves the URL through the metadata client and then
    plays a single track or runs the list path with this version's queue
    positions and errors. `validate` is `Validation.Validate`. */
module Plugin {
  import opened Common
  import opened Js
  import opened Validation
  import opened Spotify
  import opened SpotifyApi
  import opened HostFramework
  import opened Pipeline

  /** The checked options: the two flags and the arguments handed to the
      metadata client ("" for an absent or falsy one). */
  datatype Settings = Settings(parallel: bool, emitEventsAfterFetching: bool,
                               clientId: string, clientSecret: string, topTracksCountry: string)

  const DefaultSettings := Settings(true, false, "", "", "")

  /** The `api` option is absent, null, or a plain object whose three fields
      are strings when they are truthy. */
  predicate ApiOptionOk(api: JsValue)
  {
    && (api.Undefined? || api.Null? || api.Object?)
    && TextOrFalsy(GetOptional(api, "clientId"))
    && TextOrFalsy(GetOptional(api, "clientSecret"))
    && TextOrFalsy(GetOptional(api, "topTracksCountry"))
  }

  /** The constructor's checks, in the source's order. `keyCheck` is what the
      host's unknown-key check raises for these options, if anything. */
  function CheckOptions(options: JsValue, keyCheck: Option<Error>): (r: Result<Settings, Error>)
    ensures options.Undefined? && keyCheck.None? ==> r == Ok(DefaultSettings)
    ensures r.Ok? <==> && (options.Undefined? || options.Object?) && keyCheck.None?
                       && BooleanOrAbsent(GetOptional(options, "parallel"))
                       && BooleanOrAbsent(GetOptional(options, "emitEventsAfterFetching"))
                       && ApiOptionOk(GetOptional(options, "api"))
    ensures r.Ok? ==> r.value.parallel == BooleanOr(GetOptional(options, "parallel"), true)
    ensures r.Ok? ==> r.value.emitEventsAfterFetching == BooleanOr(GetOptional(options, "emitEventsAfterFetching"), false)
    ensures r.Ok? ==> r.value.clientId == TruthyText(GetOptional(GetOptional(options, "api"), "clientId"))
    ensures r.Ok? ==> r.value.clientSecret == TruthyText(GetOptional(GetOptional(options, "api"), "clientSecret"))
    ensures r.Ok? ==> r.value.topTracksCountry == TruthyText(GetOptional(GetOptional(options, "api"), "topTracksCountry"))
    ensures !(options.Undefined? || options.Null? || options.Object?) ==>
              r == Err(InvalidType("object or undefined", "SpotifyPluginOptions"))
    ensures options.Null? ==> r.Err?
    ensures (options.Undefined? || options.Null? || options.Object?) && keyCheck.Some? ==> r == Err(keyCheck.value)
    ensures options.Object? && keyCheck.None? && !BooleanOrAbsent(GetOptional(options, "parallel")) ==>
              r == Err(InvalidType("boolean", "SpotifyPluginOptions.parallel"))
    ensures options.Object? && keyCheck.None? && BooleanOrAbsent(GetOptional(options, "parallel"))
            && !BooleanOrAbsent(GetOptional(options, "emitEventsAfterFetching")) ==>
              r == Err(InvalidType("boolean", "SpotifyPluginOptions.emitEventsAfterFetching"))
    ensures var api := GetOptional(options, "api");
            options.Object? && keyCheck.None? && BooleanOrAbsent(GetOptional(options, "parallel"))
            && BooleanOrAbsent(GetOptional(options, "emitEventsAfterFetching"))
            && !(api.Undefined? || api.Null? || api.Object?) ==>
              r == Err(InvalidType("object or undefined", "api"))
    ensures var api := GetOptional(options, "api");
            options.Object? && keyCheck.None? && BooleanOrAbsent(GetOptional(options, "parallel"))
            && BooleanOrAbsent(GetOptional(options, "emitEventsAfterFetching")) && api.Object?
            && !TextOrFalsy(GetOptional(api, "clientId")) ==>
              r == Err(InvalidType("string", "SpotifyPluginOptions.api.clientId"))
    ensures var api := GetOptional(options, "api");
            options.Object? && keyCheck.None? && BooleanOrAbsent(GetOptional(options, "parallel"))
            && BooleanOrAbsent(GetOptional(options, "emitEventsAfterFetching")) && api.Object?
            && TextOrFalsy(GetOptional(api, "clientId")) && !TextOrFalsy(GetOptional(api, "clientSecret")) ==>
              r == Err(InvalidType("string", "SpotifyPluginOptions.api.clientSecret"))
    ensures var api := GetOptional(options, "api");
            options.Object? && keyCheck.None? && BooleanOrAbsent(GetOptional(options, "parallel"))
            && BooleanOrAbsent(GetOptional(options, "emitEventsAfterFetching")) && api.Object?
            && TextOrFalsy(GetOptional(api, "clientId")) && TextOrFalsy(GetOptional(api, "clientSecret"))
            && !TextOrFalsy(GetOptional(api, "topTracksCountry")) ==>
              r == Err(InvalidType("string", "SpotifyPluginOptions.api.topTracksCountry"))
  {
    var o := if options.Undefined? then Object(map[]) else options;
    if TypeOf(o) != "object" || o.Array? then Err(InvalidType("object or undefined", "SpotifyPluginOptions"))
    else if keyCheck.Some? then Err(keyCheck.value)
    else if o.Null? then Err(TypeError)
    else
      var parallel := Coalesce(GetOptional(o, "parallel"), Bool(true));
      if TypeOf(parallel) != "boolean" then Err(InvalidType("boolean", "SpotifyPluginOptions.parallel"))
      else
        var emit := Coalesce(GetOptional(o, "emitEventsAfterFetching"), Bool(false));
        if TypeOf(emit) != "boolean" then Err(InvalidType("boolean", "SpotifyPluginOptions.emitEventsAfterFetching"))
        else
          var api := GetOptional(o, "api");
          if !api.Undefined? && (TypeOf(api) != "object" || api.Array?) then Err(InvalidType("object or undefined", "api"))
          else if Truthy(api) && !TextOrFalsy(GetOptional(api, "clientId")) then
            Err(InvalidType("string", "SpotifyPluginOptions.api.clientId"))
          else if Truthy(api) && !TextOrFalsy(GetOptional(api, "clientSecret")) then
            Err(InvalidType("string", "SpotifyPluginOptions.api.clientSecret"))
          else if Truthy(api) && !TextOrFalsy(GetOptional(api, "topTracksCountry")) then
            Err(InvalidType("string", "SpotifyPluginOptions.api.topTracksCountry"))
          else
            Ok(Settings(parallel.b, emit.b, TruthyText(GetOptional(api, "clientId")),
                        TruthyText(GetOptional(api, "clientSecret")), TruthyText(GetOptional(api, "topTracksCountry"))))
  }

  /** A few option objects and what the checks make of them. */
  lemma CheckOptionsFlagExamples()
    ensures CheckOptions(Object(map["parallel" := Bool(false)]), None)
            == Ok(DefaultSettings.(parallel := false))
    ensures CheckOptions(Object(map["emitEventsAfterFetching" := Str("yes")]), None)
            == Err(InvalidType("boolean", "SpotifyPluginOptions.emitEventsAfterFetching"))
    ensures CheckOptions(Array([]), None) == Err(InvalidType("object or undefined", "SpotifyPluginOptions"))
  {
  }

  /** A truthy non-string client id is refused. */
  lemma CheckOptionsApiExample()
    ensures CheckOptions(Object(map["api" := Object(map["clientId" := Number(1)])]), None)
            == Err(InvalidType("string", "SpotifyPluginOptions.api.clientId"))
  {
    var api := Object(map["clientId" := Number(1)]);
    assert GetOptional(Object(map["api" := api]), "api") == api;
    assert GetOptional(Object(map["api" := api]), "parallel") == Undefined;
    assert GetOptional(Object(map["api" := api]), "emitEventsAfterFetching") == Undefined;
    assert GetOptional(api, "clientId") == Number(1);
  }

  /** `play`'s options after `Object.assign({ position: 0 }, options)`. */
  datatype PlayOptions = PlayOptions(skip: bool, position: Option<int>)

  function PositionOf(opts: PlayOptions): int
  {
    if opts.position.Some? then opts.position.value else 0
  }

  /** Where the rest of a list goes: one after the first song when it was
      inserted at a positive position without skipping, else at the same
      position. */
  function RestPosition(skip: bool, position: int): (p: int)
    ensures !skip && position > 0 ==> p == position + 1
    ensures skip || position <= 0 ==> p == position
  {
    if !skip && position > 0 then position + 1 else position
  }

  function Env(setup: HostSetup, opts: PlayOptions, emitAfter: bool): ListEnv
  {
    var position := PositionOf(opts);
    ListEnv(setup.existing, setup.creates, opts.skip, emitAfter, setup.addListOnCreate,
            position, RestPosition(opts.skip, position), RestPosition(opts.skip, position))
  }

  function NoResultError(query: string): Error
  {
    DisTubeError("SPOTIFY_PLUGIN_NO_RESULT", "Cannot find \"" + query + "\" on YouTube.")
  }

  function NoTracksError(name: string): Error
  {
    DisTubeError("SPOTIFY_PLUGIN_NO_RESULT", "Cannot find any tracks of \"" + name + "\" on YouTube.")
  }

  /** What a call of `play` ends in. */
  datatype Played = PlayedTrack(result: SearchResult) | PlayedList(songs: seq<Song>)

  datatype PlayOutcome = PlayOutcome(result: Result<Played, Error>, calls: seq<HostCall>)

  /** `play` on values, from what `getData` resolved to. */
  function PlaySpec(data: Result<Data, Error>, search: Search, setup: HostSetup, opts: PlayOptions, emitAfter: bool): PlayOutcome
    requires setup.existing.None? ==> HasCreated(setup.creates)
  {
    match data
    case Err(e) => PlayOutcome(Err(e), [])
    case Ok(TrackData(t)) =>
      var query := Query(t);
      (match search(query)
       case None => PlayOutcome(Err(NoResultError(query)), [])
       case Some(hit) => PlayOutcome(Ok(PlayedTrack(hit)), [PlayOne(hit)]))
    case Ok(ListData(_, name, _, _, tracks)) =>
      (match ListPlay(Queries(tracks), search, Env(setup, opts, emitAfter), NoTracksError(name))
       case Err(e) => PlayOutcome(Err(e), [])
       case Ok(o) => PlayOutcome(Ok(PlayedList(o.songs)), o.calls))
  }

  /** A track without a search hit fails with SPOTIFY_PLUGIN_NO_RESULT naming
      its query, and nothing is played. */
  lemma TrackWithoutHitFails(t: Track, search: Search, setup: HostSetup, opts: PlayOptions, emitAfter: bool)
    requires setup.existing.None? ==> HasCreated(setup.creates)
    requires search(Query(t)).None?
    ensures var o := PlaySpec(Ok(TrackData(t)), search, setup, opts, emitAfter);
      && o.result == Err(DisTubeError("SPOTIFY_PLUGIN_NO_RESULT", "Cannot find \"" + Query(t) + "\" on YouTube."))
      && o.calls == []
  {
  }

  /** On an existing queue the first song goes at `position` (0 by default)
      and the rest at `position + 1` when not skipping and `position > 0`,
      else at `position`. Only the first song is added singly. */
  lemma ListPositions(kind: Kind, name: string, thumb: Option<string>, url: Option<string>, tracks: seq<Track>,
                      search: Search, setup: HostSetup, opts: PlayOptions, emitAfter: bool)
    requires setup.existing.Some?
    requires PlaySpec(Ok(ListData(kind, name, thumb, url, tracks)), search, setup, opts, emitAfter).result.Ok?
    ensures var calls := PlaySpec(Ok(ListData(kind, name, thumb, url, tracks)), search, setup, opts, emitAfter).calls;
      && calls[0].AddSong? && calls[0].position == PositionOf(opts)
      && (forall c :: c in calls && c.AddSongs? ==>
            c.position == if !opts.skip && PositionOf(opts) > 0 then PositionOf(opts) + 1 else PositionOf(opts))
  {
    ExistingQueuePositions(Queries(tracks), search, Env(setup, opts, emitAfter), NoTracksError(name));
  }

  /** A list without any hit fails with SPOTIFY_PLUGIN_NO_RESULT naming the
      list, and the host is not called. */
  lemma ListWithoutHitsFails(kind: Kind, name: string, thumb: Option<string>, url: Option<string>, tracks: seq<Track>,
                             search: Search, setup: HostSetup, opts: PlayOptions, emitAfter: bool)
    requires setup.existing.None? ==> HasCreated(setup.creates)
    requires forall i :: 0 <= i < |tracks| ==> tracks[i].kind != "track" || search(Query(tracks[i])).None?
    ensures var o := PlaySpec(Ok(ListData(kind, name, thumb, url, tracks)), search, setup, opts, emitAfter);
      o.result == Err(NoTracksError(name)) && o.calls == []
  {
    var qs := Queries(tracks);
    QueriesHitNothing(tracks, search);
    ListPlayFailsIffNoHit(qs, search, Env(setup, opts, emitAfter), NoTracksError(name));
  }

  lemma {:induction false} QueriesHitNothing(tracks: seq<Track>, search: Search)
    requires forall i :: 0 <= i < |tracks| ==> tracks[i].kind != "track" || search(Query(tracks[i])).None?
    ensures forall i :: 0 <= i < |Queries(tracks)| ==> !Hit(Queries(tracks)[i], search)
    decreases |tracks|
  {
    if tracks != [] {
      QueriesHitNothing(tracks[1..], search);
      assert forall i :: 0 <= i < |tracks[1..]| ==> tracks[1..][i] == tracks[i + 1];
    }
  }

  /** `new SpotifyPlugin(options)`: the option checks, then the metadata
      client, whose construction sets the credentials on the shared client
      and checks the region. */
  method NewPlugin(m: SpotifyModule, options: JsValue, keyCheck: Option<Error>) returns (r: Result<SpotifyPlugin, Error>)
    modifies m
    ensures CheckOptions(options, keyCheck).Err? ==> r == Err(CheckOptions(options, keyCheck).error) && unchanged(m)
    ensures CheckOptions(options, keyCheck).Ok? ==>
      var st := CheckOptions(options, keyCheck).value;
      && (r.Ok? <==> RegionSetting(st.topTracksCountry).Ok?)
      && (r.Err? ==> r.error == InvalidRegionError)
      && (CredentialMode(st.clientId, st.clientSecret) ==> m.clientId == st.clientId && m.clientSecret == st.clientSecret)
      && (r.Ok? ==> && fresh(r.value) && fresh(r.value.api) && r.value.api.scope == m
                    && r.value.parallel == st.parallel
                    && r.value.emitEventsAfterFetching == st.emitEventsAfterFetching
                    && r.value.api.Token() == TokenState(CredentialMode(st.clientId, st.clientSecret), 0, false)
                    && r.value.api.topTracksCountry == RegionSetting(st.topTracksCountry).value)
  {
    var checked := CheckOptions(options, keyCheck);
    if checked.Err? {
      return Err(checked.error);
    }
    var st := checked.value;
    var api := NewApi(m, st.clientId, st.clientSecret, st.topTracksCountry);
    if api.Err? {
      return Err(api.error);
    }
    var plugin := new SpotifyPlugin(api.value, st.parallel, st.emitEventsAfterFetching);
    r := Ok(plugin);
  }

  class SpotifyPlugin {
    const api: Api
    const parallel: bool
    const emitEventsAfterFetching: bool

    constructor (api: Api, parallel: bool, emitEventsAfterFetching: bool)
      ensures this.api == api && this.parallel == parallel
      ensures this.emitEventsAfterFetching == emitEventsAfterFetching
    {
      this.api := api;
      this.parallel := parallel;
      this.emitEventsAfterFetching := emitEventsAfterFetching;
    }

    /** `play(voiceChannel, url, options)` */
    method Play(url: string, parsed: ParseOutcome, inputs: nat -> RefreshInput, u: Upstream,
                opts: PlayOptions, search: Search, setup: HostSetup, host: Host)
      returns (r: Result<Played, Error>)
      requires UpstreamEnds(u)
      requires setup.existing.None? ==> HasCreated(setup.creates)
      modifies api, api.scope, host
      ensures var data := GetDataResult(old(api.Token()), old(api.scope.State()), api.topTracksCountry,
                                        url, parsed, inputs, u);
        var o := PlaySpec(data, search, setup, opts, emitEventsAfterFetching);
        r == o.result && host.log == old(host.log) + o.calls
      ensures CheckUrl(parsed).Err? ==> unchanged(api, api.scope)
      ensures CheckUrl(parsed).Ok? ==>
        var first := Refresh(old(api.Token()), old(api.scope.State()), inputs(0));
        var f := FetchData(CheckUrl(parsed).value, url, parsed.id, api.topTracksCountry, first.token.tokenAvailable, u);
        && api.scope.dataRequests == old(api.scope.dataRequests) + f.requests
        && Refreshed(api.Token(), api.scope.State())
           == RefreshTimes(old(api.Token()), old(api.scope.State()), inputs, 0, 1 + f.refreshes)
      ensures api.scope.clientId == old(api.scope.clientId) && api.scope.clientSecret == old(api.scope.clientSecret)
    {
      var data := api.GetData(url, parsed, inputs, u);
      if data.Err? {
        return Err(data.error);
      }
      match data.value {
        case TrackData(t) =>
          var query := Query(t);
          var result := search(query);
          if result.None? {
            return Err(NoResultError(query));
          }
          host.Record(PlayOne(result.value));
          r := Ok(PlayedTrack(result.value));
        case ListData(_, name, _, _, tracks) =>
          var songs := PlayList(Queries(tracks), search, parallel, Env(setup, opts, emitEventsAfterFetching),
                                NoTracksError(name), host);
          r := if songs.Ok? then Ok(PlayedList(songs.value)) else Err(songs.error);
      }
    }
  }
}
