/** The earlier TypeScript plugin, index.ts: a module-level Web API client
    and expiry, the `getItems` pagination that returns what it could gather,
    the constructor's checks and asynchronous first grant, and `play` with
    the `skip`/`unshift` position convention. `validate` is
    `Validation.Validate`. */
module LegacyPlugin {
  import opened Common
  import opened Js
  import opened Spotify
  import opened SpotifyApi
  import opened HostFramework
  import opened Pipeline

  /** What `spotify.getData` returns: a track, or a list with its type, id,
      name and `tracks` field. */
  datatype LegacyData =
    | LegacyTrack(track: Track)
    | LegacyList(kind: string, id: string, name: string, tracks: TracksField)

  datatype LegacyRequest = LegacyPageRequest(kind: string, id: string, offset: int, limit: int)

  /** The limit asked for every page, albums included. */
  const LegacyPageSize := 100

  /** What one iteration of the pagination loop reads from outside: the
      clock before the grant, the grant's outcome (read only when the token
      is stale), and the clock after it. */
  datatype LegacyInput = LegacyInput(now: int, grant: GrantOutcome, nowAfterGrant: int)

  /** The module scope of index.ts: the expiry, the client's token and
      credentials, and what it has sent: grants, page requests, and the
      warning lines printed. */
  datatype LegacyState = LegacyState(expirationTime: int, accessToken: string, grants: nat,
                                     warnings: nat, requests: seq<LegacyRequest>)

  datatype LegacyRun = LegacyRun(result: Result<seq<RawItem>, Error>, state: LegacyState)

  /** The token step of one iteration: a grant only when the expiry is at
      most `now - 1000`, with the new expiry `now + expires_in`. */
  function LegacyRefresh(st: LegacyState, i: LegacyInput): Result<LegacyState, Failure>
  {
    if st.expirationTime <= i.now - 1000 then
      match i.grant
      case GrantFailed(f) => Err(f)
      case Granted(token, expiresIn) =>
        Ok(st.(expirationTime := i.nowAfterGrant + expiresIn, accessToken := token, grants := st.grants + 1))
    else Ok(st)
  }

  /** The `while (data.tracks.next)` loop on values. A failed grant rejects
      (counted as sent); a failed page ends the loop with two warnings and
      what was gathered so far. */
  function LegacyPaginate(kind: string, id: string, items: seq<RawItem>, page: Page<RawItem>,
                          later: seq<Result<Page<RawItem>, Failure>>, inputs: nat -> LegacyInput, k: nat,
                          st: LegacyState): LegacyRun
    requires EndsAfter(page, later)
    decreases |later|
  {
    if !page.next || st.expirationTime == 0 then LegacyRun(Ok(items), st)
    else
      match LegacyRefresh(st, inputs(k))
      case Err(f) => LegacyRun(Err(Passed(f)), st.(grants := st.grants + 1))
      case Ok(st1) =>
        var st2 := st1.(requests := st1.requests + [LegacyPageRequest(kind, id, NextOffset(page), LegacyPageSize)]);
        match later[0]
        case Err(_) => LegacyRun(Ok(items), st2.(warnings := st2.warnings + 2))
        case Ok(p) => LegacyPaginate(kind, id, items + p.items, p, later[1..], inputs, k + 1, st2)
  }

  /** `getItems(data)` on values. */
  function GetItemsSpec(kind: string, id: string, tracks: TracksField, later: seq<Result<Page<RawItem>, Failure>>,
                        inputs: nat -> LegacyInput, st: LegacyState): LegacyRun
    requires tracks.Paged? ==> EndsAfter(tracks.first, later)
  {
    match tracks
    case PlainTracks(ts) => LegacyRun(Ok(ts), st)
    case Paged(first) =>
      if kind != "playlist" && kind != "album" then LegacyRun(Ok(first.items), st)
      else LegacyPaginate(kind, id, first.items, first, later, inputs, 0, st)
  }

  /** A bare array is returned as it is, and a list of another type keeps its
      first page only; neither sends anything. */
  lemma GetItemsWithoutPaging(kind: string, id: string, tracks: TracksField, later: seq<Result<Page<RawItem>, Failure>>,
                              inputs: nat -> LegacyInput, st: LegacyState)
    requires tracks.Paged? ==> EndsAfter(tracks.first, later)
    requires tracks.PlainTracks? || (kind != "playlist" && kind != "album")
    ensures var r := GetItemsSpec(kind, id, tracks, later, inputs, st);
      && r.state == st
      && r.result == Ok(ListedItems(tracks))
  {
  }

  /** With no expiry set (no credentials, or the first grant not finished),
      pagination stops at once with the first page. */
  lemma NoExpiryFirstPageOnly(kind: string, id: string, first: Page<RawItem>, later: seq<Result<Page<RawItem>, Failure>>,
                              inputs: nat -> LegacyInput, st: LegacyState)
    requires EndsAfter(first, later) && st.expirationTime == 0
    ensures GetItemsSpec(kind, id, Paged(first), later, inputs, st) == LegacyRun(Ok(first.items), st)
  {
  }

  /** A grant happens only for a stale token, and the new expiry adds
      `expires_in` without scaling it to milliseconds. */
  lemma LegacyRefreshRule(st: LegacyState, i: LegacyInput)
    ensures st.expirationTime > i.now - 1000 ==> LegacyRefresh(st, i) == Ok(st)
    ensures st.expirationTime <= i.now - 1000 && i.grant.Granted? ==>
      LegacyRefresh(st, i).Ok? && LegacyRefresh(st, i).value.expirationTime == i.nowAfterGrant + i.grant.expiresIn
  {
  }

  /** Each page request follows the previous page (`offset + limit`) at limit
      100, one request per later page at most, appended to the log. */
  lemma {:induction false} LegacyPagingRequests(kind: string, id: string, items: seq<RawItem>, page: Page<RawItem>,
                                                later: seq<Result<Page<RawItem>, Failure>>,
                                                inputs: nat -> LegacyInput, k: nat, st: LegacyState)
    requires EndsAfter(page, later)
    ensures var r := LegacyPaginate(kind, id, items, page, later, inputs, k, st);
      var n := |r.state.requests| - |st.requests|;
      && |st.requests| <= |r.state.requests| && r.state.requests[..|st.requests|] == st.requests
      && n <= |later|
      && (n > 0 ==> r.state.requests[|st.requests|] == LegacyPageRequest(kind, id, NextOffset(page), 100))
      && (forall j :: 0 <= j < n - 1 ==>
            later[j].Ok? && r.state.requests[|st.requests| + j + 1] == LegacyPageRequest(kind, id, NextOffset(later[j].value), 100))
    decreases |later|
  {
    var r := LegacyPaginate(kind, id, items, page, later, inputs, k, st);
    if page.next && st.expirationTime != 0 && LegacyRefresh(st, inputs(k)).Ok? {
      var st1 := LegacyRefresh(st, inputs(k)).value;
      var req := LegacyPageRequest(kind, id, NextOffset(page), LegacyPageSize);
      var st2 := st1.(requests := st1.requests + [req]);
      if later[0].Ok? {
        var p := later[0].value;
        LegacyPagingRequests(kind, id, items + p.items, p, later[1..], inputs, k + 1, st2);
        var n := |r.state.requests| - |st.requests|;
        var n2 := |r.state.requests| - |st2.requests|;
        assert n == n2 + 1;
        assert r.state.requests[..|st2.requests|] == st2.requests;
        assert r.state.requests[..|st.requests|] == st2.requests[..|st.requests|];
        forall j | 0 <= j < n - 1
          ensures later[j].Ok? && r.state.requests[|st.requests| + j + 1] == LegacyPageRequest(kind, id, NextOffset(later[j].value), 100)
        {
          if j > 0 {
            assert later[j] == later[1..][j - 1];
          }
        }
      }
    }
  }

  /** The items are the first page's followed by each fetched page's, in
      order, for the `n` pages requested. */
  lemma {:induction false} LegacyPagingItems(kind: string, id: string, items: seq<RawItem>, page: Page<RawItem>,
                                             later: seq<Result<Page<RawItem>, Failure>>,
                                             inputs: nat -> LegacyInput, k: nat, st: LegacyState)
    requires EndsAfter(page, later)
    ensures var r := LegacyPaginate(kind, id, items, page, later, inputs, k, st);
      var n := |r.state.requests| - |st.requests|;
      r.result.Ok? ==> 0 <= n <= |later| && r.result.value == items + PageItems(later[..n])
    decreases |later|
  {
    var r := LegacyPaginate(kind, id, items, page, later, inputs, k, st);
    if page.next && st.expirationTime != 0 && LegacyRefresh(st, inputs(k)).Ok? {
      var st1 := LegacyRefresh(st, inputs(k)).value;
      var req := LegacyPageRequest(kind, id, NextOffset(page), LegacyPageSize);
      var st2 := st1.(requests := st1.requests + [req]);
      if later[0].Ok? {
        var p := later[0].value;
        LegacyPagingItems(kind, id, items + p.items, p, later[1..], inputs, k + 1, st2);
        var n := |r.state.requests| - |st.requests|;
        var n2 := |r.state.requests| - |st2.requests|;
        if r.result.Ok? {
          TakeFromTail(later, n);
          assert PageItems(later[..n]) == p.items + PageItems(later[1..][..n2]);
          AppendTwice(items, p.items, PageItems(later[1..][..n2]));
        }
      } else {
        assert later[..1] == [later[0]];
        assert PageItems(later[..1]) == [] + PageItems(later[..1][1..]);
      }
    }
  }

  /** A failed page ends the loop with two warning lines; otherwise paging
      adds none. */
  lemma {:induction false} LegacyPagingWarnings(kind: string, id: string, items: seq<RawItem>, page: Page<RawItem>,
                                                later: seq<Result<Page<RawItem>, Failure>>,
                                                inputs: nat -> LegacyInput, k: nat, st: LegacyState)
    requires EndsAfter(page, later)
    ensures var r := LegacyPaginate(kind, id, items, page, later, inputs, k, st);
      var n := |r.state.requests| - |st.requests|;
      r.result.Ok? ==>
        && 0 <= n <= |later|
        && (n > 0 && later[n - 1].Err? ==> r.state.warnings == st.warnings + 2)
        && (n == 0 || later[n - 1].Ok? ==> r.state.warnings == st.warnings)
    decreases |later|
  {
    var r := LegacyPaginate(kind, id, items, page, later, inputs, k, st);
    if page.next && st.expirationTime != 0 && LegacyRefresh(st, inputs(k)).Ok? {
      var st1 := LegacyRefresh(st, inputs(k)).value;
      var req := LegacyPageRequest(kind, id, NextOffset(page), LegacyPageSize);
      var st2 := st1.(requests := st1.requests + [req]);
      if later[0].Ok? {
        var p := later[0].value;
        LegacyPagingWarnings(kind, id, items + p.items, p, later[1..], inputs, k + 1, st2);
        var n := |r.state.requests| - |st.requests|;
        var n2 := |r.state.requests| - |st2.requests|;
        if r.result.Ok? && n2 > 0 {
          assert later[n - 1] == later[1..][n2 - 1];
        }
      }
    }
  }

  /** The module scope of index.ts. */
  class LegacyModule {
    var expirationTime: int
    var accessToken: string
    var clientId: string
    var clientSecret: string
    var grants: nat
    var warnings: nat
    var requests: seq<LegacyRequest>

    constructor ()
      ensures State() == LegacyState(0, "", 0, 0, []) && clientId == "" && clientSecret == ""
    {
      expirationTime, accessToken, clientId, clientSecret := 0, "", "", "";
      grants, warnings, requests := 0, 0, [];
    }

    function State(): LegacyState
      reads this
    {
      LegacyState(expirationTime, accessToken, grants, warnings, requests)
    }

    /** The `.then`/`.catch` of the constructor's grant, run when it settles:
        a granted token sets the expiry to `now + expires_in`, a failure
        prints one warning line. */
    method SettleInitialGrant(now: int, outcome: GrantOutcome)
      modifies this
      ensures outcome.Granted? ==>
        State() == old(State()).(expirationTime := now + outcome.expiresIn, accessToken := outcome.accessToken)
      ensures outcome.GrantFailed? ==> State() == old(State()).(warnings := old(warnings) + 1)
      ensures clientId == old(clientId) && clientSecret == old(clientSecret)
    {
      match outcome {
        case Granted(token, expiresIn) =>
          expirationTime := now + expiresIn;
          accessToken := token;
        case GrantFailed(_) =>
          warnings := warnings + 1;
      }
    }

    /** `getItems(data)`. */
    method GetItems(kind: string, id: string, tracks: TracksField, later: seq<Result<Page<RawItem>, Failure>>,
                    inputs: nat -> LegacyInput) returns (r: Result<seq<RawItem>, Error>)
      requires tracks.Paged? ==> EndsAfter(tracks.first, later)
      modifies this
      ensures var spec := GetItemsSpec(kind, id, tracks, later, inputs, old(State()));
        r == spec.result && State() == spec.state
      ensures clientId == old(clientId) && clientSecret == old(clientSecret)
    {
      if tracks.PlainTracks? {
        return Ok(tracks.tracks);
      }
      var data := tracks.first;
      var items := data.items;
      if kind != "playlist" && kind != "album" {
        return Ok(items);
      }
      var rest := later;
      var k := 0;
      ghost var whole := GetItemsSpec(kind, id, tracks, later, inputs, old(State()));
      while data.next
        invariant EndsAfter(data, rest)
        invariant LegacyPaginate(kind, id, items, data, rest, inputs, k, State()) == whole
        invariant clientId == old(clientId) && clientSecret == old(clientSecret)
        decreases |rest|
      {
        if expirationTime == 0 {
          break;
        }
        var i := inputs(k);
        ghost var st := State();
        if expirationTime <= i.now - 1000 {
          grants := grants + 1;
          if i.grant.GrantFailed? {
            return Err(Passed(i.grant.failure));
          }
          expirationTime := i.nowAfterGrant + i.grant.expiresIn;
          accessToken := i.grant.accessToken;
        }
        assert State() == LegacyRefresh(st, i).value;
        requests := requests + [LegacyPageRequest(kind, id, NextOffset(data), LegacyPageSize)];
        if rest[0].Err? {
          warnings := warnings + 2;
          break;
        }
        data := rest[0].value;
        rest := rest[1..];
        items := items + data.items;
        k := k + 1;
      }
      r := Ok(items);
    }
  }

  /** The outcome of the constructor's checks: the two flags, and the
      credentials when the `api` option is given. */
  datatype LegacySettings = LegacySettings(parallel: bool, emitEventsAfterFetching: bool,
                                           credentials: Option<(string, string)>)

  /** The checks made before the client's token is cleared. */
  function CheckFlags(options: JsValue, keyCheck: Option<Error>): (r: Result<(bool, bool), Error>)
    ensures r.Ok? <==> && (options.Undefined? || options.Object?) && keyCheck.None?
                       && BooleanOrAbsent(GetOptional(options, "parallel"))
                       && BooleanOrAbsent(GetOptional(options, "emitEventsAfterFetching"))
    ensures r.Ok? ==> r.value == (BooleanOr(GetOptional(options, "parallel"), true),
                                  BooleanOr(GetOptional(options, "emitEventsAfterFetching"), false))
    ensures !(options.Undefined? || options.Null? || options.Object?) ==>
              r == Err(InvalidType("object or undefined", "SpotifyPluginOptions"))
    ensures (options.Undefined? || options.Null? || options.Object?) && keyCheck.Some? ==> r == Err(keyCheck.value)
    ensures options.Object? && keyCheck.None? && !BooleanOrAbsent(GetOptional(options, "parallel")) ==>
              r == Err(InvalidType("boolean", "parallel"))
    ensures options.Object? && keyCheck.None? && BooleanOrAbsent(GetOptional(options, "parallel"))
            && !BooleanOrAbsent(GetOptional(options, "emitEventsAfterFetching")) ==>
              r == Err(InvalidType("boolean", "emitEventsAfterFetching"))
  {
    var o := if options.Undefined? then Object(map[]) else options;
    if TypeOf(o) != "object" || o.Array? then Err(InvalidType("object or undefined", "SpotifyPluginOptions"))
    else if keyCheck.Some? then Err(keyCheck.value)
    else if o.Null? then Err(TypeError)
    else
      var parallel := Coalesce(GetOptional(o, "parallel"), Bool(true));
      if TypeOf(parallel) != "boolean" then Err(InvalidType("boolean", "parallel"))
      else
        var emit := Coalesce(GetOptional(o, "emitEventsAfterFetching"), Bool(false));
        if TypeOf(emit) != "boolean" then Err(InvalidType("boolean", "emitEventsAfterFetching"))
        else Ok((parallel.b, emit.b))
  }

  /** The checks of the `api` option: absent or null means no credentials,
      any other value that is not an object is refused; a given object needs both fields to be strings, even empty
      ones. */
  function CheckApi(api: JsValue): (r: Result<Option<(string, string)>, Error>)
    ensures r.Ok? && r.value.Some? <==> api.Object? && GetOptional(api, "clientId").Str? && GetOptional(api, "clientSecret").Str?
    ensures r.Ok? && r.value.Some? ==> r.value.value == (GetOptional(api, "clientId").s, GetOptional(api, "clientSecret").s)
    ensures r == Ok(None) <==> api.Undefined? || api.Null?
    ensures !(api.Undefined? || api.Null? || api.Object?) ==> r == Err(InvalidType("object or undefined", "api"))
    ensures api.Object? && !GetOptional(api, "clientId").Str? ==> r == Err(InvalidType("string", "api.clientId"))
    ensures api.Object? && GetOptional(api, "clientId").Str? && !GetOptional(api, "clientSecret").Str? ==>
              r == Err(InvalidType("string", "api.clientSecret"))
  {
    if !api.Undefined? && (TypeOf(api) != "object" || api.Array?) then Err(InvalidType("object or undefined", "api"))
    else if !Truthy(api) then Ok(None)
    else
      var id := GetOptional(api, "clientId");
      var secret := GetOptional(api, "clientSecret");
      if !id.Str? then Err(InvalidType("string", "api.clientId"))
      else if !secret.Str? then Err(InvalidType("string", "api.clientSecret"))
      else Ok(Some((id.s, secret.s)))
  }

  /** `new SpotifyPlugin(options)` of index.ts: the flag checks, then the
      client's token is cleared (even if the `api` check then fails), then
      with credentials the client is configured and a grant is sent whose
      completion is `SettleInitialGrant`. */
  method NewLegacyPlugin(m: LegacyModule, options: JsValue, keyCheck: Option<Error>)
    returns (r: Result<LegacySettings, Error>)
    modifies m
    ensures var flags := CheckFlags(options, keyCheck);
      && (flags.Err? ==> r == Err(flags.error) && unchanged(m))
      && (flags.Ok? ==> m.accessToken == "" && m.expirationTime == old(m.expirationTime))
      && (flags.Ok? ==> var api := CheckApi(GetOptional(options, "api"));
            && (api.Err? ==> r == Err(api.error) && m.grants == old(m.grants) && m.clientId == old(m.clientId))
            && (api.Ok? ==> r == Ok(LegacySettings(flags.value.0, flags.value.1, api.value)))
            && (api.Ok? && api.value.Some? ==> m.clientId == api.value.value.0 && m.clientSecret == api.value.value.1
                                               && m.grants == old(m.grants) + 1)
            && (api.Ok? && api.value.None? ==> m.clientId == old(m.clientId) && m.grants == old(m.grants)))
      && m.requests == old(m.requests) && m.warnings == old(m.warnings)
  {
    var flags := CheckFlags(options, keyCheck);
    if flags.Err? {
      return Err(flags.error);
    }
    m.accessToken := "";
    var api := CheckApi(GetOptional(options, "api"));
    if api.Err? {
      return Err(api.error);
    }
    if api.value.Some? {
      m.clientId, m.clientSecret := api.value.value.0, api.value.value.1;
      m.grants := m.grants + 1;
    }
    r := Ok(LegacySettings(flags.value.0, flags.value.1, api.value));
  }

  /** Positions of index.ts: the first song at 1 with `skip` or `unshift`,
      else at the end (-1); the rest on an existing queue at 1 with `skip`,
      2 with `unshift`, else -1; on a new queue `unshift` is not passed. */
  function LegacyEnv(setup: HostSetup, skip: bool, unshift: bool, emitAfter: bool): (env: ListEnv)
    ensures env.firstPosition == (if skip || unshift then 1 else -1)
    ensures env.restPositionExisting == (if skip then 1 else if unshift then 2 else -1)
    ensures env.restPositionNew == (if skip then 1 else -1)
  {
    ListEnv(setup.existing, setup.creates, skip, emitAfter, setup.addListOnCreate,
            if skip || unshift then 1 else -1,
            if skip then 1 else if unshift then 2 else -1,
            if skip then 1 else -1)
  }

  function LegacyNoResult(query: string): Error
  {
    PlainError("[SpotifyPlugin] Cannot find \"" + query + "\" on YouTube.")
  }

  function LegacyNoTracks(name: string): Error
  {
    PlainError("[SpotifyPlugin] Cannot find any tracks of \"" + name + "\" on YouTube.")
  }

  /** `play` of index.ts after `spotify.getData(url)` resolved to `data`. */
  method LegacyPlay(m: LegacyModule, data: LegacyData, later: seq<Result<Page<RawItem>, Failure>>,
                    inputs: nat -> LegacyInput, skip: bool, unshift: bool, parallel: bool, emitAfter: bool,
                    search: Search, setup: HostSetup, host: Host)
    returns (r: Result<seq<Song>, Error>)
    requires data.LegacyList? && data.tracks.Paged? ==> EndsAfter(data.tracks.first, later)
    requires setup.existing.None? ==> HasCreated(setup.creates)
    modifies m, host
    ensures data.LegacyTrack? ==>
      && m.State() == old(m.State())
      && (search(Query(data.track)).None? ==> r == Err(LegacyNoResult(Query(data.track))) && host.log == old(host.log))
      && (search(Query(data.track)).Some? ==> r == Ok([]) && host.log == old(host.log) + [PlayOne(search(Query(data.track)).value)])
    ensures data.LegacyList? ==>
      var items := GetItemsSpec(data.kind, data.id, data.tracks, later, inputs, old(m.State()));
      && m.State() == items.state
      && (items.result.Err? ==> r == Err(items.result.error) && host.log == old(host.log))
      && (items.result.Ok? ==>
            var spec := ListPlay(RawQueries(items.result.value), search, LegacyEnv(setup, skip, unshift, emitAfter),
                                 LegacyNoTracks(data.name));
            && (spec.Err? ==> r == Err(spec.error) && host.log == old(host.log))
            && (spec.Ok? ==> r == Ok(spec.value.songs) && host.log == old(host.log) + spec.value.calls))
  {
    match data {
      case LegacyTrack(t) =>
        var query := Query(t);
        var result := search(query);
        if result.None? {
          return Err(LegacyNoResult(query));
        }
        host.Record(PlayOne(result.value));
        r := Ok([]);
      case LegacyList(kind, id, name, tracks) =>
        var items := m.GetItems(kind, id, tracks, later, inputs);
        if items.Err? {
          return Err(items.error);
        }
        r := PlayList(RawQueries(items.value), search, parallel, LegacyEnv(setup, skip, unshift, emitAfter),
                      LegacyNoTracks(name), host);
    }
  }
}
