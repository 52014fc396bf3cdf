/** The metadata client of src/API.ts: credential and region settings, the
    access-token state machine, paginated list assembly and `getData`.

    Module-level state of the source file (the two "warn once" flags and the
    single Web API client with its credentials and access token) is the
    `SpotifyModule` object; every `Api` holds a reference to the one module
    object, so instances share it as they share the source's module scope.
    Network answers are inputs: `RefreshInput` for each token refresh and
    `Upstream` for the data endpoints. */
module SpotifyApi {
  import opened Common
  import opened Spotify
  import opened Validation

  /** Subtracted from every expiry so that a token is not used mid-request. */
  const SafetyMarginMs := 5000

  const ApiErrorPrefix := "The URL is private or unavailable."
  const InvalidUrlError := DisTubeError("SPOTIFY_API_INVALID_URL", "Invalid URL")
  const UnsupportedTypeError := DisTubeError("SPOTIFY_API_UNSUPPORTED_TYPE", "Unsupported URL type")
  const InvalidRegionError := PlainError("Invalid region code")

  datatype Kind = AlbumKind | PlaylistKind | TrackKind | ArtistKind

  function KindName(k: Kind): string
  {
    match k
    case AlbumKind => "album"
    case PlaylistKind => "playlist"
    case TrackKind => "track"
    case ArtistKind => "artist"
  }

  function KindOf(kind: string): (k: Option<Kind>)
    ensures k.Some? <==> IsSupportedType(kind)
    ensures k.Some? ==> KindName(k.value) == kind
  {
    if kind == "album" then Some(AlbumKind)
    else if kind == "playlist" then Some(PlaylistKind)
    else if kind == "track" then Some(TrackKind)
    else if kind == "artist" then Some(ArtistKind)
    else None
  }

  /** The page size asked of each list endpoint. */
  function PageSize(k: Kind): int
  {
    if k == PlaylistKind then 100 else 50
  }

  // ---------------------------------------------------------------------
  // Construction settings
  // ---------------------------------------------------------------------

  /** `/^[A-Z]{2}$/.test(code)` */
  predicate IsRegionCode(code: string)
  {
    |code| == 2 && 'A' <= code[0] <= 'Z' && 'A' <= code[1] <= 'Z'
  }

  /** The region used for an artist's top tracks: "US" when none is given
      (an absent or empty option), the given one when it is two upper-case
      letters, and "Invalid region code" otherwise. */
  function RegionSetting(topTracksCountry: string): (r: Result<string, Error>)
    ensures r.Ok? <==> topTracksCountry == "" || IsRegionCode(topTracksCountry)
    ensures r.Ok? && topTracksCountry == "" ==> r.value == "US"
    ensures r.Ok? && topTracksCountry != "" ==> r.value == topTracksCountry
    ensures r.Err? ==> r.error == InvalidRegionError
  {
    if topTracksCountry == "" then Ok("US")
    else if IsRegionCode(topTracksCountry) then Ok(topTracksCountry)
    else Err(InvalidRegionError)
  }

  lemma RegionExamples()
    ensures RegionSetting("vn").Err? && RegionSetting("invalid-region-code").Err?
    ensures RegionSetting("VN") == Ok("VN") && RegionSetting("") == Ok("US")
  {
  }

  /** Credential mode needs both a client id and a client secret (a falsy
      option is the empty string here). */
  predicate CredentialMode(clientId: string, clientSecret: string)
  {
    clientId != "" && clientSecret != ""
  }

  // ---------------------------------------------------------------------
  // The token state machine
  // ---------------------------------------------------------------------

  datatype TokenRequest = GrantRequest | LandingPageRequest

  datatype DataRequest =
    | EmbedRequest(url: string)
    | TrackRequest(id: string)
    | AlbumRequest(id: string)
    | PlaylistRequest(id: string)
    | ArtistRequest(id: string)
    | TopTracksRequest(id: string, country: string)
    | PageRequest(kind: Kind, id: string, offset: int, limit: int)

  /** The three fields an `Api` instance keeps about its token. */
  datatype TokenState = TokenState(hasCredentials: bool, expirationTime: int, tokenAvailable: bool)

  /** The module-level state the token refresh touches. */
  datatype Shared = Shared(firstWarning1: bool, firstWarning2: bool, warnings: nat,
                           accessToken: string, tokenRequests: seq<TokenRequest>)

  /** The outcome of a client-credentials grant. */
  datatype GrantOutcome = Granted(accessToken: string, expiresIn: int) | GrantFailed(failure: Failure)

  /** What the two patterns find on the landing page: the access token ("" when
      the first pattern does not match) and, when the second matches, the
      digits of the expiry timestamp. */
  datatype LandingPage = LandingPage(token: string, expiration: Option<nat>)

  /** Everything one call of the refresh reads from outside: the clock, the
      grant's outcome (read only in credential mode) and the landing page
      (read only without credentials). */
  datatype RefreshInput = RefreshInput(now: int, grant: GrantOutcome, page: LandingPage)

  datatype Refreshed = Refreshed(token: TokenState, shared: Shared)

  const InitialShared := Shared(true, true, 0, "", [])

  /** The grant step of `refreshToken`, taken in credential mode. */
  function GrantStep(t: TokenState, s: Shared, i: RefreshInput): Refreshed
  {
    var s1 := s.(tokenRequests := s.tokenRequests + [GrantRequest]);
    match i.grant
    case Granted(token, expiresIn) =>
      Refreshed(t.(expirationTime := i.now + expiresIn * 1000 - SafetyMarginMs), s1.(accessToken := token))
    case GrantFailed(_) =>
      if s.firstWarning1 then
        Refreshed(t.(hasCredentials := false), s1.(firstWarning1 := false, warnings := s.warnings + 2))
      else Refreshed(t, s1)
  }

  /** The scraping step of `refreshToken`, taken without credentials. */
  function ScrapeStep(t: TokenState, s: Shared, page: LandingPage): Refreshed
  {
    var s1 := s.(tokenRequests := s.tokenRequests + [LandingPageRequest]);
    if page.token == "" then
      Refreshed(t.(tokenAvailable := false),
                s1.(firstWarning2 := false, warnings := if s.firstWarning2 then s.warnings + 1 else s.warnings))
    else
      Refreshed(t.(expirationTime := if page.expiration.Some? then page.expiration.value - SafetyMarginMs
                                     else t.expirationTime,
                   tokenAvailable := true),
                s1.(accessToken := page.token))
  }

  /** One call of `refreshToken` on an instance's token state and the shared
      module state. */
  function Refresh(t: TokenState, s: Shared, i: RefreshInput): Refreshed
  {
    if i.now < t.expirationTime then Refreshed(t, s)
    else
      var g := if t.hasCredentials then GrantStep(t, s, i) else Refreshed(t, s);
      if g.token.hasCredentials then Refreshed(g.token.(tokenAvailable := true), g.shared)
      else ScrapeStep(g.token, g.shared, i.page)
  }

  /** `n` successive refreshes reading inputs `k`, `k + 1`, ..., `k + n - 1`. */
  function RefreshTimes(t: TokenState, s: Shared, inputs: nat -> RefreshInput, k: nat, n: nat): Refreshed
    decreases n
  {
    if n == 0 then Refreshed(t, s)
    else
      var r := RefreshTimes(t, s, inputs, k, n - 1);
      Refresh(r.token, r.shared, inputs(k + n - 1))
  }

  /** Before the expiry nothing changes and nothing is requested. */
  lemma RefreshBeforeExpiry(t: TokenState, s: Shared, i: RefreshInput)
    requires i.now < t.expirationTime
    ensures Refresh(t, s, i) == Refreshed(t, s)
  {
  }

  /** A successful grant: expiry `now + expires_in * 1000 - 5000`, the token is
      available and installed, credential mode stays on and the landing page
      is not fetched. */
  lemma RefreshGrantSucceeds(t: TokenState, s: Shared, i: RefreshInput)
    requires t.expirationTime <= i.now && t.hasCredentials && i.grant.Granted?
    ensures var r := Refresh(t, s, i);
      && r.token == TokenState(true, i.now + i.grant.expiresIn * 1000 - 5000, true)
      && r.shared == s.(accessToken := i.grant.accessToken, tokenRequests := s.tokenRequests + [GrantRequest])
  {
  }

  /** The first failed grant of the process drops credential mode for good,
      issues the two credential warnings and scrapes in the same call. */
  lemma RefreshFirstGrantFailure(t: TokenState, s: Shared, i: RefreshInput)
    requires t.expirationTime <= i.now && t.hasCredentials && i.grant.GrantFailed? && s.firstWarning1
    ensures var r := Refresh(t, s, i);
      && !r.token.hasCredentials
      && !r.shared.firstWarning1
      && r.shared.tokenRequests == s.tokenRequests + [GrantRequest, LandingPageRequest]
      && r == ScrapeStep(t.(hasCredentials := false),
                         s.(firstWarning1 := false, warnings := s.warnings + 2,
                            tokenRequests := s.tokenRequests + [GrantRequest]), i.page)
  {
  }

  /** A failed grant after the first warning was spent (another instance
      already failed) keeps credential mode, skips the scrape and still marks
      the token as available, with the expiry unchanged. */
  lemma RefreshLaterGrantFailure(t: TokenState, s: Shared, i: RefreshInput)
    requires t.expirationTime <= i.now && t.hasCredentials && i.grant.GrantFailed? && !s.firstWarning1
    ensures Refresh(t, s, i) == Refreshed(t.(tokenAvailable := true),
                                          s.(tokenRequests := s.tokenRequests + [GrantRequest]))
  {
  }

  /** Scraping without a token: the token is unavailable, the expiry is kept,
      the page was fetched, and the warning is issued only if it was not yet. */
  lemma RefreshScrapeFindsNoToken(t: TokenState, s: Shared, i: RefreshInput)
    requires t.expirationTime <= i.now && !t.hasCredentials && i.page.token == ""
    ensures var r := Refresh(t, s, i);
      && r.token == t.(tokenAvailable := false)
      && r.shared.tokenRequests == s.tokenRequests + [LandingPageRequest]
      && !r.shared.firstWarning2
      && r.shared.warnings == s.warnings + (if s.firstWarning2 then 1 else 0)
  {
  }

  /** Scraping a token without an expiry: available, expiry unchanged. */
  lemma RefreshScrapeWithoutExpiry(t: TokenState, s: Shared, i: RefreshInput)
    requires t.expirationTime <= i.now && !t.hasCredentials && i.page.token != "" && i.page.expiration.None?
    ensures var r := Refresh(t, s, i);
      && r.token == t.(tokenAvailable := true)
      && r.shared.accessToken == i.page.token
  {
  }

  /** After a successful grant whose lifetime exceeds the safety margin, a
      second refresh before the new expiry performs no request at all. */
  lemma RefreshIdempotentAfterGrant(t: TokenState, s: Shared, i: RefreshInput, later: RefreshInput)
    requires t.expirationTime <= i.now && t.hasCredentials && i.grant.Granted?
    requires i.grant.expiresIn * 1000 > SafetyMarginMs
    requires i.now <= later.now < i.now + i.grant.expiresIn * 1000 - SafetyMarginMs
    ensures var r := Refresh(t, s, i); Refresh(r.token, r.shared, later) == r
  {
  }

  /** The warnings still to come plus those issued: two for the credential
      warning, one for the scraping warning. */
  function WarningBudget(s: Shared): nat
  {
    s.warnings + (if s.firstWarning1 then 2 else 0) + (if s.firstWarning2 then 1 else 0)
  }

  lemma RefreshKeepsBudget(t: TokenState, s: Shared, i: RefreshInput)
    ensures WarningBudget(Refresh(t, s, i).shared) == WarningBudget(s)
    ensures !s.firstWarning1 ==> !Refresh(t, s, i).shared.firstWarning1
    ensures !s.firstWarning2 ==> !Refresh(t, s, i).shared.firstWarning2
  {
  }

  /** Each warning is issued at most once per process: over any number of
      refreshes, the two-line credential warning and the scraping warning
      together never exceed three lines, and a spent flag stays spent. */
  lemma {:induction false} WarningsAtMostOnce(t: TokenState, s: Shared, inputs: nat -> RefreshInput, k: nat, n: nat)
    ensures WarningBudget(RefreshTimes(t, s, inputs, k, n).shared) == WarningBudget(s)
    ensures !s.firstWarning1 ==> !RefreshTimes(t, s, inputs, k, n).shared.firstWarning1
    ensures !s.firstWarning2 ==> !RefreshTimes(t, s, inputs, k, n).shared.firstWarning2
    ensures s == InitialShared ==> RefreshTimes(t, s, inputs, k, n).shared.warnings <= 3
    decreases n
  {
    if n > 0 {
      WarningsAtMostOnce(t, s, inputs, k, n - 1);
      var r := RefreshTimes(t, s, inputs, k, n - 1);
      RefreshKeepsBudget(r.token, r.shared, inputs(k + n - 1));
    }
  }

  /** Without credentials and with an expiry never set, every refresh fetches
      the landing page again. */
  lemma {:induction false} ScrapeEveryCall(t: TokenState, s: Shared, inputs: nat -> RefreshInput, k: nat, n: nat)
    requires !t.hasCredentials && t.expirationTime == 0
    requires forall j :: k <= j < k + n ==> inputs(j).now >= 0 && inputs(j).page.token == ""
    ensures var r := RefreshTimes(t, s, inputs, k, n);
      && |r.shared.tokenRequests| == |s.tokenRequests| + n
      && r.shared.tokenRequests[..|s.tokenRequests|] == s.tokenRequests
      && (forall j :: |s.tokenRequests| <= j < |r.shared.tokenRequests| ==> r.shared.tokenRequests[j] == LandingPageRequest)
      && r.token.expirationTime == 0 && !r.token.hasCredentials
      && (n > 0 ==> !r.token.tokenAvailable)
    decreases n
  {
    if n > 0 {
      ScrapeEveryCall(t, s, inputs, k, n - 1);
      assert k <= k + n - 1 < k + n;
    }
  }

  lemma RefreshTimesStep(t: TokenState, s: Shared, inputs: nat -> RefreshInput, k: nat, n: nat)
    ensures var r := RefreshTimes(t, s, inputs, k, n);
      RefreshTimes(t, s, inputs, k, n + 1) == Refresh(r.token, r.shared, inputs(k + n))
  {
  }

  /** Splitting off the first of a run of refreshes. */
  lemma {:induction false} RefreshTimesFirst(t: TokenState, s: Shared, inputs: nat -> RefreshInput, n: nat)
    ensures var f := Refresh(t, s, inputs(0));
      RefreshTimes(f.token, f.shared, inputs, 1, n) == RefreshTimes(t, s, inputs, 0, n + 1)
    decreases n
  {
    if n > 0 {
      RefreshTimesFirst(t, s, inputs, n - 1);
    }
  }

  // ---------------------------------------------------------------------
  // Errors and result shapes
  // ---------------------------------------------------------------------

  predicate EndsWith(s: string, suffix: string)
  {
    |suffix| <= |s| && s[|s| - |suffix|..] == suffix
  }

  function DetailsPart(f: Failure): string
  {
    if f.message != "" then "\nDetails: " + f.message else ""
  }

  function StatusPart(f: Failure): string
  {
    if f.statusCode != 0 then "\nStatus code: " + IntToString(f.statusCode) + "." else ""
  }

  lemma ThreeParts(a: string, b: string, c: string)
    ensures StartsWith(a + b + c, a) && (a + b + c)[|a|..] == b + c
    ensures EndsWith(a + b + c, c) && (c == "" ==> a + b + c == a + b)
    ensures |a + b + c| == |a| + |b| + |c|
  {
    assert (a + b + c)[..|a|] == a;
    assert (a + b + c)[|a + b + c| - |c|..] == c;
  }

  /** `apiError(e)`: a SPOTIFY_API_ERROR whose text always starts with the
      fixed sentence and carries the details and the status code exactly when
      the failure has them. */
  function ApiError(f: Failure): (e: Error)
    ensures e.DisTubeError? && e.code == "SPOTIFY_API_ERROR"
    ensures StartsWith(e.message, ApiErrorPrefix)
    ensures e.message == ApiErrorPrefix <==> f.message == "" && f.statusCode == 0
    ensures f.message != "" ==> StartsWith(e.message[|ApiErrorPrefix|..], "\nDetails: " + f.message)
    ensures f.statusCode != 0 ==> EndsWith(e.message, "\nStatus code: " + IntToString(f.statusCode) + ".")
    ensures f.statusCode == 0 ==> e.message == ApiErrorPrefix + DetailsPart(f)
  {
    ThreeParts(ApiErrorPrefix, DetailsPart(f), StatusPart(f));
    DisTubeError("SPOTIFY_API_ERROR", ApiErrorPrefix + DetailsPart(f) + StatusPart(f))
  }

  /** The URL checks of `getData`, made before any token refresh: a parser
      exception passes through, a missing id is "Invalid URL" whatever the
      type, and only then is an unsupported type refused. */
  function CheckUrl(parsed: ParseOutcome): (r: Result<Kind, Error>)
    ensures r.Ok? <==> parsed.Parsed? && parsed.id != "" && IsSupportedType(parsed.kind)
    ensures parsed.ParseThrows? ==> r == Err(Passed(parsed.failure))
    ensures parsed.Parsed? && parsed.id == "" ==> r == Err(InvalidUrlError)
    ensures parsed.Parsed? && parsed.id != "" && !IsSupportedType(parsed.kind) ==> r == Err(UnsupportedTypeError)
    ensures r.Ok? ==> KindName(r.value) == parsed.kind
  {
    match parsed
    case ParseThrows(f) => Err(Passed(f))
    case Parsed(kind, id) =>
      if id == "" then Err(InvalidUrlError)
      else if KindOf(kind).None? then Err(UnsupportedTypeError)
      else Ok(KindOf(kind).value)
  }

  /** One entry of the public embed's track list. */
  datatype EmbedEntry = EmbedEntry(title: string, subtitle: string)

  /** The public embed of a list: its title, its tracks and its cover sources. */
  datatype EmbedList = EmbedList(title: string, trackList: seq<EmbedEntry>, coverSources: seq<string>)

  /** A playlist entry of the Web API; `track` is null for a removed track. */
  datatype PlaylistEntry = PlaylistEntry(track: Option<Track>)

  /** An album or playlist body: its id, name, images, canonical URL and the
      first page of its tracks. */
  datatype Envelope<T> = Envelope(id: string, name: string, images: seq<string>,
                                 spotifyUrl: Option<string>, tracks: Page<T>)

  datatype ArtistBody = ArtistBody(name: string, images: seq<string>, spotifyUrl: Option<string>)

  /** What each data endpoint answers for the one URL being resolved; the
      page scripts are the answers to the successive page requests. */
  datatype Upstream = Upstream(
    embedTrack: Result<Track, Failure>,
    embedList: Result<EmbedList, Failure>,
    track: Result<Track, Failure>,
    album: Result<Envelope<Track>, Failure>,
    albumPages: seq<Result<Page<Track>, Failure>>,
    playlist: Result<Envelope<PlaylistEntry>, Failure>,
    playlistPages: seq<Result<Page<PlaylistEntry>, Failure>>,
    artist: Result<ArtistBody, Failure>,
    topTracks: Result<seq<Option<Track>>, Failure>)

  /** The upstream's lists end: pagination over them terminates. */
  predicate UpstreamEnds(u: Upstream)
  {
    && (u.album.Ok? ==> EndsAfter(u.album.value.tracks, u.albumPages))
    && (u.playlist.Ok? ==> EndsAfter(u.playlist.value.tracks, u.playlistPages))
  }

  /** What `getData` resolves to: a track, or a list with its tracks. */
  datatype Data =
    | TrackData(track: Track)
    | ListData(kind: Kind, name: string, thumbnail: Option<string>, url: Option<string>, tracks: seq<Track>)

  /** The album's track records, as seen by the `t?.type` filter. */
  function AsRecords(xs: seq<Track>): (r: seq<Option<Track>>)
    ensures |r| == |xs| && forall i :: 0 <= i < |xs| ==> r[i] == Some(xs[i])
  {
    seq(|xs|, i requires 0 <= i < |xs| => Some(xs[i]))
  }

  /** `.map(i => i.track)` over playlist entries. */
  function EntryTracks(xs: seq<PlaylistEntry>): (r: seq<Option<Track>>)
    ensures |r| == |xs| && forall i :: 0 <= i < |xs| ==> r[i] == xs[i].track
  {
    seq(|xs|, i requires 0 <= i < |xs| => xs[i].track)
  }

  /** `xs?.[0]` */
  function First(xs: seq<string>): Option<string>
  {
    if |xs| > 0 then Some(xs[0]) else None
  }

  /** The list the embed fallback yields: its type from the URL, the embed's
      title, the URL as given, and one track per embed entry, in order, named
      by the entry's title with the entry's subtitle as its only artist. */
  function FromEmbed(kind: Kind, url: string, e: EmbedList): (d: Data)
    ensures d.ListData? && d.kind == kind && d.name == e.title && d.url == Some(url)
    ensures d.thumbnail == First(e.coverSources)
    ensures |d.tracks| == |e.trackList|
    ensures forall i :: 0 <= i < |e.trackList| ==>
              d.tracks[i] == Track("track", e.trackList[i].title, [e.trackList[i].subtitle])
  {
    ListData(kind, e.title, First(e.coverSources), Some(url),
             seq(|e.trackList|, i requires 0 <= i < |e.trackList| =>
                 Track("track", e.trackList[i].title, [e.trackList[i].subtitle])))
  }

  // ---------------------------------------------------------------------
  // Pagination
  // ---------------------------------------------------------------------

  datatype Pagination<T> = Pagination(result: Result<seq<T>, Failure>, offsets: seq<int>)

  /** `#getFullItems` on values: keep asking for the page after the current
      one while it says `next`, appending each page's items; a failed request
      rejects the whole call. `offsets` are the offsets requested, in order. */
  function Paginate<T>(items: seq<T>, page: Page<T>, later: seq<Result<Page<T>, Failure>>): Pagination<T>
    requires EndsAfter(page, later)
    decreases |later|
  {
    if !page.next then Pagination(Ok(items), [])
    else
      match later[0]
      case Err(f) => Pagination(Err(f), [NextOffset(page)])
      case Ok(p) =>
        var rest := Paginate(items + p.items, p, later[1..]);
        Pagination(rest.result, [NextOffset(page)] + rest.offsets)
  }

  /** The items of the successful pages of a script, in order. */
  function PageItems<T>(pages: seq<Result<Page<T>, Failure>>): seq<T>
    decreases |pages|
  {
    if pages == [] then []
    else (if pages[0].Ok? then pages[0].value.items else []) + PageItems(pages[1..])
  }

  /** Each request asks for the offset after the previous page
      (`prev.offset + prev.limit`), one request per page, and the first one
      follows the first page. */
  lemma {:induction false} PaginateOffsets<T>(items: seq<T>, page: Page<T>, later: seq<Result<Page<T>, Failure>>)
    requires EndsAfter(page, later)
    ensures var offs := Paginate(items, page, later).offsets;
      && |offs| <= |later|
      && (page.next <==> |offs| > 0)
      && (|offs| > 0 ==> offs[0] == NextOffset(page))
      && (forall j :: 0 <= j < |offs| - 1 ==> later[j].Ok? && later[j].value.next && offs[j + 1] == NextOffset(later[j].value))
    decreases |later|
  {
    if page.next && later[0].Ok? {
      var q := later[0].value;
      PaginateOffsets(items + q.items, q, later[1..]);
      var rest := Paginate(items + q.items, q, later[1..]).offsets;
      var offs := Paginate(items, page, later).offsets;
      assert offs == [NextOffset(page)] + rest;
      forall j | 0 <= j < |offs| - 1
        ensures later[j].Ok? && later[j].value.next && offs[j + 1] == NextOffset(later[j].value)
      {
        if j > 0 {
          assert later[j] == later[1..][j - 1];
        }
      }
    }
  }

  /** The assembled list is the first page followed by every page fetched,
      in order, and it stops at the first page without `next`; a failure is
      the failure of the last request made. */
  lemma {:induction false} PaginateItems<T>(items: seq<T>, page: Page<T>, later: seq<Result<Page<T>, Failure>>)
    requires EndsAfter(page, later)
    ensures var p := Paginate(items, page, later); var n := |p.offsets|;
      && n <= |later|
      && (p.result.Ok? ==> p.result.value == items + PageItems(later[..n]))
      && (p.result.Ok? && n > 0 ==> later[n - 1].Ok? && !later[n - 1].value.next)
      && (p.result.Err? ==> n > 0 && later[n - 1] == Err(p.result.error))
      && (forall j :: 0 <= j < n - 1 ==> later[j].Ok? && later[j].value.next)
    decreases |later|
  {
    if page.next {
      match later[0]
      case Err(f) =>
      case Ok(q) =>
        PaginateItems(items + q.items, q, later[1..]);
        var p := Paginate(items + q.items, q, later[1..]);
        var n := |p.offsets|;
        assert later[..n + 1] == [later[0]] + later[1..][..n];
        assert PageItems(later[..n + 1]) == q.items + PageItems(later[1..][..n]);
        assert forall j :: 0 < j < n ==> later[1..][j - 1] == later[j];
    }
  }

  /** The page requests of one pagination run, at the page size of its kind. */
  function PageRequests(kind: Kind, id: string, offsets: seq<int>): (rs: seq<DataRequest>)
    ensures |rs| == |offsets|
    decreases |offsets|
  {
    if offsets == [] then []
    else [PageRequest(kind, id, offsets[0], PageSize(kind))] + PageRequests(kind, id, offsets[1..])
  }

  /** The `j`-th page request asks for the `j`-th offset at the kind's page size. */
  lemma {:induction false} PageRequestsAt(kind: Kind, id: string, offsets: seq<int>)
    ensures forall j :: 0 <= j < |offsets| ==>
              PageRequests(kind, id, offsets)[j] == PageRequest(kind, id, offsets[j], PageSize(kind))
    decreases |offsets|
  {
    if offsets != [] {
      PageRequestsAt(kind, id, offsets[1..]);
    }
  }

  lemma {:induction false} PageRequestsSnoc(kind: Kind, id: string, offsets: seq<int>, offset: int)
    ensures PageRequests(kind, id, offsets + [offset]) == PageRequests(kind, id, offsets) + [PageRequest(kind, id, offset, PageSize(kind))]
    decreases |offsets|
  {
    if offsets != [] {
      assert (offsets + [offset])[1..] == offsets[1..] + [offset];
      PageRequestsSnoc(kind, id, offsets[1..], offset);
    }
  }

  /** The loop state of `#getFullItems` part way: `items` gathered so far,
      the current page `page`, the answers still to come, and the offsets
      requested so far, such that finishing from here gives `whole`. */
  ghost predicate PagingState<T>(whole: Pagination<T>, items: seq<T>, page: Page<T>,
                           later: seq<Result<Page<T>, Failure>>, offsets: seq<int>)
  {
    && EndsAfter(page, later)
    && Paginate(items, page, later).result == whole.result
    && offsets + Paginate(items, page, later).offsets == whole.offsets
  }

  lemma PagingStart<T>(items: seq<T>, page: Page<T>, later: seq<Result<Page<T>, Failure>>)
    requires EndsAfter(page, later)
    ensures PagingState(Paginate(items, page, later), items, page, later, [])
  {
  }

  lemma PagingStep<T>(whole: Pagination<T>, items: seq<T>, page: Page<T>,
                      later: seq<Result<Page<T>, Failure>>, offsets: seq<int>)
    requires PagingState(whole, items, page, later, offsets) && page.next
    ensures |later| > 0
    ensures later[0].Err? ==> whole == Pagination(Err(later[0].error), offsets + [NextOffset(page)])
    ensures later[0].Ok? ==>
      var q := later[0].value;
      PagingState(whole, items + q.items, q, later[1..], offsets + [NextOffset(page)])
  {
    if later[0].Ok? {
      var q := later[0].value;
      var rest := Paginate(items + q.items, q, later[1..]);
      assert Paginate(items, page, later).offsets == [NextOffset(page)] + rest.offsets;
      AppendTwice(offsets, [NextOffset(page)], rest.offsets);
    }
  }

  lemma PagingEnd<T>(whole: Pagination<T>, items: seq<T>, page: Page<T>,
                     later: seq<Result<Page<T>, Failure>>, offsets: seq<int>)
    requires PagingState(whole, items, page, later, offsets) && !page.next
    ensures whole == Pagination(Ok(items), offsets)
  {
    assert offsets + [] == offsets;
  }

  // ---------------------------------------------------------------------
  // Fetching, on values
  // ---------------------------------------------------------------------

  /** What one `getData` call does after its first refresh: the result, the
      data requests it makes in order, and how many further refreshes it
      performs (one per page request). */
  datatype Fetched = Fetched(result: Result<Data, Error>, requests: seq<DataRequest>, refreshes: nat)

  function EmbedFetch(kind: Kind, url: string, u: Upstream): Fetched
  {
    var result :=
      if kind == TrackKind then
        (match u.embedTrack case Ok(t) => Ok(TrackData(t)) case Err(f) => Err(Passed(f)))
      else
        (match u.embedList case Ok(e) => Ok(FromEmbed(kind, url, e)) case Err(f) => Err(Passed(f)));
    Fetched(result, [EmbedRequest(url)], 0)
  }

  function TrackFetch(id: string, u: Upstream): Fetched
  {
    Fetched(match u.track case Ok(t) => Ok(TrackData(t)) case Err(f) => Err(ApiError(f)),
            [TrackRequest(id)], 0)
  }

  /** The album a full listing of `body`'s tracks yields, or the failure of one of its pages. */
  function AlbumResult(body: Envelope<Track>, items: Result<seq<Track>, Failure>): (r: Result<Data, Error>)
    ensures items.Err? <==> r.Err?
    ensures items.Err? ==> r.error == ApiError(items.error)
    ensures items.Ok? ==> r.value.ListData? && r.value.kind == AlbumKind && r.value.name == body.name
    ensures items.Ok? ==> r.value.tracks == OnlyTracks(AsRecords(items.value))
  {
    match items
    case Err(f) => Err(ApiError(f))
    case Ok(xs) => Ok(ListData(AlbumKind, body.name, First(body.images), body.spotifyUrl, OnlyTracks(AsRecords(xs))))
  }

  function AlbumFetch(id: string, u: Upstream): Fetched
    requires UpstreamEnds(u)
  {
    match u.album
    case Err(f) => Fetched(Err(ApiError(f)), [AlbumRequest(id)], 0)
    case Ok(body) =>
      var p := Paginate(body.tracks.items, body.tracks, u.albumPages);
      var result := AlbumResult(body, p.result);
      Fetched(result, [AlbumRequest(id)] + PageRequests(AlbumKind, body.id, p.offsets), |p.offsets|)
  }

  lemma AlbumFetchOk(id: string, u: Upstream, body: Envelope<Track>, items: Result<seq<Track>, Failure>, offsets: seq<int>)
    requires UpstreamEnds(u) && u.album == Ok(body)
    requires items == Paginate(body.tracks.items, body.tracks, u.albumPages).result
    requires offsets == Paginate(body.tracks.items, body.tracks, u.albumPages).offsets
    ensures AlbumFetch(id, u) == Fetched(AlbumResult(body, items), [AlbumRequest(id)] + PageRequests(AlbumKind, body.id, offsets), |offsets|)
  {
  }

  /** The playlist a full listing of `body`'s tracks yields, or the failure of one of its pages. */
  function PlaylistResult(body: Envelope<PlaylistEntry>, items: Result<seq<PlaylistEntry>, Failure>): (r: Result<Data, Error>)
    ensures items.Err? <==> r.Err?
    ensures items.Err? ==> r.error == ApiError(items.error)
    ensures items.Ok? ==> r.value.ListData? && r.value.kind == PlaylistKind && r.value.name == body.name
    ensures items.Ok? ==> r.value.tracks == OnlyTracks(EntryTracks(items.value))
  {
    match items
    case Err(f) => Err(ApiError(f))
    case Ok(xs) => Ok(ListData(PlaylistKind, body.name, First(body.images), body.spotifyUrl, OnlyTracks(EntryTracks(xs))))
  }

  function PlaylistFetch(id: string, u: Upstream): Fetched
    requires UpstreamEnds(u)
  {
    match u.playlist
    case Err(f) => Fetched(Err(ApiError(f)), [PlaylistRequest(id)], 0)
    case Ok(body) =>
      var p := Paginate(body.tracks.items, body.tracks, u.playlistPages);
      var result := PlaylistResult(body, p.result);
      Fetched(result, [PlaylistRequest(id)] + PageRequests(PlaylistKind, body.id, p.offsets), |p.offsets|)
  }

  lemma PlaylistFetchOk(id: string, u: Upstream, body: Envelope<PlaylistEntry>, items: Result<seq<PlaylistEntry>, Failure>, offsets: seq<int>)
    requires UpstreamEnds(u) && u.playlist == Ok(body)
    requires items == Paginate(body.tracks.items, body.tracks, u.playlistPages).result
    requires offsets == Paginate(body.tracks.items, body.tracks, u.playlistPages).offsets
    ensures PlaylistFetch(id, u) == Fetched(PlaylistResult(body, items), [PlaylistRequest(id)] + PageRequests(PlaylistKind, body.id, offsets), |offsets|)
  {
  }

  function ArtistFetch(id: string, country: string, u: Upstream): Fetched
  {
    match u.artist
    case Err(f) => Fetched(Err(ApiError(f)), [ArtistRequest(id)], 0)
    case Ok(body) =>
      var result := match u.topTracks
        case Err(f) => Err(ApiError(f))
        case Ok(ts) => Ok(ListData(ArtistKind, body.name, First(body.images), body.spotifyUrl, OnlyTracks(ts)));
      Fetched(result, [ArtistRequest(id), TopTracksRequest(id, country)], 0)
  }

  function FetchData(kind: Kind, url: string, id: string, country: string, tokenAvailable: bool, u: Upstream): Fetched
    requires UpstreamEnds(u)
  {
    if !tokenAvailable then EmbedFetch(kind, url, u)
    else
      match kind
      case TrackKind => TrackFetch(id, u)
      case AlbumKind => AlbumFetch(id, u)
      case PlaylistKind => PlaylistFetch(id, u)
      case ArtistKind => ArtistFetch(id, country, u)
  }

  /** What `getData` resolves to from a given token state and module state. */
  function GetDataResult(t: TokenState, s: Shared, country: string, url: string, parsed: ParseOutcome,
                         inputs: nat -> RefreshInput, u: Upstream): Result<Data, Error>
    requires UpstreamEnds(u)
  {
    match CheckUrl(parsed)
    case Err(e) => Err(e)
    case Ok(kind) => FetchData(kind, url, parsed.id, country, Refresh(t, s, inputs(0)).token.tokenAvailable, u).result
  }

  /** Without a usable token a list comes from the embed alone: one request,
      no pagination, tracks mapped one to one. */
  lemma EmbedPathDoesNotPaginate(kind: Kind, url: string, id: string, country: string, u: Upstream)
    requires UpstreamEnds(u) && kind != TrackKind && u.embedList.Ok?
    ensures var f := FetchData(kind, url, id, country, false, u);
      && f.requests == [EmbedRequest(url)] && f.refreshes == 0
      && f.result == Ok(FromEmbed(kind, url, u.embedList.value))
  {
  }

  /** With a token, a list holds only records of type "track", and every
      failure of the Web API is reported through `apiError`. */
  lemma ApiListsHoldOnlyTracks(kind: Kind, url: string, id: string, country: string, u: Upstream)
    requires UpstreamEnds(u)
    ensures var f := FetchData(kind, url, id, country, true, u);
      && (f.result.Ok? && f.result.value.ListData? ==> forall t :: t in f.result.value.tracks ==> t.kind == "track")
      && (f.result.Err? ==> f.result.error.DisTubeError? && f.result.error.code == "SPOTIFY_API_ERROR")
  {
  }

  // ---------------------------------------------------------------------
  // Objects
  // ---------------------------------------------------------------------

  /** The module scope of src/API.ts: the warn-once flags, the warnings
      issued, and the single Web API client (credentials, access token, and
      the requests it has sent). */
  class SpotifyModule {
    var firstWarning1: bool
    var firstWarning2: bool
    var warnings: nat
    var accessToken: string
    var clientId: string
    var clientSecret: string
    var tokenRequests: seq<TokenRequest>
    var dataRequests: seq<DataRequest>

    constructor ()
      ensures State() == InitialShared
      ensures clientId == "" && clientSecret == "" && dataRequests == []
    {
      firstWarning1, firstWarning2, warnings := true, true, 0;
      accessToken, clientId, clientSecret := "", "", "";
      tokenRequests, dataRequests := [], [];
    }

    function State(): Shared
      reads this
    {
      Shared(firstWarning1, firstWarning2, warnings, accessToken, tokenRequests)
    }

    method Send(r: DataRequest)
      modifies this
      ensures dataRequests == old(dataRequests) + [r]
      ensures State() == old(State()) && clientId == old(clientId) && clientSecret == old(clientSecret)
    {
      dataRequests := dataRequests + [r];
    }
  }

  /** `new API(clientId, clientSecret, topTracksCountry)`: the credentials are
      set on the shared client before the region is checked, so a refused
      region still leaves them set. */
  method NewApi(m: SpotifyModule, clientId: string, clientSecret: string, topTracksCountry: string)
    returns (r: Result<Api, Error>)
    modifies m
    ensures CredentialMode(clientId, clientSecret) ==> m.clientId == clientId && m.clientSecret == clientSecret
    ensures !CredentialMode(clientId, clientSecret) ==> m.clientId == old(m.clientId) && m.clientSecret == old(m.clientSecret)
    ensures m.State() == old(m.State()) && m.dataRequests == old(m.dataRequests)
    ensures r.Ok? <==> RegionSetting(topTracksCountry).Ok?
    ensures r.Err? ==> r.error == InvalidRegionError
    ensures r.Ok? ==> fresh(r.value) && r.value.scope == m
    ensures r.Ok? ==> r.value.Token() == TokenState(CredentialMode(clientId, clientSecret), 0, false)
    ensures r.Ok? ==> r.value.topTracksCountry == RegionSetting(topTracksCountry).value
  {
    if CredentialMode(clientId, clientSecret) {
      m.clientId, m.clientSecret := clientId, clientSecret;
    }
    match RegionSetting(topTracksCountry)
    case Err(e) => r := Err(e);
    case Ok(country) =>
      var api := new Api(m, CredentialMode(clientId, clientSecret), country);
      r := Ok(api);
  }

  class Api {
    const scope: SpotifyModule
    const topTracksCountry: string
    var hasCredentials: bool
    var expirationTime: int
    var tokenAvailable: bool

    constructor (m: SpotifyModule, credentials: bool, country: string)
      ensures scope == m && topTracksCountry == country
      ensures Token() == TokenState(credentials, 0, false)
    {
      scope, topTracksCountry := m, country;
      hasCredentials, expirationTime, tokenAvailable := credentials, 0, false;
    }

    function Token(): TokenState
      reads this
    {
      TokenState(hasCredentials, expirationTime, tokenAvailable)
    }

    /** `refreshToken()` */
    method RefreshToken(i: RefreshInput)
      modifies this, scope
      ensures Refreshed(Token(), scope.State()) == Refresh(old(Token()), old(scope.State()), i)
      ensures scope.dataRequests == old(scope.dataRequests)
      ensures scope.clientId == old(scope.clientId) && scope.clientSecret == old(scope.clientSecret)
    {
      if i.now < expirationTime {
        return;
      }
      if hasCredentials {
        scope.tokenRequests := scope.tokenRequests + [GrantRequest];
        match i.grant {
          case Granted(token, expiresIn) =>
            scope.accessToken := token;
            expirationTime := i.now + expiresIn * 1000 - SafetyMarginMs;
          case GrantFailed(_) =>
            if scope.firstWarning1 {
              scope.firstWarning1 := false;
              hasCredentials := false;
              scope.warnings := scope.warnings + 2;
            }
        }
      }
      if !hasCredentials {
        scope.tokenRequests := scope.tokenRequests + [LandingPageRequest];
        if i.page.token == "" {
          tokenAvailable := false;
          if scope.firstWarning2 {
            scope.firstWarning2 := false;
            scope.warnings := scope.warnings + 1;
          }
          return;
        }
        scope.accessToken := i.page.token;
        if i.page.expiration.Some? {
          expirationTime := i.page.expiration.value - SafetyMarginMs;
        }
      }
      tokenAvailable := true;
    }

    /** One iteration's effects: a refresh followed by one request. */
    method RequestPage(i: RefreshInput, request: DataRequest)
      modifies this, scope
      ensures Refreshed(Token(), scope.State()) == Refresh(old(Token()), old(scope.State()), i)
      ensures scope.dataRequests == old(scope.dataRequests) + [request]
      ensures scope.clientId == old(scope.clientId) && scope.clientSecret == old(scope.clientSecret)
    {
      RefreshToken(i);
      scope.Send(request);
    }

    /** One round of `#getFullItems`: refresh, then request the page at
      `offset`, extending a run that has requested `offsets` so far. */
    method RequestPageAt(kind: Kind, id: string, offsets: seq<int>, offset: int, inputs: nat -> RefreshInput,
                         k0: nat, ghost t0: TokenState, ghost s0: Shared, ghost d0: seq<DataRequest>)
      requires scope.dataRequests == d0 + PageRequests(kind, id, offsets)
      requires Refreshed(Token(), scope.State()) == RefreshTimes(t0, s0, inputs, k0, |offsets|)
      modifies this, scope
      ensures scope.dataRequests == d0 + PageRequests(kind, id, offsets + [offset])
      ensures Refreshed(Token(), scope.State()) == RefreshTimes(t0, s0, inputs, k0, |offsets| + 1)
      ensures scope.clientId == old(scope.clientId) && scope.clientSecret == old(scope.clientSecret)
    {
      RequestPage(inputs(k0 + |offsets|), PageRequest(kind, id, offset, PageSize(kind)));
      RefreshTimesStep(t0, s0, inputs, k0, |offsets|);
      PageRequestsSnoc(kind, id, offsets, offset);
      AppendTwice(d0, PageRequests(kind, id, offsets), [PageRequest(kind, id, offset, PageSize(kind))]);
    }

    /** `#getFullItems(data)`: refresh, request the next page, append its
      items, while the current page says `next`; `offsets` are the offsets
      requested. */
    method GetFullItems<T>(kind: Kind, id: string, first: Page<T>, later: seq<Result<Page<T>, Failure>>,
                           inputs: nat -> RefreshInput, k0: nat)
      returns (r: Result<seq<T>, Failure>, offsets: seq<int>)
      requires EndsAfter(first, later)
      modifies this, scope
      ensures Pagination(r, offsets) == Paginate(first.items, first, later)
      ensures scope.dataRequests == old(scope.dataRequests) + PageRequests(kind, id, offsets)
      ensures Refreshed(Token(), scope.State()) == RefreshTimes(old(Token()), old(scope.State()), inputs, k0, |offsets|)
      ensures scope.clientId == old(scope.clientId) && scope.clientSecret == old(scope.clientSecret)
    {
      var items := first.items;
      var data := first;
      var rest := later;
      offsets := [];
      ghost var t0, s0, d0 := Token(), scope.State(), scope.dataRequests;
      ghost var whole := Paginate(first.items, first, later);
      PagingStart(first.items, first, later);
      while data.next
        invariant PagingState(whole, items, data, rest, offsets)
        invariant scope.dataRequests == d0 + PageRequests(kind, id, offsets)
        invariant Refreshed(Token(), scope.State()) == RefreshTimes(t0, s0, inputs, k0, |offsets|)
        invariant scope.clientId == old(scope.clientId) && scope.clientSecret == old(scope.clientSecret)
        decreases |rest|
      {
        var offset := NextOffset(data);
        RequestPageAt(kind, id, offsets, offset, inputs, k0, t0, s0, d0);
        PagingStep(whole, items, data, rest, offsets);
        offsets := offsets + [offset];
        if rest[0].Err? {
          return Err(rest[0].error), offsets;
        }
        var p := rest[0].value;
        data, rest, items := p, rest[1..], items + p.items;
      }
      PagingEnd(whole, items, data, rest, offsets);
      r := Ok(items);
    }

    /** The rest of `FetchAlbum` once the album itself has arrived: every further page of its tracks. */
    method FetchAlbumTracks(body: Envelope<Track>, pages: seq<Result<Page<Track>, Failure>>, inputs: nat -> RefreshInput)
      returns (r: Result<Data, Error>, ghost offsets: seq<int>)
      requires EndsAfter(body.tracks, pages)
      modifies this, scope
      ensures r == AlbumResult(body, Paginate(body.tracks.items, body.tracks, pages).result)
      ensures offsets == Paginate(body.tracks.items, body.tracks, pages).offsets
      ensures scope.dataRequests == old(scope.dataRequests) + PageRequests(AlbumKind, body.id, offsets)
      ensures Refreshed(Token(), scope.State()) == RefreshTimes(old(Token()), old(scope.State()), inputs, 1, |offsets|)
      ensures scope.clientId == old(scope.clientId) && scope.clientSecret == old(scope.clientSecret)
    {
      var items;
      items, offsets := GetFullItems(AlbumKind, body.id, body.tracks, pages, inputs, 1);
      r := AlbumResult(body, items);
    }

    method FetchAlbum(id: string, u: Upstream, inputs: nat -> RefreshInput) returns (r: Result<Data, Error>)
      requires UpstreamEnds(u)
      modifies this, scope
      ensures var f := AlbumFetch(id, u);
        && r == f.result
        && scope.dataRequests == old(scope.dataRequests) + f.requests
        && Refreshed(Token(), scope.State()) == RefreshTimes(old(Token()), old(scope.State()), inputs, 1, f.refreshes)
      ensures scope.clientId == old(scope.clientId) && scope.clientSecret == old(scope.clientSecret)
    {
      scope.Send(AlbumRequest(id));
      match u.album {
        case Err(f) =>
          r := Err(ApiError(f));
        case Ok(body) =>
          ghost var offsets;
          r, offsets := FetchAlbumTracks(body, u.albumPages, inputs);
          AppendTwice(old(scope.dataRequests), [AlbumRequest(id)], PageRequests(AlbumKind, body.id, offsets));
          AlbumFetchOk(id, u, body, Paginate(body.tracks.items, body.tracks, u.albumPages).result, offsets);
      }
    }

    /** The rest of `FetchPlaylist` once the playlist itself has arrived: every further page of its tracks. */
    method FetchPlaylistTracks(body: Envelope<PlaylistEntry>, pages: seq<Result<Page<PlaylistEntry>, Failure>>, inputs: nat -> RefreshInput)
      returns (r: Result<Data, Error>, ghost offsets: seq<int>)
      requires EndsAfter(body.tracks, pages)
      modifies this, scope
      ensures r == PlaylistResult(body, Paginate(body.tracks.items, body.tracks, pages).result)
      ensures offsets == Paginate(body.tracks.items, body.tracks, pages).offsets
      ensures scope.dataRequests == old(scope.dataRequests) + PageRequests(PlaylistKind, body.id, offsets)
      ensures Refreshed(Token(), scope.State()) == RefreshTimes(old(Token()), old(scope.State()), inputs, 1, |offsets|)
      ensures scope.clientId == old(scope.clientId) && scope.clientSecret == old(scope.clientSecret)
    {
      var items;
      items, offsets := GetFullItems(PlaylistKind, body.id, body.tracks, pages, inputs, 1);
      r := PlaylistResult(body, items);
    }

    method FetchPlaylist(id: string, u: Upstream, inputs: nat -> RefreshInput) returns (r: Result<Data, Error>)
      requires UpstreamEnds(u)
      modifies this, scope
      ensures var f := PlaylistFetch(id, u);
        && r == f.result
        && scope.dataRequests == old(scope.dataRequests) + f.requests
        && Refreshed(Token(), scope.State()) == RefreshTimes(old(Token()), old(scope.State()), inputs, 1, f.refreshes)
      ensures scope.clientId == old(scope.clientId) && scope.clientSecret == old(scope.clientSecret)
    {
      scope.Send(PlaylistRequest(id));
      match u.playlist {
        case Err(f) =>
          r := Err(ApiError(f));
        case Ok(body) =>
          ghost var offsets;
          r, offsets := FetchPlaylistTracks(body, u.playlistPages, inputs);
          AppendTwice(old(scope.dataRequests), [PlaylistRequest(id)], PageRequests(PlaylistKind, body.id, offsets));
          PlaylistFetchOk(id, u, body, Paginate(body.tracks.items, body.tracks, u.playlistPages).result, offsets);
      }
    }

    /** `getData(url)`: URL checks, one refresh, then the embed fallback
      without a usable token or the Web API with one. */
    method GetData(url: string, parsed: ParseOutcome, inputs: nat -> RefreshInput, u: Upstream)
      returns (r: Result<Data, Error>)
      requires UpstreamEnds(u)
      modifies this, scope
      ensures r == GetDataResult(old(Token()), old(scope.State()), topTracksCountry, url, parsed, inputs, u)
      ensures CheckUrl(parsed).Err? ==> r == Err(CheckUrl(parsed).error) && unchanged(this, scope)
      ensures CheckUrl(parsed).Ok? ==>
        var first := Refresh(old(Token()), old(scope.State()), inputs(0));
        var f := FetchData(CheckUrl(parsed).value, url, parsed.id, topTracksCountry, first.token.tokenAvailable, u);
        && r == f.result
        && scope.dataRequests == old(scope.dataRequests) + f.requests
        && Refreshed(Token(), scope.State()) == RefreshTimes(old(Token()), old(scope.State()), inputs, 0, 1 + f.refreshes)
      ensures scope.clientId == old(scope.clientId) && scope.clientSecret == old(scope.clientSecret)
    {
      var checked := CheckUrl(parsed);
      if checked.Err? {
        return Err(checked.error);
      }
      var kind := checked.value;
      var id := parsed.id;
      ghost var t0, s0 := Token(), scope.State();
      RefreshToken(inputs(0));
      ghost var f := FetchData(kind, url, id, topTracksCountry, tokenAvailable, u);
      ghost var r1 := Refreshed(Token(), scope.State());
      if !tokenAvailable {
        scope.Send(EmbedRequest(url));
        if kind == TrackKind {
          r := match u.embedTrack case Ok(t) => Ok(TrackData(t)) case Err(e) => Err(Passed(e));
        } else {
          r := match u.embedList case Ok(e) => Ok(FromEmbed(kind, url, e)) case Err(e) => Err(Passed(e));
        }
        RefreshTimesFirst(t0, s0, inputs, 0);
        return;
      }
      match kind {
        case TrackKind =>
          scope.Send(TrackRequest(id));
          r := match u.track case Ok(t) => Ok(TrackData(t)) case Err(e) => Err(ApiError(e));
        case AlbumKind =>
          r := FetchAlbum(id, u, inputs);
        case PlaylistKind =>
          r := FetchPlaylist(id, u, inputs);
        case ArtistKind =>
          ghost var d1 := scope.dataRequests;
          scope.Send(ArtistRequest(id));
          if u.artist.Err? {
            r := Err(ApiError(u.artist.error));
          } else {
            scope.Send(TopTracksRequest(id, topTracksCountry));
            AppendTwice(d1, [ArtistRequest(id)], [TopTracksRequest(id, topTracksCountry)]);
            assert [ArtistRequest(id)] + [TopTracksRequest(id, topTracksCountry)] == [ArtistRequest(id), TopTracksRequest(id, topTracksCountry)];
            var body := u.artist.value;
            r := match u.topTracks
              case Err(e) => Err(ApiError(e))
              case Ok(ts) => Ok(ListData(ArtistKind, body.name, First(body.images), body.spotifyUrl, OnlyTracks(ts)));
          }
      }
      RefreshTimesFirst(t0, s0, inputs, f.refreshes);
    }
  }
}
