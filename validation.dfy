/** URL recognition: the parser of Spotify URIs is an opaque partial function,
    and `validate` wraps it in a cheap substring test and a type check. All
    three plugin versions share this behaviour (src/index.ts, index.ts and
    index.js list the same four supported types). */
module Validation {
  import opened Common
  import opened Js

  /** What the Spotify URI parser does with a string: throw, or return a
      resource `type` and an `id` ("" when the parsed object has none). */
  datatype ParseOutcome = ParseThrows(failure: Failure) | Parsed(kind: string, id: string)

  /** `SUPPORTED_TYPES.includes(type)` */
  predicate IsSupportedType(kind: string)
  {
    kind in ["album", "playlist", "track", "artist"]
  }

  /** `validate(url)`: never throws; false for anything that is not a string
      holding "spotify", for a string the parser rejects, and for a parsed
      type that is empty or not one of the four supported ones. */
  function Validate(url: JsValue, parse: string -> ParseOutcome): (ok: bool)
    ensures ok ==> url.Str? && Includes(url.s, "spotify")
    ensures url.Str? && Includes(url.s, "spotify") ==>
              (ok <==> parse(url.s).Parsed? && IsSupportedType(parse(url.s).kind))
  {
    if !url.Str? || !Includes(url.s, "spotify") then false
    else
      match parse(url.s)
      case ParseThrows(_) => false
      case Parsed(kind, _) => kind != "" && IsSupportedType(kind)
  }

  /** A string without the marker is refused before the parser is consulted,
      whatever the parser would answer. */
  lemma ValidateIgnoresParserWithoutMarker(url: string, p1: string -> ParseOutcome, p2: string -> ParseOutcome)
    requires !Includes(url, "spotify")
    ensures !Validate(Str(url), p1) && !Validate(Str(url), p2)
  {
  }

  /** For a string with the marker, the answer depends only on what the parser
      says about that string; a non-string is always refused. */
  lemma {:induction false} ValidateDependsOnlyOnParse(url: JsValue, p1: string -> ParseOutcome, p2: string -> ParseOutcome)
    requires url.Str? ==> p1(url.s) == p2(url.s)
    ensures Validate(url, p1) == Validate(url, p2)
    ensures !url.Str? ==> !Validate(url, p1)
  {
  }

  /** The four supported types are accepted, and "show" and "episode" are not. */
  lemma ValidateTypes(url: string, parse: string -> ParseOutcome)
    requires Includes(url, "spotify")
    requires parse(url).Parsed?
    ensures parse(url).kind in {"album", "playlist", "track", "artist"} ==> Validate(Str(url), parse)
    ensures parse(url).kind in {"show", "episode", ""} ==> !Validate(Str(url), parse)
  {
  }
}
