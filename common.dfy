/** Values shared by every part of the plugin: optional values, results, the
    errors the plugin raises, and the few string operations it uses. */
module Common {

  datatype Option<+T> = None | Some(value: T)

  datatype Result<+T, +E> = Ok(value: T) | Err(error: E)

  /** What a rejected library call carries: `e.body.error.message` and
      `e.statusCode`, with "" and 0 standing for an absent (falsy) field. */
  datatype Failure = Failure(message: string, statusCode: int)

  /** The errors the plugin raises or lets through. */
  datatype Error =
    | DisTubeError(code: string, message: string)   // host error class with a code
    | InvalidType(expected: string, name: string)    // DisTubeError("INVALID_TYPE", expected, value, name)
    | PlainError(message: string)                    // `new Error(message)`
    | TypeError                                      // a property read on `null`
    | Passed(failure: Failure)                       // a library rejection passed through unchanged

  /** `s.includes(part)` */
  function Includes(s: string, part: string): bool
    decreases |s|
  {
    if |s| < |part| then false
    else if s[..|part|] == part then true
    else Includes(s[1..], part)
  }

  /** `part` occurs in `s` at index `i`. */
  predicate OccursAt(s: string, part: string, i: int)
  {
    0 <= i && i + |part| <= |s| && s[i..i + |part|] == part
  }

  /** Appending a request log in two steps is appending it once. */
  lemma AppendTwice<T>(a: seq<T>, b: seq<T>, c: seq<T>)
    ensures a + b + c == a + (b + c)
  {
  }

  /** A prefix one longer is the prefix followed by the next element. */
  lemma PrefixSnoc<T>(s: seq<T>, k: int)
    requires 0 <= k < |s|
    ensures s[..k + 1] == s[..k] + [s[k]]
  {
  }

  /** A non-empty prefix is the first element followed by a prefix of the tail. */
  lemma TakeFromTail<T>(s: seq<T>, n: int)
    requires 0 < n <= |s|
    ensures s[..n] == [s[0]] + s[1..][..n - 1]
  {
  }

  lemma SliceOfTail(s: string, i: int, j: int)
    requires 1 <= i <= j <= |s|
    ensures s[i..j] == s[1..][i - 1..j - 1]
  {
    assert forall k :: 0 <= k < j - i ==> s[i..j][k] == s[1..][i - 1..j - 1][k];
  }

  lemma {:induction false} IncludesIff(s: string, part: string)
    ensures Includes(s, part) <==> exists i :: OccursAt(s, part, i)
    decreases |s|
  {
    if |s| < |part| {
    } else if s[..|part|] == part {
      assert OccursAt(s, part, 0);
    } else {
      IncludesIff(s[1..], part);
      if Includes(s, part) {
        var i :| OccursAt(s[1..], part, i);
        SliceOfTail(s, i + 1, i + 1 + |part|);
        assert OccursAt(s, part, i + 1);
      }
      forall i | OccursAt(s, part, i)
        ensures OccursAt(s[1..], part, i - 1)
      {
        SliceOfTail(s, i, i + |part|);
      }
    }
  }

  /** `words.join(" ")` */
  function JoinSpace(words: seq<string>): string
    decreases |words|
  {
    if |words| == 0 then ""
    else if |words| == 1 then words[0]
    else words[0] + " " + JoinSpace(words[1..])
  }

  function DigitChar(d: nat): char
    requires d < 10
  {
    "0123456789"[d]
  }

  function Digits(n: nat): (s: string)
    ensures |s| > 0
    decreases n
  {
    if n < 10 then [DigitChar(n)] else Digits(n / 10) + [DigitChar(n % 10)]
  }

  /** The decimal text of an integer, as a template literal prints it. */
  function IntToString(i: int): string
  {
    if i < 0 then "-" + Digits(-i) else Digits(i)
  }

  predicate StartsWith(s: string, prefix: string)
  {
    |prefix| <= |s| && s[..|prefix|] == prefix
  }
}
