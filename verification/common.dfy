/**
  Shared vocabulary for the water-delivery back end: optional values, results
  carrying a validation error, and the handful of Python behaviours the
  business rules lean on (truthiness, `str.lower`, `seq[:stop]`).
 */
module Common {

  /** A nullable database column or an absent dictionary key. */
  datatype Option<+T> = None | Some(value: T)

  /** The outcome of a rule that may raise a validation error. */
  datatype Result<+T, +E> = Ok(value: T) | Err(error: E)

  /** Python truthiness of a nullable integer: `None` and `0` are falsy. */
  predicate IntTruthy(x: Option<int>)
  {
    x.Some? && x.value != 0
  }

  /** Python truthiness of a nullable string or file name: `None` and `""` are falsy. */
  predicate StrTruthy(x: Option<string>)
  {
    x.Some? && x.value != ""
  }

  /** `str.lower` restricted to ASCII letters. */
  function LowerChar(c: char): char
  {
    if 'A' <= c <= 'Z' then (c as int + 32) as char else c
  }

  function Lower(s: string): (r: string)
    ensures |r| == |s|
    ensures forall i :: 0 <= i < |s| ==> r[i] == LowerChar(s[i])
    ensures forall i :: 0 <= i < |r| ==> !('A' <= r[i] <= 'Z')
    ensures forall i :: 0 <= i < |s| && !('A' <= s[i] <= 'Z') ==> r[i] == s[i]
  {
    seq(|s|, i requires 0 <= i < |s| => LowerChar(s[i]))
  }

  /** Lower-casing twice is lower-casing once. */
  lemma LowerIdempotent(s: string)
    ensures Lower(Lower(s)) == Lower(s)
  {
  }

  /** Python's `s[:stop]`: a negative stop counts from the end, and both ends are clamped. */
  function PyPrefix<T>(s: seq<T>, stop: int): (r: seq<T>)
    ensures r <= s
    ensures 0 <= stop <= |s| ==> |r| == stop
    ensures stop > |s| ==> r == s
    ensures stop < 0 && |s| + stop >= 0 ==> |r| == |s| + stop
    ensures |s| + stop < 0 ==> r == []
  {
    if stop < 0 then
      (if |s| + stop < 0 then [] else s[..|s| + stop])
    else if stop > |s| then s
    else s[..stop]
  }
}
