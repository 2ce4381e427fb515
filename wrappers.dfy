/** Option and Result values used for the source's `None` and for its fatal
    errors (`_parse_error`, `fatal`), which end the program. */
module Wrappers {

  datatype Option<+T> = None | Some(value: T)

  /** The error kinds the source reports before it exits. */
  datatype Error =
    | ValidationError      // a document field is missing or has the wrong type
    | ReferenceError       // an edge names a leaf id that was not declared
    | UnsupportedTypeError // a document type tag or element tag is not recognised
    | ExhaustedRouteError  // no leaf reaches any other leaf

  datatype Result<+T> = Ok(value: T) | Err(error: Error)

  /** A non-empty prefix is the shorter prefix and its last element; stated
      once for any element type, where it is cheap to prove. */
  lemma PrefixSnoc<T>(s: seq<T>, n: nat)
    requires 0 < n <= |s|
    ensures s[..n] == s[..n - 1] + [s[n - 1]]
  {
  }

  /** Appending keeps the original sequence as a prefix. */
  lemma PrefixOfAppend<T>(s: seq<T>, x: T)
    ensures (s + [x])[..|s|] == s
  {
  }

  /** `f` applied to each element, in order. */
  function MapSeq<T, U>(s: seq<T>, f: T -> U): (r: seq<U>)
    ensures |r| == |s|
    ensures forall k | 0 <= k < |s| :: r[k] == f(s[k])
  {
    seq(|s|, k requires 0 <= k < |s| => f(s[k]))
  }

  lemma MapSeqAppend<T, U>(s: seq<T>, x: T, f: T -> U)
    ensures MapSeq(s + [x], f) == MapSeq(s, f) + [f(x)]
  {
  }
}
