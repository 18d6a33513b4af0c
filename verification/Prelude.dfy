/** Types every module shares. */
module Prelude {
  datatype Option<+T> = None | Some(value: T)

  /** The answer of a call that can fail; the error's text is not modelled. */
  datatype Result<+T> = Ok(value: T) | Err

  function Max(a: int, b: int): int { if a < b then b else a }

  function Min(a: int, b: int): int { if a < b then a else b }

  /** A finite set inside another is no larger. */
  lemma SubsetSize<T>(small: set<T>, large: set<T>)
    requires small <= large
    ensures |small| <= |large|
    ensures |small| == |large| ==> small == large
  {
    var rest := large - small;
    assert large == small + rest;
    assert |large| == |small| + |rest|;
  }
}
