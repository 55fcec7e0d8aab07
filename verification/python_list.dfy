/** Result types and the parts of Python's list semantics that the indicator
    pipeline relies on: indexing with negative offsets, slicing with clamped
    bounds, and the length of a `range`. */
module Wrappers {

  datatype Option<+T> = None | Some(value: T)

  /** The two Python exceptions the pipeline can raise on its own. */
  datatype Error = DivisionByZero | IndexError

  datatype Result<+T> = Ok(value: T) | Err(error: Error)
}

module PythonList {
  import opened Wrappers

  /** `s[k]` in Python: a negative `k` counts from the end, anything outside
      `-|s| <= k < |s|` raises IndexError. */
  function Index<T>(s: seq<T>, k: int): (r: Option<T>)
    ensures 0 <= k < |s| ==> r == Some(s[k])
    ensures -|s| <= k < 0 ==> r == Some(s[|s| + k])
    ensures r.None? <==> (k < -|s| || |s| <= k)
  {
    if 0 <= k < |s| then Some(s[k])
    else if -|s| <= k < 0 then Some(s[|s| + k])
    else None
  }

  /** Where a slice bound lands: negative bounds count from the end, and the
      result is clamped into `[0, n]`. */
  function ClampBound(k: int, n: nat): (b: nat)
    ensures b <= n
    ensures 0 <= k <= n ==> b == k
  {
    if k < 0 then (if k + n < 0 then 0 else k + n)
    else if k > n then n
    else k
  }

  /** `s[lo:hi]` in Python: never fails, empty when the clamped bounds cross. */
  function Slice<T>(s: seq<T>, lo: int, hi: int): (r: seq<T>)
    ensures 0 <= lo <= hi <= |s| ==> r == s[lo..hi]
    ensures |r| <= |s|
  {
    var a := ClampBound(lo, |s|);
    var b := ClampBound(hi, |s|);
    if a < b then s[a..b] else []
  }

  /** Number of iterations of `range(n)`. */
  function RangeLength(n: int): (len: nat)
    ensures n >= 0 ==> len == n
    ensures n < 0 ==> len == 0
  {
    if n < 0 then 0 else n
  }

  function Max(a: int, b: int): (m: int)
    ensures m >= a && m >= b
    ensures m == a || m == b
  {
    if a >= b then a else b
  }

  predicate StrictlyIncreasing(s: seq<int>)
  {
    forall j, k :: 0 <= j < k < |s| ==> s[j] < s[k]
  }

  /** Appending a value above every element keeps a sequence strictly
      increasing. */
  lemma AppendIncreasing(s: seq<int>, x: int)
    requires StrictlyIncreasing(s)
    requires forall y :: y in s ==> y < x
    ensures StrictlyIncreasing(s + [x])
  {
    assert forall k :: 0 <= k < |s| ==> s[k] in s;
  }
}
