/**
 * FIFO trimming shared by the two bounded histories of the application
 * (the live candle series and the debug-log lines): keep only the newest
 * `cap` elements of a sequence.
 */
module BoundedSeq {

  /** The newest `cap` elements of `s` (all of them when there are no more than `cap`). */
  function KeepNewest<T>(s: seq<T>, cap: nat): (r: seq<T>)
    ensures |r| == if |s| <= cap then |s| else cap
    ensures s == s[..|s| - |r|] + r
  {
    if |s| <= cap then s else s[|s| - cap..]
  }

  /** Trimming, appending and trimming again is appending and trimming once. */
  lemma {:induction false} KeepNewestAppend<T>(a: seq<T>, b: seq<T>, n: nat)
    ensures KeepNewest(KeepNewest(a, n) + b, n) == KeepNewest(a + b, n)
  {
    var k := KeepNewest(a, n);
    var u := a + b;
    assert k + b == u[|a| - |k|..];
    var l := KeepNewest(k + b, n);
    var m := KeepNewest(u, n);
    assert |l| == |m|;
    assert l == (k + b)[|k + b| - |l|..];
    assert m == u[|u| - |m|..];
  }
}
