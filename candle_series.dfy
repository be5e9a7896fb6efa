/**
 * The live candle series fed by the streaming handler: a time-ordered
 * sequence of candles that merges each incoming candle into its tail.
 *
 * `Upserted` is the update rule as a function of the old series;
 * `CandleStore` holds the series the UI reads and updates it in place.
 */
module CandleSeries {
  import opened MarketData
  import opened BoundedSeq

  /** Most candles the live series keeps; older ones are evicted first. */
  const CAPACITY: nat := 300

  function Ts(c: Candle): int
  {
    c.timestamp.millis as int
  }

  ghost predicate StrictlyIncreasing(s: seq<Candle>)
  {
    forall i, j :: 0 <= i < j < |s| ==> Ts(s[i]) < Ts(s[j])
  }

  /**
   * The merge-or-append rule. An empty series takes the candle; a candle
   * with the last timestamp replaces the last candle; a newer one is
   * appended and the oldest candles are dropped down to CAPACITY; an older
   * one leaves the series as it is.
   */
  function Upserted(s: seq<Candle>, c: Candle): (r: seq<Candle>)
    ensures s == [] ==> r == [c]
    ensures s != [] && Ts(c) == Ts(s[|s| - 1]) ==>
              |r| == |s| && r[|s| - 1] == c && r[..|s| - 1] == s[..|s| - 1]
    ensures s != [] && Ts(c) > Ts(s[|s| - 1]) ==>
              r != [] && r[|r| - 1] == c && |r| == (if |s| < CAPACITY then |s| + 1 else CAPACITY) &&
              s == s[..|s| + 1 - |r|] + r[..|r| - 1]
    ensures s != [] && Ts(c) < Ts(s[|s| - 1]) ==> r == s
  {
    if s == [] then [c]
    else if Ts(s[|s| - 1]) == Ts(c) then s[..|s| - 1] + [c]
    else if Ts(c) > Ts(s[|s| - 1]) then KeepNewest(s + [c], CAPACITY)
    else s
  }

  /** Any slice of an increasing series is increasing. */
  lemma SliceIncreasing(s: seq<Candle>, lo: nat, hi: nat)
    requires StrictlyIncreasing(s) && lo <= hi <= |s|
    ensures StrictlyIncreasing(s[lo..hi])
  {
    forall i, j | 0 <= i < j < hi - lo
      ensures Ts(s[lo..hi][i]) < Ts(s[lo..hi][j])
    {
      assert s[lo..hi][i] == s[lo + i] && s[lo..hi][j] == s[lo + j];
    }
  }

  /** An update keeps the timestamps strictly increasing. */
  lemma UpsertKeepsOrder(s: seq<Candle>, c: Candle)
    requires StrictlyIncreasing(s)
    ensures StrictlyIncreasing(Upserted(s, c))
  {
    if s != [] {
      var last := s[|s| - 1];
      if Ts(last) == Ts(c) {
        var r := s[..|s| - 1] + [c];
        forall i, j | 0 <= i < j < |r| ensures Ts(r[i]) < Ts(r[j]) {
          if j == |r| - 1 {
            assert r[i] == s[i] && Ts(s[i]) < Ts(last);
          } else {
            assert r[i] == s[i] && r[j] == s[j];
          }
        }
      } else if Ts(c) > Ts(last) {
        var t := s + [c];
        forall i, j | 0 <= i < j < |t| ensures Ts(t[i]) < Ts(t[j]) {
          if j == |t| - 1 {
            assert t[i] == s[i] && (i == |s| - 1 || Ts(s[i]) < Ts(last));
          } else {
            assert t[i] == s[i] && t[j] == s[j];
          }
        }
        SliceIncreasing(t, |t| - |KeepNewest(t, CAPACITY)|, |t|);
        assert KeepNewest(t, CAPACITY) == t[|t| - |KeepNewest(t, CAPACITY)|..|t|];
      }
    }
  }

  /** An update never takes a series that fits its capacity beyond it. */
  lemma UpsertBounded(s: seq<Candle>, c: Candle)
    requires |s| <= CAPACITY
    ensures |Upserted(s, c)| <= CAPACITY
  {
  }

  /**
   * Replaying a stale candle, one whose timestamp is at most that of some
   * candle before the last, changes nothing.
   */
  lemma StaleReplayIgnored(s: seq<Candle>, c: Candle, i: nat)
    requires StrictlyIncreasing(s)
    requires i < |s| - 1 && Ts(c) <= Ts(s[i])
    ensures Upserted(s, c) == s
  {
    assert Ts(s[i]) < Ts(s[|s| - 1]);
  }

  /** Feeding the candles of `cs` one at a time, first to last. */
  function FeedAll(s: seq<Candle>, cs: seq<Candle>): seq<Candle>
    decreases |cs|
  {
    if cs == [] then s else FeedAll(Upserted(s, cs[0]), cs[1..])
  }

  /** A candle newer than the whole series is appended with eviction. */
  lemma UpsertNewer(s: seq<Candle>, c: Candle)
    requires StrictlyIncreasing(s + [c])
    ensures Upserted(s, c) == KeepNewest(s + [c], CAPACITY)
  {
    if s != [] {
      assert (s + [c])[|s| - 1] == s[|s| - 1] && (s + [c])[|s|] == c;
    }
  }

  /** The tail of an increasing series is increasing. */
  lemma SuffixIncreasing(u: seq<Candle>, k: nat)
    requires StrictlyIncreasing(u) && k <= |u|
    ensures StrictlyIncreasing(u[k..])
  {
    SliceIncreasing(u, k, |u|);
    assert u[k..|u|] == u[k..];
  }

  /**
   * Feeding candles newer than everything stored leaves exactly the newest
   * CAPACITY candles of the old series followed by the new ones.
   */
  lemma {:induction false} FeedAscending(s: seq<Candle>, cs: seq<Candle>)
    requires StrictlyIncreasing(s + cs) && |s| <= CAPACITY
    ensures FeedAll(s, cs) == KeepNewest(s + cs, CAPACITY)
    decreases |cs|
  {
    if cs != [] {
      var t := s + [cs[0]];
      var u := s + cs;
      assert u == t + cs[1..];
      SliceIncreasing(u, 0, |t|);
      assert u[0..|t|] == t;
      UpsertNewer(s, cs[0]);
      var s' := KeepNewest(t, CAPACITY);
      var k := |t| - |s'|;
      assert s' + cs[1..] == u[k..];
      SuffixIncreasing(u, k);
      FeedAscending(s', cs[1..]);
      KeepNewestAppend(t, cs[1..], CAPACITY);
    }
  }

  /** 305 ascending candles fed into an empty series leave candles 6..305. */
  lemma Feed305(cs: seq<Candle>)
    requires |cs| == 305 && StrictlyIncreasing(cs)
    ensures FeedAll([], cs) == cs[5..]
  {
    assert [] + cs == cs;
    FeedAscending([], cs);
  }

  /**
   * The state the UI shares with the streaming handler: the candle series,
   * the published candle count and the published current price.
   */
  class CandleStore {
    var candles: seq<Candle>
    var candleCount: nat
    var currentPrice: real

    /** The published count always equals the length of the series. */
    ghost predicate Valid()
      reads this
    {
      candleCount == |candles|
    }

    /** Sorted and within capacity: what every live update preserves. */
    ghost predicate WellFormed()
      reads this
    {
      StrictlyIncreasing(candles) && |candles| <= CAPACITY
    }

    constructor ()
      ensures Valid() && WellFormed()
      ensures candles == [] && candleCount == 0 && currentPrice == 0.0
    {
      candles := [];
      candleCount := 0;
      currentPrice := 0.0;
    }

    /** The historical load replaces the whole series at once. */
    method LoadHistorical(historical: seq<Candle>)
      modifies this
      ensures Valid()
      ensures candles == historical && candleCount == |historical|
      ensures currentPrice == if historical == [] then old(currentPrice)
                              else historical[|historical| - 1].ohlcv.close.value
    {
      candles := historical;
      candleCount := |historical|;
      if historical != [] {
        currentPrice := historical[|historical| - 1].ohlcv.close.value;
      }
    }

    /** One streamed candle: publish its close, merge it, publish the count. */
    method Upsert(c: Candle)
      modifies this
      ensures Valid()
      ensures candles == Upserted(old(candles), c)
      ensures candleCount == |candles|
      ensures currentPrice == c.ohlcv.close.value
      ensures old(WellFormed()) ==> WellFormed()
    {
      currentPrice := c.ohlcv.close.value;
      ghost var before := candles;
      if |candles| > 0 {
        var last := candles[|candles| - 1];
        if Ts(last) == Ts(c) {
          candles := candles[..|candles| - 1] + [c];
        } else if Ts(c) > Ts(last) {
          candles := candles + [c];
          ghost var full := candles;
          while |candles| > CAPACITY
            invariant |candles| <= |full|
            invariant candles == full[|full| - |candles|..]
            invariant |candles| < |full| ==> |candles| >= CAPACITY
            invariant currentPrice == c.ohlcv.close.value
            decreases |candles|
          {
            candles := candles[1..];
          }
        }
      } else {
        candles := candles + [c];
      }
      candleCount := |candles|;
      if StrictlyIncreasing(before) {
        UpsertKeepsOrder(before, c);
      }
    }
  }
}
