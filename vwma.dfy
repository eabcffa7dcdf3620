/**
 * The VWMA calculator: for every position of a quotation series, the
 * volume-weighted mean of `close` over the last `period` quotations,
 * or `None` during warm-up and when the window's volumes sum to zero.
 */
module Vwma {
  import opened Quotes

  /** `data.slice(start, end)` with its JavaScript meaning: a negative bound counts
      from the end, bounds are clamped to the length, and start >= end gives []. */
  function Slice<T>(s: seq<T>, start: int, end: int): (r: seq<T>)
    ensures 0 <= start <= end <= |s| ==> r == s[start..end]
    ensures 0 <= end <= start ==> r == []
    ensures 0 <= start <= |s| <= end ==> r == s[start..]
    ensures start < 0 && 0 <= |s| + start <= end <= |s| ==> r == s[|s| + start..end]
    ensures start < 0 && |s| + start < 0 && 0 <= end <= |s| ==> r == s[..end]
    ensures end < 0 && |s| + end <= 0 ==> r == []
  {
    var from := if start < 0 then (if |s| + start < 0 then 0 else |s| + start)
                else if start < |s| then start else |s|;
    var to := if end < 0 then (if |s| + end < 0 then 0 else |s| + end)
              else if end < |s| then end else |s|;
    if from < to then s[from..to] else []
  }

  /** Σ close·vol over `s`, folded from the left from 0 as `reduce` does. */
  function SumPriceVolume(s: seq<Quotation>): real
  {
    if s == [] then 0.0 else SumPriceVolume(s[..|s| - 1]) + s[|s| - 1].close * s[|s| - 1].vol
  }

  /** Σ vol over `s`, folded from the left from 0. */
  function SumVolume(s: seq<Quotation>): real
  {
    if s == [] then 0.0 else SumVolume(s[..|s| - 1]) + s[|s| - 1].vol
  }

  /** The left folds equal the right folds: the sums do not depend on the fold's direction. */
  lemma {:induction false} SumsFromFront(s: seq<Quotation>)
    requires s != []
    ensures SumPriceVolume(s) == s[0].close * s[0].vol + SumPriceVolume(s[1..])
    ensures SumVolume(s) == s[0].vol + SumVolume(s[1..])
  {
    var n := |s| - 1;
    if n > 0 {
      assert s[..n][1..] == s[1..][..n - 1];
      SumsFromFront(s[..n]);
    } else {
      assert s[..n] == [] && s[1..] == [];
    }
  }

  /** The value pushed for one window: undefined when the volumes sum to zero. */
  function WeightedMean(w: seq<Quotation>): (m: Option<real>)
    ensures m.None? <==> SumVolume(w) == 0.0
    ensures m.Some? ==> m.value * SumVolume(w) == SumPriceVolume(w)
  {
    var sumVolume := SumVolume(w);
    if sumVolume == 0.0 then None else Some(SumPriceVolume(w) / sumVolume)
  }

  /** Entry `i` of the series: warm-up, then the window [i - period + 1, i]. */
  function VwmaAt(data: seq<Quotation>, period: int, i: nat): Option<real>
    requires i < |data|
  {
    if i < period - 1 then None
    else WeightedMean(Slice(data, i - period + 1, i + 1))
  }

  /** The whole series, aligned position by position with `data`. */
  function Vwma(data: seq<Quotation>, period: int): seq<Option<real>>
  {
    seq(|data|, i requires 0 <= i < |data| => VwmaAt(data, period, i))
  }

  /** `calculateVWMA`: one push per quotation, each window summed afresh. */
  method CalculateVWMA(data: seq<Quotation>, period: int) returns (result: seq<Option<real>>)
    ensures result == Vwma(data, period)
    ensures |result| == |data|
    ensures forall i | 0 <= i < |data| && i < period - 1 :: result[i] == None
    ensures forall i | 0 <= i < |data| && 1 <= period <= i + 1 ::
              result[i] == WeightedMean(data[i - period + 1 .. i + 1])
    ensures period <= 0 ==> forall i | 0 <= i < |data| :: result[i] == None
  {
    result := [];
    for i := 0 to |data|
      invariant |result| == i
      invariant forall k | 0 <= k < i :: result[k] == VwmaAt(data, period, k)
    {
      if i < period - 1 {
        result := result + [None];
        continue;
      }
      var slice := Slice(data, i - period + 1, i + 1);
      var sumPriceVolume := SumPriceVolume(slice);
      var sumVolume := SumVolume(slice);
      if sumVolume == 0.0 {
        result := result + [None];
      } else {
        result := result + [Some(sumPriceVolume / sumVolume)];
      }
    }
  }

  /** The value the status panel treats as an indicator's latest one. */
  function LastValue(data: seq<Quotation>, period: int): (v: Option<real>)
    ensures |data| == 0 ==> v == None
    ensures |data| > 0 ==> v == Vwma(data, period)[|data| - 1]
  {
    if |data| == 0 then None else VwmaAt(data, period, |data| - 1)
  }

  /** Appending quotations never changes an entry that was already computed. */
  lemma {:induction false} PrefixStable(data: seq<Quotation>, more: seq<Quotation>, period: int)
    ensures |Vwma(data + more, period)| == |data| + |more|
    ensures Vwma(data + more, period)[..|data|] == Vwma(data, period)
  {
    var all := data + more;
    forall i | 0 <= i < |data|
      ensures VwmaAt(all, period, i) == VwmaAt(data, period, i)
    {
      if i >= period - 1 {
        if period <= 0 {
          assert Slice(all, i - period + 1, i + 1) == [] == Slice(data, i - period + 1, i + 1);
        } else {
          assert all[i - period + 1 .. i + 1] == data[i - period + 1 .. i + 1];
        }
      }
    }
  }

  /** With more warm-up than data, nothing is defined. */
  lemma PeriodBeyondLength(data: seq<Quotation>, period: int)
    requires period > |data|
    ensures forall i | 0 <= i < |data| :: Vwma(data, period)[i] == None
  {
  }

  /** A non-positive period makes every slice empty, hence every entry undefined. */
  lemma NonPositivePeriod(data: seq<Quotation>, period: int)
    requires period <= 0
    ensures forall i | 0 <= i < |data| :: Vwma(data, period)[i] == None
  {
    forall i | 0 <= i < |data|
      ensures Vwma(data, period)[i] == None
    {
      assert Slice(data, i - period + 1, i + 1) == [];
    }
  }

  /** With period 1 each entry is the quotation's own close, unless its volume is zero. */
  lemma PeriodOne(data: seq<Quotation>, i: nat)
    requires i < |data|
    ensures data[i].vol != 0.0 ==> Vwma(data, 1)[i] == Some(data[i].close)
    ensures data[i].vol == 0.0 ==> Vwma(data, 1)[i] == None
  {
    var w, c, v := Slice(data, i, i + 1), data[i].close, data[i].vol;
    assert w == [data[i]];
    assert w[..0] == [];
    assert SumVolume(w) == v;
    assert SumPriceVolume(w) == c * v;
    assert Vwma(data, 1)[i] == WeightedMean(w);
    if v != 0.0 {
      CancelVolume(c, v);
      assert WeightedMean(w).value == SumPriceVolume(w) / SumVolume(w);
    }
  }

  /** (c·v) / v == c for a non-zero volume. */
  lemma CancelVolume(c: real, v: real)
    requires v != 0.0
    ensures c * v / v == c
  {
  }

  /** The smallest close of a non-empty window. */
  function MinClose(w: seq<Quotation>): (m: real)
    requires w != []
    ensures exists k | 0 <= k < |w| :: w[k].close == m
    ensures forall k | 0 <= k < |w| :: m <= w[k].close
  {
    if |w| == 1 then w[0].close
    else
      var rest := MinClose(w[1..]);
      assert forall k | 1 <= k < |w| :: w[k] == w[1..][k - 1];
      if w[0].close <= rest then w[0].close else rest
  }

  /** The largest close of a non-empty window. */
  function MaxClose(w: seq<Quotation>): (m: real)
    requires w != []
    ensures exists k | 0 <= k < |w| :: w[k].close == m
    ensures forall k | 0 <= k < |w| :: w[k].close <= m
  {
    if |w| == 1 then w[0].close
    else
      var rest := MaxClose(w[1..]);
      assert forall k | 1 <= k < |w| :: w[k] == w[1..][k - 1];
      if rest <= w[0].close then w[0].close else rest
  }

  /** lo·Σvol <= Σclose·vol <= hi·Σvol when volumes are non-negative and closes lie in [lo, hi]. */
  lemma {:induction false} WeightedSumBounds(w: seq<Quotation>, lo: real, hi: real)
    requires forall k | 0 <= k < |w| :: 0.0 <= w[k].vol && lo <= w[k].close <= hi
    ensures 0.0 <= SumVolume(w)
    ensures lo * SumVolume(w) <= SumPriceVolume(w) <= hi * SumVolume(w)
  {
    if w != [] {
      var init, q := w[..|w| - 1], w[|w| - 1];
      WeightedSumBounds(init, lo, hi);
      assert 0.0 <= (q.close - lo) * q.vol;
      assert 0.0 <= (hi - q.close) * q.vol;
      assert lo * (SumVolume(init) + q.vol) == lo * SumVolume(init) + lo * q.vol;
      assert hi * (SumVolume(init) + q.vol) == hi * SumVolume(init) + hi * q.vol;
    }
  }

  /** p / s lies in [lo, hi] when s is positive and lo·s <= p <= hi·s. */
  lemma QuotientBetween(p: real, s: real, lo: real, hi: real)
    requires 0.0 < s && lo * s <= p <= hi * s
    ensures lo <= p / s <= hi
  {
    assert p / s * s == p;
  }

  /** The weighted mean of a window whose volumes are non-negative and whose closes lie in [lo, hi] lies in [lo, hi]. */
  lemma MeanBetween(w: seq<Quotation>, lo: real, hi: real)
    requires SumVolume(w) != 0.0
    requires forall k | 0 <= k < |w| :: 0.0 <= w[k].vol && lo <= w[k].close <= hi
    ensures lo <= SumPriceVolume(w) / SumVolume(w) <= hi
  {
    WeightedSumBounds(w, lo, hi);
    QuotientBetween(SumPriceVolume(w), SumVolume(w), lo, hi);
  }

  /** A defined entry over non-negative volumes lies between the window's smallest and largest close. */
  lemma WithinWindowRange(data: seq<Quotation>, period: int, i: nat)
    requires i < |data| && VwmaAt(data, period, i).Some?
    requires forall j | 0 <= j <= i && i - period < j :: 0.0 <= data[j].vol
    ensures 1 <= period <= i + 1
    ensures MinClose(data[i - period + 1 .. i + 1]) <= VwmaAt(data, period, i).value
            <= MaxClose(data[i - period + 1 .. i + 1])
  {
    var w := data[i - period + 1 .. i + 1];
    assert Slice(data, i - period + 1, i + 1) == w;
    MeanBetween(w, MinClose(w), MaxClose(w));
    assert VwmaAt(data, period, i).value == SumPriceVolume(w) / SumVolume(w);
  }

  /** The worked case: closes 10, 20, 30 with volumes 1, 1, 2 and period 2. */
  lemma ThreeQuoteExample()
    ensures Vwma([Quotation(0, 10.0, 1.0, 1, None), Quotation(1, 20.0, 1.0, 1, None),
                  Quotation(2, 30.0, 2.0, 1, None)], 2)
            == [None, Some(15.0), Some(80.0 / 3.0)]
  {
    var data := [Quotation(0, 10.0, 1.0, 1, None), Quotation(1, 20.0, 1.0, 1, None),
                 Quotation(2, 30.0, 2.0, 1, None)];
    var w1, w2 := data[0..2], data[1..3];
    assert Slice(data, 0, 2) == w1 && Slice(data, 1, 3) == w2;
    assert w1[..1] == [data[0]] && w2[..1] == [data[1]];
    assert w1[..1][..0] == [] && w2[..1][..0] == [];
    assert SumPriceVolume(w1[..1]) == 10.0 && SumPriceVolume(w2[..1]) == 20.0;
    assert SumVolume(w1[..1]) == 1.0 && SumVolume(w2[..1]) == 1.0;
    assert SumVolume(w1) == 2.0 && SumPriceVolume(w1) == 30.0;
    assert SumVolume(w2) == 3.0 && SumPriceVolume(w2) == 80.0;
  }

  /** Two zero-volume quotations with period 2: the second entry is undefined, not 0. */
  lemma ZeroVolumeExample()
    ensures Vwma([Quotation(0, 5.0, 0.0, 0, None), Quotation(1, 5.0, 0.0, 0, None)], 2)
            == [None, None]
  {
    var data := [Quotation(0, 5.0, 0.0, 0, None), Quotation(1, 5.0, 0.0, 0, None)];
    assert Slice(data, 0, 2) == data;
    assert data[..1][..0] == [];
    assert SumVolume(data) == 0.0;
  }
}
