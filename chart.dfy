/**
 * The series the chart component hands to the chart library: the price
 * line, the coloured volume histogram and the VWMA line.
 */
module ChartData {
  import opened Quotes
  import Vwma

  datatype LinePoint = LinePoint(time: int, value: real)

  /** '#26a69a' for a bar at or above its reference close, '#ef5350' below it. */
  datatype BarColor = Rising | Falling

  datatype VolumeBar = VolumeBar(time: int, value: real, color: BarColor)

  /** `chartData`: one point per quotation, valued at its close. */
  function PriceSeries(quotations: seq<Quotation>): (points: seq<LinePoint>)
    ensures |points| == |quotations|
    ensures forall i | 0 <= i < |quotations| ::
              points[i] == LinePoint(quotations[i].time, quotations[i].close)
  {
    if quotations == [] then []
    else
      var last := quotations[|quotations| - 1];
      PriceSeries(quotations[..|quotations| - 1]) + [LinePoint(last.time, last.close)]
  }

  /**
   * The colour of bar `i`: its close against the previous close, where a missing
   * or zero (falsy) previous close falls back to the bar's own close.
   */
  function BarColorAt(quotations: seq<Quotation>, i: nat): (c: BarColor)
    requires i < |quotations|
    ensures c == Falling <==>
              i > 0 && quotations[i - 1].close != 0.0 && quotations[i].close < quotations[i - 1].close
  {
    var reference := if i > 0 && quotations[i - 1].close != 0.0 then quotations[i - 1].close
                     else quotations[i].close;
    if quotations[i].close >= reference then Rising else Falling
  }

  /** `volumeData`: one bar per quotation, valued at its volume. */
  function VolumeSeries(quotations: seq<Quotation>): (bars: seq<VolumeBar>)
    ensures |bars| == |quotations|
    ensures forall i | 0 <= i < |quotations| ::
              bars[i] == VolumeBar(quotations[i].time, quotations[i].vol, BarColorAt(quotations, i))
  {
    if quotations == [] then []
    else
      var n := |quotations| - 1;
      var init := quotations[..n];
      assert forall i | 0 <= i < n :: BarColorAt(init, i) == BarColorAt(quotations, i);
      VolumeSeries(init) + [VolumeBar(quotations[n].time, quotations[n].vol, BarColorAt(quotations, n))]
  }

  /** The first bar has no predecessor, so it is always drawn rising. */
  lemma FirstBarRises(quotations: seq<Quotation>)
    requires quotations != []
    ensures VolumeSeries(quotations)[0].color == Rising
  {
  }

  /** The ascending positions whose value is defined. */
  function DefinedIndices(values: seq<Option<real>>): (ix: seq<nat>)
    ensures forall k | 0 <= k < |ix| :: ix[k] < |values| && values[ix[k]].Some?
    ensures forall k, l | 0 <= k < l < |ix| :: ix[k] < ix[l]
    ensures forall i | 0 <= i < |values| && values[i].Some? :: i in ix
  {
    if values == [] then []
    else
      var n := |values| - 1;
      var init := DefinedIndices(values[..n]);
      if values[n].Some? then init + [n] else init
  }

  /** The map-then-filter of `vwmaData` over aligned quotations and values. */
  function DefinedPoints(quotations: seq<Quotation>, values: seq<Option<real>>): (points: seq<LinePoint>)
    requires |quotations| == |values|
    ensures |points| == |DefinedIndices(values)| <= |values|
  {
    if values == [] then []
    else
      var n := |values| - 1;
      var init := DefinedPoints(quotations[..n], values[..n]);
      if values[n].Some? then init + [LinePoint(quotations[n].time, values[n].value)] else init
  }

  /** The filtered line holds exactly the defined positions, in order, each with its own time and value. */
  lemma {:induction false} DefinedPointsAt(quotations: seq<Quotation>, values: seq<Option<real>>)
    requires |quotations| == |values|
    ensures |DefinedPoints(quotations, values)| == |DefinedIndices(values)|
    ensures forall k | 0 <= k < |DefinedIndices(values)| ::
              var i := DefinedIndices(values)[k];
              DefinedPoints(quotations, values)[k] == LinePoint(quotations[i].time, values[i].value)
  {
    if values != [] {
      var n := |values| - 1;
      DefinedPointsAt(quotations[..n], values[..n]);
    }
  }

  /** `vwmaData`: the VWMA series at `period`, undefined entries dropped, order kept. */
  function VwmaLine(quotations: seq<Quotation>, period: int): (points: seq<LinePoint>)
    ensures var ix := DefinedIndices(Vwma.Vwma(quotations, period));
            |points| == |ix|
            && forall k | 0 <= k < |ix| ::
                 points[k] == LinePoint(quotations[ix[k]].time, Vwma.Vwma(quotations, period)[ix[k]].value)
  {
    var values := Vwma.Vwma(quotations, period);
    DefinedPointsAt(quotations, values);
    DefinedPoints(quotations, values)
  }
}
