/**
 * The VWMA status panel: three strict comparisons of the blue, green and red
 * indicators' latest values, and the signal badge derived from them. The gray
 * indicator is never consulted.
 */
module VwmaStatus {
  import opened Quotes
  import Vwma

  const BLUE_ID := "vwma-blue"
  const GREEN_ID := "vwma-green"
  const RED_ID := "vwma-red"
  const GRAY_ID := "vwma-gray"

  const DEFAULT_BLUE_COLOR := "#0066ff"
  const DEFAULT_GREEN_COLOR := "#00ff00"
  const DEFAULT_RED_COLOR := "#ff0000"

  const NO_DATA_TEXT := "Нет данных"

  datatype Signal = StrongUp | StrongDown | Up | Down | Sideways

  /** The three comparison rows, each true when the first line is strictly above the second. */
  datatype Comparisons = Comparisons(blueAboveGreen: bool, blueAboveRed: bool, greenAboveRed: bool)

  /** What the panel shows: the "no data" card, or the comparisons and the signal. */
  datatype Panel = NoData | Signalled(comparisons: Comparisons, signal: Signal)

  /** The badge's caption; no caption is the "no data" text. */
  function SignalText(s: Signal): (t: string)
    ensures t != NO_DATA_TEXT
  {
    match s
    case StrongUp => "СИЛЬНЫЙ РОСТ"
    case StrongDown => "СИЛЬНОЕ ПАДЕНИЕ"
    case Up => "РОСТ"
    case Down => "ПАДЕНИЕ"
    case Sideways => "БОКОВИК"
  }

  /** Different signals have different captions. */
  lemma SignalTextInjective(s: Signal, u: Signal)
    requires s != u
    ensures SignalText(s) != SignalText(u)
  {
  }

  /** The badge's if/else chain; the first branch that matches wins. */
  function SignalBadge(blueAboveGreen: bool, blueAboveRed: bool, greenAboveRed: bool): (s: Signal)
    ensures s == StrongUp <==> blueAboveGreen && blueAboveRed && greenAboveRed
    ensures s == StrongDown <==> !blueAboveGreen && !blueAboveRed && !greenAboveRed
    ensures s == Up <==> blueAboveGreen && greenAboveRed && !blueAboveRed
    ensures s == Down <==> !blueAboveGreen && !greenAboveRed && blueAboveRed
    ensures s == Sideways <==> blueAboveGreen != greenAboveRed
  {
    if blueAboveGreen && blueAboveRed && greenAboveRed then StrongUp
    else if !blueAboveGreen && !blueAboveRed && !greenAboveRed then StrongDown
    else if blueAboveGreen && greenAboveRed then Up
    else if !blueAboveGreen && !greenAboveRed then Down
    else Sideways
  }

  /** `lastValues.get(id)`: a missing key reads as undefined. */
  function LastValueOf(lastValues: map<string, Option<real>>, id: string): (v: Option<real>)
    ensures id !in lastValues ==> v == None
    ensures id in lastValues ==> v == lastValues[id]
  {
    if id in lastValues then lastValues[id] else None
  }

  /** The panel for given blue, green and red latest values. */
  function Classify(blue: Option<real>, green: Option<real>, red: Option<real>): (p: Panel)
    ensures p.NoData? <==> blue.None? || green.None? || red.None?
    ensures p.Signalled? ==> p.comparisons.blueAboveGreen == (blue.value > green.value)
    ensures p.Signalled? ==> p.comparisons.blueAboveRed == (blue.value > red.value)
    ensures p.Signalled? ==> p.comparisons.greenAboveRed == (green.value > red.value)
    ensures p.Signalled? ==> p.signal in {StrongUp, StrongDown, Sideways}
    ensures p.Signalled? ==> (p.signal == StrongUp <==> blue.value > green.value > red.value)
    ensures p.Signalled? ==> (p.signal == StrongDown <==> blue.value <= green.value <= red.value)
  {
    if !(blue.Some? && green.Some? && red.Some?) then NoData
    else
      var flags := Comparisons(blue.value > green.value, blue.value > red.value, green.value > red.value);
      Signalled(flags, SignalBadge(flags.blueAboveGreen, flags.blueAboveRed, flags.greenAboveRed))
  }

  /** The panel as the component derives it from the map of latest values. */
  function StatusPanel(lastValues: map<string, Option<real>>): (p: Panel)
    ensures p.NoData? <==>
      LastValueOf(lastValues, BLUE_ID).None? || LastValueOf(lastValues, GREEN_ID).None?
      || LastValueOf(lastValues, RED_ID).None?
  {
    Classify(LastValueOf(lastValues, BLUE_ID), LastValueOf(lastValues, GREEN_ID),
             LastValueOf(lastValues, RED_ID))
  }

  /** The text the panel shows: the "no data" line, or the signal badge's caption. */
  function PanelText(p: Panel): (t: string)
    ensures t == NO_DATA_TEXT <==> p.NoData?
    ensures p.Signalled? ==> t == SignalText(p.signal)
  {
    match p
    case NoData => NO_DATA_TEXT
    case Signalled(_, signal) => SignalText(signal)
  }

  /** For real values `>` is transitive, so the "РОСТ" and "ПАДЕНИЕ" branches are never taken. */
  lemma UpAndDownUnreachable(blue: real, green: real, red: real)
    ensures SignalBadge(blue > green, blue > red, green > red) != Up
    ensures SignalBadge(blue > green, blue > red, green > red) != Down
  {
  }

  /** Equal values compare as "not above", so a three-way tie reads as a strong fall. */
  lemma TieIsStrongDown(v: real)
    ensures Classify(Some(v), Some(v), Some(v)) == Signalled(Comparisons(false, false, false), StrongDown)
  {
  }

  /** The gray indicator's value never changes the panel. */
  lemma GrayIgnored(lastValues: map<string, Option<real>>, gray: Option<real>)
    ensures StatusPanel(lastValues[GRAY_ID := gray]) == StatusPanel(lastValues)
  {
  }

  /** The literal cases: 3 > 2 > 1 rises strongly, 1 < 2 < 3 falls strongly, blue 2 / green 3 / red 1 is sideways. */
  lemma LiteralCases()
    ensures Classify(Some(3.0), Some(2.0), Some(1.0)).signal == StrongUp
    ensures Classify(Some(1.0), Some(2.0), Some(3.0)).signal == StrongDown
    ensures Classify(Some(2.0), Some(3.0), Some(1.0)) == Signalled(Comparisons(false, true, true), Sideways)
  {
  }

  /** `vwmaIndicators.find(ind => ind.id === id)`: the first indicator with that id. */
  function FindIndicator(indicators: seq<VWMAIndicator>, id: string): (r: Option<VWMAIndicator>)
    ensures r.None? <==> forall k | 0 <= k < |indicators| :: indicators[k].id != id
    ensures r.Some? ==> exists k | 0 <= k < |indicators| ::
              indicators[k] == r.value && r.value.id == id
              && forall j | 0 <= j < k :: indicators[j].id != id
  {
    if indicators == [] then None
    else if indicators[0].id == id then Some(indicators[0])
    else
      var r := FindIndicator(indicators[1..], id);
      assert forall k | 1 <= k < |indicators| :: indicators[k] == indicators[1..][k - 1];
      r
  }

  /** `indicator?.color || fallback`: a missing indicator or an empty colour gives the fallback. */
  function ColorOr(indicators: seq<VWMAIndicator>, id: string, fallback: string): (c: string)
    ensures (forall k | 0 <= k < |indicators| :: indicators[k].id != id) ==> c == fallback
    ensures c == fallback || exists k | 0 <= k < |indicators| :: indicators[k].id == id && indicators[k].color == c
    ensures var r := FindIndicator(indicators, id);
            r.Some? && r.value.color != "" ==> c == r.value.color
    ensures var r := FindIndicator(indicators, id);
            r.Some? && r.value.color == "" ==> c == fallback
  {
    match FindIndicator(indicators, id)
    case Some(indicator) => if indicator.color != "" then indicator.color else fallback
    case None => fallback
  }

  /** The three colours the comparison rows use, with the panel's defaults. */
  function PanelColors(indicators: seq<VWMAIndicator>): (colors: (string, string, string))
    ensures indicators == [] ==> colors == (DEFAULT_BLUE_COLOR, DEFAULT_GREEN_COLOR, DEFAULT_RED_COLOR)
    ensures (forall k | 0 <= k < |indicators| :: indicators[k].id != BLUE_ID) ==> colors.0 == DEFAULT_BLUE_COLOR
    ensures (forall k | 0 <= k < |indicators| :: indicators[k].id != GREEN_ID) ==> colors.1 == DEFAULT_GREEN_COLOR
    ensures (forall k | 0 <= k < |indicators| :: indicators[k].id != RED_ID) ==> colors.2 == DEFAULT_RED_COLOR
    ensures var r := FindIndicator(indicators, BLUE_ID);
            r.Some? && r.value.color != "" ==> colors.0 == r.value.color
    ensures var r := FindIndicator(indicators, GREEN_ID);
            r.Some? && r.value.color != "" ==> colors.1 == r.value.color
    ensures var r := FindIndicator(indicators, RED_ID);
            r.Some? && r.value.color != "" ==> colors.2 == r.value.color
  {
    (ColorOr(indicators, BLUE_ID, DEFAULT_BLUE_COLOR),
     ColorOr(indicators, GREEN_ID, DEFAULT_GREEN_COLOR),
     ColorOr(indicators, RED_ID, DEFAULT_RED_COLOR))
  }

  /**
   * Under the assumption that an indicator's latest value is the last entry of its
   * VWMA series, a series shorter than any of the three periods gives no signal.
   */
  lemma ShortHistoryHasNoSignal(data: seq<Quotation>, bluePeriod: int, greenPeriod: int, redPeriod: int)
    requires |data| < bluePeriod || |data| < greenPeriod || |data| < redPeriod
    ensures Classify(Vwma.LastValue(data, bluePeriod), Vwma.LastValue(data, greenPeriod),
                     Vwma.LastValue(data, redPeriod)) == NoData
  {
  }
}
