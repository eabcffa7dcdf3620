/**
 * The dashboard's state store. Each asynchronous action is one atomic
 * transition, and the remote fetch it awaits is given as its outcome.
 */
module Store {
  import opened Quotes
  import Vwma

  datatype ChartState = ChartState(timeScalePosition: real, isZoomed: bool)

  const DEFAULT_VWMA_PERIOD := 20
  const DEFAULT_CHART_STATE := ChartState(0.0, false)
  const FETCH_FAILED_MESSAGE := "Failed to fetch data"

  /** What `fetchQuotations` produced: a batch, or a thrown value (with its message when it is an Error). */
  datatype FetchOutcome = Fetched(batch: seq<Quotation>) | FetchFailed(message: Option<string>)

  /** The message stored after a failed initial load. */
  function ErrorMessage(message: Option<string>): (m: string)
    ensures message.None? ==> m == FETCH_FAILED_MESSAGE
    ensures message.Some? ==> m == message.value
  {
    match message
    case Some(text) => text
    case None => FETCH_FAILED_MESSAGE
  }

  /** The direction the store should hold for a series: its last `dir`, or 0 when empty. */
  function DirectionOf(quotations: seq<Quotation>): int
  {
    if |quotations| > 0 then quotations[|quotations| - 1].dir else 0
  }

  class CryptoStore {
    var quotations: seq<Quotation>
    var currentDirection: int
    var vwmaPeriod: int
    var isLoading: bool
    var error: Option<string>
    var chartState: ChartState

    /** The direction always agrees with the last quotation (0 when there is none). */
    ghost predicate Valid()
      reads this
    {
      currentDirection == DirectionOf(quotations)
    }

    /** The initial state; the two persisted preferences are given as what was read back, if anything. */
    constructor (storedPeriod: Option<int>, storedChartState: Option<ChartState>)
      ensures Valid()
      ensures quotations == [] && currentDirection == 0 && !isLoading && error == None
      ensures vwmaPeriod == (if storedPeriod.Some? then storedPeriod.value else DEFAULT_VWMA_PERIOD)
      ensures chartState == (if storedChartState.Some? then storedChartState.value else DEFAULT_CHART_STATE)
    {
      quotations := [];
      currentDirection := 0;
      vwmaPeriod := if storedPeriod.Some? then storedPeriod.value else DEFAULT_VWMA_PERIOD;
      isLoading := false;
      error := None;
      chartState := if storedChartState.Some? then storedChartState.value else DEFAULT_CHART_STATE;
    }

    /** `fetchInitialData`: clear the error, load, then replace the series or record the failure. */
    method FetchInitialData(outcome: FetchOutcome)
      requires Valid()
      modifies this
      ensures Valid()
      ensures !isLoading
      ensures vwmaPeriod == old(vwmaPeriod) && chartState == old(chartState)
      ensures outcome.Fetched? ==> quotations == outcome.batch && error == None
      ensures outcome.Fetched? ==>
                currentDirection == (if |outcome.batch| > 0 then outcome.batch[|outcome.batch| - 1].dir else 0)
      ensures outcome.FetchFailed? ==>
                quotations == old(quotations) && currentDirection == old(currentDirection)
                && error == Some(ErrorMessage(outcome.message))
    {
      isLoading, error := true, None;
      match outcome {
        case Fetched(data) =>
          quotations := data;
          isLoading := false;
          currentDirection := if |data| > 0 then data[|data| - 1].dir else 0;
        case FetchFailed(message) =>
          error := Some(ErrorMessage(message));
          isLoading := false;
      }
    }

    /** The lower time bound a poll asks for: the last quotation's time, or none when empty. */
    function PollAfter(): (after: Option<int>)
      reads this
      ensures after.None? <==> |quotations| == 0
      ensures after.Some? ==> after.value == quotations[|quotations| - 1].time
    {
      if |quotations| > 0 then Some(quotations[|quotations| - 1].time) else None
    }

    /**
     * `pollNewData`, given the outcome of fetching after `PollAfter()`: a non-empty
     * batch is appended and its last direction taken; anything else changes nothing.
     */
    method PollNewData(outcome: FetchOutcome)
      requires Valid()
      modifies this
      ensures Valid()
      ensures outcome.Fetched? && |outcome.batch| > 0 ==>
                quotations == old(quotations) + outcome.batch
                && currentDirection == outcome.batch[|outcome.batch| - 1].dir
                && vwmaPeriod == old(vwmaPeriod) && isLoading == old(isLoading)
                && error == old(error) && chartState == old(chartState)
      ensures !(outcome.Fetched? && |outcome.batch| > 0) ==> unchanged(this)
      ensures old(quotations) <= quotations
      ensures Vwma.Vwma(quotations, vwmaPeriod)[..|old(quotations)|] == Vwma.Vwma(old(quotations), vwmaPeriod)
    {
      if outcome.Fetched? && |outcome.batch| > 0 {
        var newData := outcome.batch;
        Vwma.PrefixStable(quotations, newData, vwmaPeriod);
        quotations := quotations + newData;
        currentDirection := newData[|newData| - 1].dir;
      }
    }

    /** `setVWMAPeriod`: the period becomes exactly `period`. */
    method SetVWMAPeriod(period: int)
      modifies this
      ensures vwmaPeriod == period
      ensures quotations == old(quotations) && currentDirection == old(currentDirection)
      ensures isLoading == old(isLoading) && error == old(error) && chartState == old(chartState)
    {
      vwmaPeriod := period;
    }

    /** `setChartState`: the chart state becomes exactly `state`. */
    method SetChartState(state: ChartState)
      modifies this
      ensures chartState == state
      ensures quotations == old(quotations) && currentDirection == old(currentDirection)
      ensures vwmaPeriod == old(vwmaPeriod) && isLoading == old(isLoading) && error == old(error)
    {
      chartState := state;
    }

    /** `resetChartState`: back to position 0, not zoomed. */
    method ResetChartState()
      modifies this
      ensures chartState == ChartState(0.0, false)
      ensures quotations == old(quotations) && currentDirection == old(currentDirection)
      ensures vwmaPeriod == old(vwmaPeriod) && isLoading == old(isLoading) && error == old(error)
    {
      chartState := DEFAULT_CHART_STATE;
    }

    /** `getVWMA`: the series of the stored quotations at the stored period. */
    method GetVWMA() returns (values: seq<Option<real>>)
      ensures values == Vwma.Vwma(quotations, vwmaPeriod)
      ensures |values| == |quotations|
    {
      values := Vwma.CalculateVWMA(quotations, vwmaPeriod);
    }

    /** `getCurrentQuote`: the last quotation, or none exactly when the series is empty. */
    function CurrentQuote(): (q: Option<Quotation>)
      reads this
      ensures q.None? <==> |quotations| == 0
      ensures q.Some? ==> q.value == quotations[|quotations| - 1]
      ensures Valid() && q.Some? ==> q.value.dir == currentDirection
    {
      if |quotations| > 0 then Some(quotations[|quotations| - 1]) else None
    }
  }
}
