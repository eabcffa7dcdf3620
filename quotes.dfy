/**
 * The records shared by the dashboard's modules: one quotation of the
 * price/volume/direction feed and one configured VWMA indicator.
 */
module Quotes {

  /** `undefined`/`null` in the dashboard becomes `None`. */
  datatype Option<+T> = None | Some(value: T)

  /**
   * One record of the feed. `time` is an integer instant (the dashboard keeps a
   * Date and hands seconds to the chart); `dir` is 1 for "up", anything else for
   * "down"; `liq` may be missing.
   */
  datatype Quotation = Quotation(time: int, close: real, vol: real, dir: int, liq: Option<real>)

  /** One VWMA overlay as configured in the indicator editor. */
  datatype VWMAIndicator = VWMAIndicator(id: string, period: int, color: string, visible: bool)
}
