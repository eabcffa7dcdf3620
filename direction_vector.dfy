/**
 * The direction widget: an arrow that points up for `dir == 1` and down for
 * every other value, or a "no data" placeholder when there is no quotation.
 */
module DirectionVector {
  import opened Quotes
  import Store

  const UP_COLOR := "#22c55e"
  const DOWN_COLOR := "#ef4444"

  datatype Direction = Up | Down

  /** The arrow's locals, each set once by the if/else, and the two SVG colours derived from `direction`. */
  datatype Arrow = Arrow(direction: Direction, textClass: string, rotation: int, caption: string,
                         strokeColor: string, fillColor: string)

  datatype View = Placeholder | Vector(arrow: Arrow)

  const PLACEHOLDER_TEXT := "Нет данных"

  /** The widget for the store's current quotation. */
  function DirectionView(currentQuote: Option<Quotation>): (v: View)
    ensures v.Placeholder? <==> currentQuote.None?
    ensures v.Vector? ==> (v.arrow.direction == Up <==> currentQuote.value.dir == 1)
    ensures v.Vector? ==> (v.arrow.rotation == 0 <==> v.arrow.direction == Up)
    ensures v.Vector? ==> v.arrow.rotation in {0, 180}
    ensures v.Vector? ==> (v.arrow.caption == "ВВЕРХ" <==> v.arrow.direction == Up)
    ensures v.Vector? ==> (v.arrow.textClass == "text-green-500" <==> v.arrow.direction == Up)
    ensures v.Vector? ==> (v.arrow.strokeColor == UP_COLOR <==> v.arrow.direction == Up)
    ensures v.Vector? ==> (v.arrow.fillColor == UP_COLOR <==> v.arrow.direction == Up)
  {
    match currentQuote
    case None => Placeholder
    case Some(quote) =>
      var (direction, textClass, rotation, caption) :=
        if quote.dir == 1 then (Up, "text-green-500", 0, "ВВЕРХ")
        else (Down, "text-red-500", 180, "ВНИЗ");
      var shade := if direction == Up then UP_COLOR else DOWN_COLOR;
      Vector(Arrow(direction, textClass, rotation, caption, shade, shade))
  }

  /** The widget's text: the placeholder line, or the arrow's caption. */
  function ViewText(v: View): (t: string)
    ensures v.Placeholder? ==> t == PLACEHOLDER_TEXT
    ensures v.Vector? ==> t == v.arrow.caption
  {
    match v
    case Placeholder => PLACEHOLDER_TEXT
    case Vector(arrow) => arrow.caption
  }

  /** The text shown for a quotation never reads as the placeholder, and is "ВВЕРХ" exactly for `dir == 1`. */
  lemma QuoteTextIsCaption(q: Quotation)
    ensures ViewText(DirectionView(Some(q))) != PLACEHOLDER_TEXT
    ensures ViewText(DirectionView(Some(q))) == "ВВЕРХ" <==> q.dir == 1
  {
  }

  /** A `dir` of 0, 2 or -1 all point down. */
  lemma OtherDirectionsPointDown(q: Quotation)
    requires q.dir != 1
    ensures DirectionView(Some(q)) == Vector(Arrow(Down, "text-red-500", 180, "ВНИЗ", DOWN_COLOR, DOWN_COLOR))
  {
  }

  /** Fed from a consistent store, the arrow points up exactly when the stored direction is 1. */
  lemma ArrowAgreesWithStore(store: Store.CryptoStore)
    requires store.Valid()
    ensures DirectionView(store.CurrentQuote()).Placeholder? <==> |store.quotations| == 0
    ensures DirectionView(store.CurrentQuote()).Vector? ==>
              (DirectionView(store.CurrentQuote()).arrow.direction == Up <==> store.currentDirection == 1)
  {
  }
}
