/**
 * The page's handling of the typed grid dimensions: an empty field shows nothing, a
 * field that is not two integers or not two positive integers shows an error, and only
 * a positive pair is rendered, always at the default block size.
 */
module Page {
  import opened Dimensions
  import opened Decimal
  import opened Template

  const InvalidInputMessage: string := "Invalid input. Please enter integers for pixel width and height."

  const NonPositiveMessage: string := "Enter positive numbers for width and height."

  /** What the page does with the field's text. */
  datatype Reaction = NoReaction | ShowError(message: string) | Render(pixelWidth: int, pixelHeight: int, scale: int)

  function SubmitDimensions(text: string): (r: Reaction)
    ensures r == NoReaction <==> text == ""
    ensures r.Render? ==> ValidArgs(r.pixelWidth, r.pixelHeight, r.scale) && r.scale == DefaultScale
    ensures r.Render? <==> ParseDimensions(text).Dims?
    ensures r.ShowError? ==> r.message == InvalidInputMessage || r.message == NonPositiveMessage
    ensures r == ShowError(NonPositiveMessage) <==> ParseDimensions(text) == NonPositive
    ensures r == ShowError(InvalidInputMessage) <==> ParseDimensions(text) == NotTwoIntegers
  {
    match ParseDimensions(text)
    case Empty => NoReaction
    case NotTwoIntegers => ShowError(InvalidInputMessage)
    case NonPositive => ShowError(NonPositiveMessage)
    case Dims(w, h) => Render(w, h, DefaultScale)
  }

  /** The default text renders a 20 by 50 grid. */
  lemma SubmitDefault()
    ensures SubmitDimensions("20 50") == Render(20, 50, DefaultScale)
  {
    DefaultDimensions();
  }

  /** A pair written with a zero or negative number is refused with the positivity message. */
  lemma SubmitNonPositive(w: int, h: int)
    requires w <= 0 || h <= 0
    ensures SubmitDimensions(IntToString(w) + " " + IntToString(h)) == ShowError(NonPositiveMessage)
  {
    ParsesWrittenPair(w, " ", h);
  }

  /** A field with one, three or more whitespace-separated pieces is refused as invalid input. */
  lemma SubmitWrongCount(text: string)
    requires text != "" && |Split(text)| != 2
    ensures SubmitDimensions(text) == ShowError(InvalidInputMessage)
  {
  }
}
