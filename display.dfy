/**
 * Text that the source renders with f-string number formatting
 * (`{x:.1%}`, `${x:,.0f}` and the like). The model keeps the number and the
 * format it is shown in instead of the rendered digits.
 */
module Display {

  datatype Shown =
    | Text(s: string)
    /** A ratio rendered as a percentage (`{x:.1%}` or `{x * 100:.1f}%`). */
    | Percent(ratio: real)
    /** A dollar amount rendered with thousands separators. */
    | Dollars(amount: real)
    /** Two pieces of text rendered one after the other. */
    | Cat(left: Shown, right: Shown)
  {
    /** The shown value is fixed text, with no number to format. */
    predicate IsLiteral() {
      match this
      case Text(_) => true
      case Cat(a, b) => a.IsLiteral() && b.IsLiteral()
      case _ => false
    }
  }
}
