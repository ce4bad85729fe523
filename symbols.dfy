/** The nine reel symbols, premium to filler; `Seven` is the enum's default value. */
module Symbols {

  datatype SlotSymbol =
    | Seven
    | Bar
    | Diamond
    | Bell
    | Cherry
    | Lemon
    | Watermelon
    | Grapes
    | Orange

  /** C#'s `default(SlotSymbol)`: the member whose underlying value is 0. */
  const DefaultSymbol: SlotSymbol := Seven
}
