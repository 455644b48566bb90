/** The identifiers and record shapes shared by the screens (src/enums.ts). */
module Enums {

  /** The closed set of screen identifiers. */
  datatype ScreenName = Menu | AceOfShadows | MagicWords | PhoenixFlame

  /** A stack anchor point and its cards, the top of the stack being the last card. */
  datatype CardStack<T> = CardStack(x: real, y: real, cards: seq<T>)
}
