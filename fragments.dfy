/** What one block generator hands back to the code generator. */
module Fragments {

  /** The two precedence tags the slash-command templates use: `Order.ATOMIC`
      is the precedence every template asks its value sockets for, and
      `Order.NONE` is the tag the tagged expression templates return. */
  datatype Order = ATOMIC | NONE

  /** A generator returns either a `[code, order]` pair (an expression) or a
      bare code string (a statement, or an untagged constant). */
  datatype Fragment =
    | Expr(code: string, order: Order)
    | Stmt(code: string)
}
