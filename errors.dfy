/**
 * Runtime errors of the evaluator. Each carries the location of the
 * offending expression; `Loc` reads it uniformly so that a diagnostic can
 * point at the source without inspecting the variant.
 */
module RuntimeErrors {
  import opened Wrappers
  import Tokens

  /** Unary operators as the parser names them. */
  datatype UnaryOp = Bang | Negate

  /** Binary operators as the parser names them. */
  datatype BinaryOp =
    | Plus | Subtract | Star | Slash
    | EqualEqual | BangEqual | Greater | GreaterEqual | Less | LessEqual

  /** The lexer operator each unary operator is scanned from. */
  function UnaryOpToken(op: UnaryOp): Tokens.Operator {
    match op
    case Bang => Tokens.Operator.Bang
    case Negate => Tokens.Operator.Minus
  }

  /** The lexer operator each binary operator is scanned from. */
  function BinaryOpToken(op: BinaryOp): Tokens.Operator {
    match op
    case Plus => Tokens.Operator.Plus
    case Subtract => Tokens.Operator.Minus
    case Star => Tokens.Operator.Star
    case Slash => Tokens.Operator.Slash
    case EqualEqual => Tokens.Operator.EqualEqual
    case BangEqual => Tokens.Operator.BangEqual
    case Greater => Tokens.Operator.Greater
    case GreaterEqual => Tokens.Operator.GreaterEqual
    case Less => Tokens.Operator.Less
    case LessEqual => Tokens.Operator.LessEqual
  }

  /** How a unary operator is written in an error message: the spelling of its token. */
  function UnaryOpSpelling(op: UnaryOp): (s: string)
    ensures Tokens.OperatorFromSpelling(s) == Ok(UnaryOpToken(op))
  {
    Tokens.OperatorRoundTrip(UnaryOpToken(op));
    Tokens.OperatorSpelling(UnaryOpToken(op))
  }

  /** How a binary operator is written in an error message: the spelling of its token. */
  function BinaryOpSpelling(op: BinaryOp): (s: string)
    ensures Tokens.OperatorFromSpelling(s) == Ok(BinaryOpToken(op))
  {
    Tokens.OperatorRoundTrip(BinaryOpToken(op));
    Tokens.OperatorSpelling(BinaryOpToken(op))
  }

  /** Distinct operators are written differently in error messages. */
  lemma OpSpellingsInjective(a: UnaryOp, b: UnaryOp, c: BinaryOp, d: BinaryOp)
    ensures UnaryOpSpelling(a) == UnaryOpSpelling(b) ==> a == b
    ensures BinaryOpSpelling(c) == BinaryOpSpelling(d) ==> c == d
  {
  }

  /**
   * The operand type names are the tags of `Values.Name`; the location is
   * the first field of every variant.
   */
  datatype RuntimeError =
    | InvalidBinaryOp(loc: Tokens.Location, binaryOp: BinaryOp, left: string, right: string)
    | InvalidUnaryOp(loc: Tokens.Location, unaryOp: UnaryOp, operand: string)
    | UndefinedVariable(loc: Tokens.Location, name: string)

  /** `RuntimeError::loc`. */
  function Loc(e: RuntimeError): (r: Tokens.Location)
    ensures r == e.loc
  {
    match e
    case InvalidBinaryOp(loc, _, _, _) => loc
    case InvalidUnaryOp(loc, _, _) => loc
    case UndefinedVariable(loc, _) => loc
  }

  /** What went wrong, closing on the quoted type name or variable name. */
  function Describe(e: RuntimeError): (d: string)
    ensures |d| > 0 && d[|d| - 1] == '\''
  {
    match e
    case InvalidBinaryOp(_, op, l, r) =>
      "Invalid binary operation '" + BinaryOpSpelling(op) + "' between '" + l + "' and '" + r + "'"
    case InvalidUnaryOp(_, op, t) =>
      "Invalid unary operation '" + UnaryOpSpelling(op) + "' on '" + t + "'"
    case UndefinedVariable(_, name) =>
      "Trying to access undefined variable: '" + name + "'"
  }

  /** The `Display` text of an error: its location, then what went wrong. */
  function Message(e: RuntimeError): (r: string)
    ensures Tokens.ShowLocation(Loc(e)) + " RuntimeError: " <= r
    ensures r[|r| - 1] == '\''
    ensures e.InvalidBinaryOp? ==>
      r == Tokens.ShowLocation(e.loc) + " RuntimeError: " +
           ("Invalid binary operation '" + BinaryOpSpelling(e.binaryOp) + "' between '" + e.left + "' and '" + e.right + "'")
    ensures e.InvalidUnaryOp? ==>
      r == Tokens.ShowLocation(e.loc) + " RuntimeError: " +
           ("Invalid unary operation '" + UnaryOpSpelling(e.unaryOp) + "' on '" + e.operand + "'")
    ensures e.UndefinedVariable? ==>
      r == Tokens.ShowLocation(e.loc) + " RuntimeError: " + ("Trying to access undefined variable: '" + e.name + "'")
  {
    Tokens.ShowLocation(Loc(e)) + " RuntimeError: " + Describe(e)
  }

  /**
   * Every message opens with the rendered location of the error, from which
   * the location can be read back.
   */
  lemma MessageLocationReadable(e: RuntimeError)
    ensures Tokens.ShowLocation(Loc(e)) <= Message(e)
    ensures Tokens.ParseLocation(Message(e)[..|Tokens.ShowLocation(Loc(e))|]) == Some(Loc(e))
  {
    var m := Message(e);
    var l := Tokens.ShowLocation(Loc(e));
    assert m[..|l|] == l;
    Tokens.ParseShowLocation(Loc(e));
  }
}
