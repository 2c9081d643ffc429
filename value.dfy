/**
 * Runtime values of the Lox evaluator and the operators over them.
 *
 * Every operator is partial: `None` means "undefined for these kinds of
 * operands", which the expression evaluator turns into a runtime error.
 * Numbers are modelled as exact reals. The string arena (`Rodeo`) is a
 * read-only map from handles to the interned text.
 */
module Values {
  import opened Wrappers
  import opened Numerals
  import Tokens

  /** An interned-string handle (`Spur`), shown by its number. */
  type Handle = nat

  /** The string arena, only ever read by the operators. */
  type Arena = map<Handle, string>

  /** Interning: distinct handles hold distinct text. */
  predicate Interned(arena: Arena) {
    forall h1, h2 :: h1 in arena && h2 in arena && h1 != h2 ==> arena[h1] != arena[h2]
  }

  /**
   * `Object` and the two function kinds carry payloads that are not part of
   * this model; they are kept as opaque identities.
   */
  datatype Value =
    | Nil
    | Bool(b: bool)
    | Number(n: real)
    | String(s: string)
    | Object(id: nat)
    | Function(name: Handle)
    | NativeFunction(name: Handle)
    | StringLiteral(spur: Handle)

  /** The two representations of Lox strings. */
  predicate IsText(v: Value) {
    v.String? || v.StringLiteral?
  }

  predicate IsCallable(v: Value) {
    v.Function? || v.NativeFunction?
  }

  /** A literal's handle can be resolved in the arena. */
  predicate Resolvable(v: Value, arena: Arena) {
    v.StringLiteral? ==> v.spur in arena
  }

  /** The text a string value stands for, whichever representation it uses. */
  function Text(v: Value, arena: Arena): string
    requires IsText(v) && Resolvable(v, arena)
  {
    if v.String? then v.s else arena[v.spur]
  }

  // ---------------------------------------------------------------------
  // Truthiness and unary operators
  // ---------------------------------------------------------------------

  /** Only `nil` and `false` are falsy. */
  function Truthiness(v: Value): (r: bool)
    ensures !r <==> v == Nil || v == Bool(false)
  {
    match v
    case Nil => false
    case Bool(b) => b
    case _ => true
  }

  /** Unary `!`: defined for every value. */
  function Not(v: Value): (r: Option<Value>)
    ensures r.Some? && r.value.Bool?
    ensures r.value.b <==> v == Nil || v == Bool(false)
  {
    Some(Bool(!Truthiness(v)))
  }

  /** Negating twice normalises a value to its truthiness. */
  lemma NotNot(v: Value)
    ensures Not(Not(v).value) == Some(Bool(Truthiness(v)))
  {
  }

  /** Unary `-`: defined for numbers only. */
  function Minus(v: Value): (r: Option<Value>)
    ensures r.Some? <==> v.Number?
    ensures r.Some? ==> r.value.Number? && r.value.n + v.n == 0.0
  {
    match v
    case Number(n) => Some(Number(-n))
    case _ => None
  }

  /** Unary `-` is an involution on numbers. */
  lemma MinusInvolution(v: Value)
    requires v.Number?
    ensures Minus(Minus(v).value) == Some(v)
  {
  }

  // ---------------------------------------------------------------------
  // Arithmetic
  // ---------------------------------------------------------------------

  /**
   * Binary `+` as written: numbers add; a `String` on the left concatenates
   * with a `String` or a `StringLiteral` on the right; nothing else,
   * in particular not a `StringLiteral` on the left.
   */
  function Add(a: Value, b: Value, arena: Arena): (r: Option<Value>)
    requires a.String? && b.StringLiteral? ==> b.spur in arena
    ensures r.Some? <==> (a.Number? && b.Number?) || (a.String? && IsText(b))
    ensures a.Number? && b.Number? ==> r == Some(Number(a.n + b.n))
    ensures a.String? && IsText(b) ==> r == Some(String(a.s + Text(b, arena)))
  {
    match (a, b)
    case (Number(x), Number(y)) => Some(Number(x + y))
    case (String(x), String(y)) => Some(String(x + y))
    case (String(x), StringLiteral(h)) => Some(String(x + arena[h]))
    case _ => None
  }

  /** Binary `-`: numbers only. */
  function Sub(a: Value, b: Value): (r: Option<Value>)
    ensures r.Some? <==> a.Number? && b.Number?
    ensures r.Some? ==> r.value.Number? && r.value.n + b.n == a.n
  {
    match (a, b)
    case (Number(x), Number(y)) => Some(Number(x - y))
    case _ => None
  }

  /** Binary `*`: numbers only. */
  function Mul(a: Value, b: Value): (r: Option<Value>)
    ensures r.Some? <==> a.Number? && b.Number?
    ensures r.Some? ==> r.value == Number(a.n * b.n)
  {
    match (a, b)
    case (Number(_), Number(_)) => Some(Number(a.n * b.n))
    case _ => None
  }

  /** Binary `/`: numbers only; a zero divisor is outside the exact-real model. */
  function Div(a: Value, b: Value): (r: Option<Value>)
    requires a.Number? && b.Number? ==> b.n != 0.0
    ensures r.Some? <==> a.Number? && b.Number?
    ensures r.Some? ==> r.value.Number? && r.value.n * b.n == a.n
  {
    match (a, b)
    case (Number(x), Number(y)) => Some(Number(x / y))
    case _ => None
  }

  /** Subtraction undoes addition of numbers. */
  lemma SubUndoesAdd(a: Value, b: Value, arena: Arena)
    requires a.Number? && b.Number?
    ensures Sub(Add(a, b, arena).value, b) == Some(a)
  {
  }

  /** Division undoes multiplication by a non-zero number. */
  lemma DivUndoesMul(a: Value, b: Value)
    requires a.Number? && b.Number? && b.n != 0.0
    ensures Div(Mul(a, b).value, b) == Some(a)
  {
    var x, y := a.n, b.n;
    var q := (x * y) / y;
    assert q * y == x * y;
    assert (q - x) * y == 0.0;
    assert Mul(a, b).value == Number(x * y);
  }

  // ---------------------------------------------------------------------
  // Equality
  // ---------------------------------------------------------------------

  /**
   * Binary `==`. `Object == Object` panics (`unimplemented!`) in the
   * source, hence the precondition; mixed string representations resolve
   * their literal.
   */
  function Eq(a: Value, b: Value, arena: Arena): (r: Option<Value>)
    requires !(a.Object? && b.Object?)
    requires a.String? && b.StringLiteral? ==> b.spur in arena
    requires a.StringLiteral? && b.String? ==> a.spur in arena
    ensures r.Some? && r.value.Bool?
    ensures r.value.b ==> Name(a) == Name(b)
  {
    match (a, b)
    case (Nil, Nil) => Some(Bool(true))
    case (Bool(x), Bool(y)) => Some(Bool(x == y))
    case (Number(x), Number(y)) => Some(Bool(x == y))
    case (String(x), String(y)) => Some(Bool(x == y))
    case (String(x), StringLiteral(h)) => Some(Bool(x == arena[h]))
    case (StringLiteral(h), String(y)) => Some(Bool(arena[h] == y))
    case (StringLiteral(h1), StringLiteral(h2)) => Some(Bool(h1 == h2))
    case _ => Some(Bool(false))
  }

  /** The reference notion of equal values: same kind and same content. */
  predicate SameValue(a: Value, b: Value, arena: Arena)
    requires Resolvable(a, arena) && Resolvable(b, arena)
  {
    || (a.Nil? && b.Nil?)
    || (a.Bool? && b.Bool? && a.b == b.b)
    || (a.Number? && b.Number? && a.n == b.n)
    || (IsText(a) && IsText(b) && Text(a, arena) == Text(b, arena))
  }

  /**
   * With interned literals, `==` is exactly `SameValue`: strings compare by
   * text whatever their representation, and functions never compare equal.
   */
  lemma EqIsSameValue(a: Value, b: Value, arena: Arena)
    requires Interned(arena)
    requires !(a.Object? && b.Object?)
    requires Resolvable(a, arena) && Resolvable(b, arena)
    ensures Eq(a, b, arena).value.b <==> SameValue(a, b, arena)
  {
    if a.StringLiteral? && b.StringLiteral? && a.spur != b.spur {
      assert arena[a.spur] != arena[b.spur];
    }
  }

  /** `==` is symmetric, including across the two string representations. */
  lemma EqSymmetric(a: Value, b: Value, arena: Arena)
    requires !(a.Object? && b.Object?)
    requires Resolvable(a, arena) && Resolvable(b, arena)
    ensures Eq(a, b, arena) == Eq(b, a, arena)
  {
  }

  /** Binary `!=`: the negation of `==`. */
  function Neq(a: Value, b: Value, arena: Arena): (r: Option<Value>)
    requires !(a.Object? && b.Object?)
    requires a.String? && b.StringLiteral? ==> b.spur in arena
    requires a.StringLiteral? && b.String? ==> a.spur in arena
    ensures r.Some? && r.value.Bool?
    ensures r.value.b <==> !Eq(a, b, arena).value.b
  {
    var e := Eq(a, b, arena);
    Not(e.value)
  }

  // ---------------------------------------------------------------------
  // Comparison
  // ---------------------------------------------------------------------

  /** Binary `>`: numbers only. */
  function Gt(a: Value, b: Value): (r: Option<Value>)
    ensures r.Some? <==> a.Number? && b.Number?
    ensures r.Some? ==> r.value.Bool? && (r.value.b <==> a.n > b.n)
  {
    match (a, b)
    case (Number(x), Number(y)) => Some(Bool(x > y))
    case _ => None
  }

  /** Binary `>=`: numbers only. */
  function Ge(a: Value, b: Value): (r: Option<Value>)
    ensures r.Some? <==> a.Number? && b.Number?
    ensures r.Some? ==> r.value.Bool? && (r.value.b <==> a.n >= b.n)
  {
    match (a, b)
    case (Number(x), Number(y)) => Some(Bool(x >= y))
    case _ => None
  }

  /** Binary `<`: numbers only. */
  function Lt(a: Value, b: Value): (r: Option<Value>)
    ensures r.Some? <==> a.Number? && b.Number?
    ensures r.Some? ==> r.value.Bool? && (r.value.b <==> a.n < b.n)
  {
    match (a, b)
    case (Number(x), Number(y)) => Some(Bool(x < y))
    case _ => None
  }

  /** Binary `<=`: numbers only. */
  function Le(a: Value, b: Value): (r: Option<Value>)
    ensures r.Some? <==> a.Number? && b.Number?
    ensures r.Some? ==> r.value.Bool? && (r.value.b <==> a.n <= b.n)
  {
    match (a, b)
    case (Number(x), Number(y)) => Some(Bool(x <= y))
    case _ => None
  }

  /**
   * The comparisons are mirror images of each other, a strict comparison
   * implies the non-strict one, and `<=` together with `>=` means `==`.
   */
  lemma ComparisonsAgree(a: Value, b: Value, arena: Arena)
    requires a.Number? && b.Number?
    ensures Lt(a, b) == Gt(b, a) && Le(a, b) == Ge(b, a)
    ensures Lt(a, b).value.b ==> Le(a, b).value.b
    ensures Le(a, b).value.b && Ge(a, b).value.b <==> Eq(a, b, arena).value.b
  {
  }

  // ---------------------------------------------------------------------
  // Type names, cloning, display
  // ---------------------------------------------------------------------

  /** The type tag used in runtime error messages. */
  function Name(v: Value): (r: string)
    ensures r in {"<nil>", "<bool>", "<number>", "<string>", "<object>", "<function>"}
    ensures r == "<nil>" <==> v.Nil?
    ensures r == "<bool>" <==> v.Bool?
    ensures r == "<number>" <==> v.Number?
    ensures r == "<string>" <==> IsText(v)
    ensures r == "<object>" <==> v.Object?
    ensures r == "<function>" <==> IsCallable(v)
  {
    match v
    case Nil => "<nil>"
    case Bool(_) => "<bool>"
    case Number(_) => "<number>"
    case String(_) => "<string>"
    case Object(_) => "<object>"
    case Function(_) => "<function>"
    case NativeFunction(_) => "<function>"
    case StringLiteral(_) => "<string>"
  }

  /**
   * Two values share a tag exactly when they are of the same Lox type:
   * the two string representations share one, and so do the two kinds of
   * function.
   */
  lemma NameIdentifiesType(a: Value, b: Value)
    ensures Name(a) == Name(b) <==>
      || (a.Nil? && b.Nil?)
      || (a.Bool? && b.Bool?)
      || (a.Number? && b.Number?)
      || (IsText(a) && IsText(b))
      || (a.Object? && b.Object?)
      || (IsCallable(a) && IsCallable(b))
  {
  }

  /** `Clone`: shares payloads, so the clone is the same value. */
  function Clone(v: Value): (r: Value)
    ensures r == v
  {
    match v
    case Nil => Nil
    case Bool(b) => Bool(b)
    case Number(n) => Number(n)
    case Function(f) => Function(f)
    case NativeFunction(f) => NativeFunction(f)
    case String(s) => String(s)
    case Object(o) => Object(o)
    case StringLiteral(h) => StringLiteral(h)
  }

  /** How a number is written; float formatting is not part of this model. */
  type NumberFormat = real -> string

  /**
   * `Display` for values. A `StringLiteral` shows its handle, not its text,
   * and functions show the handle of their name.
   */
  function Render(v: Value, fmt: NumberFormat): (r: string)
    ensures v.Nil? ==> r == "nil"
    ensures v.Bool? ==> r == if v.b then "true" else "false"
    ensures v.Number? ==> r == fmt(v.n)
    ensures v.String? ==> r == v.s
    ensures v.Object? ==> r == "<object>"
    ensures IsCallable(v) ==> r == "<fun spur|" + Decimal(v.name) + "|>"
    ensures v.StringLiteral? ==> r == "StringLiteral(spur|" + Decimal(v.spur) + "|)"
  {
    match v
    case Nil => "nil"
    case Bool(b) => if b then "true" else "false"
    case Number(n) => fmt(n)
    case String(s) => s
    case Object(_) => "<object>"
    case Function(f) => "<fun spur|" + Decimal(f) + "|>"
    case NativeFunction(f) => "<fun spur|" + Decimal(f) + "|>"
    case StringLiteral(h) => "StringLiteral(spur|" + Decimal(h) + "|)"
  }

  /**
   * `nil`, `true` and `false` print as the keywords that denote them, so
   * printed output of these values reads back as the same literal.
   */
  lemma RenderKeywordValues(b: bool, fmt: NumberFormat)
    ensures Render(Nil, fmt) == Tokens.KeywordSpelling(Tokens.Keyword.Nil)
    ensures Render(Bool(b), fmt) ==
      Tokens.KeywordSpelling(if b then Tokens.Keyword.True else Tokens.Keyword.False)
  {
  }

  // ---------------------------------------------------------------------
  // Concatenation across both string representations
  // ---------------------------------------------------------------------

  /**
   * `Add` leaves a `StringLiteral` on the left undefined although the same
   * text held as a `String` concatenates: the two representations of one
   * Lox string behave differently.
   */
  lemma AddLiteralOnLeftUndefined(h: Handle, s: string, arena: Arena)
    requires h in arena
    ensures Add(String(arena[h]), String(s), arena) == Some(String(arena[h] + s))
    ensures Add(StringLiteral(h), String(s), arena) == None
    ensures Add(StringLiteral(h), StringLiteral(h), arena) == None
    ensures Name(StringLiteral(h)) == Name(String(arena[h]))
  {
  }

  /**
   * Binary `+` with both string representations treated alike, as the
   * definition of `Value` says they must be.
   */
  function AddText(a: Value, b: Value, arena: Arena): (r: Option<Value>)
    requires Resolvable(a, arena) && Resolvable(b, arena)
    ensures r.Some? <==> (a.Number? && b.Number?) || (IsText(a) && IsText(b))
    ensures a.Number? && b.Number? ==> r == Some(Number(a.n + b.n))
    ensures IsText(a) && IsText(b) ==> r == Some(String(Text(a, arena) + Text(b, arena)))
  {
    if IsText(a) && IsText(b) then Some(String(Text(a, arena) + Text(b, arena)))
    else Add(a, b, arena)
  }

  /** `AddText` agrees with `Add` wherever `Add` is defined. */
  lemma AddTextExtendsAdd(a: Value, b: Value, arena: Arena)
    requires Resolvable(a, arena) && Resolvable(b, arena)
    ensures Add(a, b, arena).Some? ==> AddText(a, b, arena) == Add(a, b, arena)
  {
  }

  /**
   * `AddText` sees only the text of its string operands: swapping either
   * operand for an `Eq`-equal string gives the same result.
   */
  lemma {:induction false} AddTextRespectsEq(a: Value, a': Value, b: Value, b': Value, arena: Arena)
    requires Interned(arena)
    requires IsText(a) && IsText(a') && IsText(b) && IsText(b')
    requires Resolvable(a, arena) && Resolvable(a', arena) && Resolvable(b, arena) && Resolvable(b', arena)
    requires Eq(a, a', arena).value.b && Eq(b, b', arena).value.b
    ensures AddText(a, b, arena) == AddText(a', b', arena)
  {
    EqIsSameValue(a, a', arena);
    EqIsSameValue(b, b', arena);
  }
}
