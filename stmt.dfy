/**
 * Statements and their execution.
 *
 * `Exec` and `ExecSeq` are the meaning of a statement: from a scope stack
 * and the output printed so far, to the new scope stack, the new output and
 * either success or the first runtime error. `Execute` runs a statement
 * against an `Env` updated in place and is proved to follow `Exec`.
 *
 * Expressions are not part of this model: an expression is an opaque
 * handle, evaluated by an `Evaluator` that reads the scope stack and yields
 * a value or a runtime error, and rendered by an `ExprFormat`.
 */
module Statements {
  import opened Wrappers
  import opened Values
  import opened Environment
  import Tokens
  import RuntimeErrors

  type RuntimeError = RuntimeErrors.RuntimeError

  /** An expression tree, known only by identity. */
  datatype Expr = Expr(id: nat)

  /** Expression evaluation against the current scope stack. */
  type Evaluator = (Expr, seq<Scope>) -> Result<Value, RuntimeError>

  /** Expression `Display`. */
  type ExprFormat = Expr -> string

  datatype Stmt =
    | Expression(expr: Expr)
    | Print(loc: Tokens.Location, expr: Expr)
    | Var(loc: Tokens.Location, name: string, init: Option<Expr>)
    | Block(statements: seq<Stmt>)
    | If(loc: Tokens.Location, condition: Expr, thenBranch: Stmt, otherwise: Option<Stmt>)

  /** A parsed program: its statements in source order. */
  datatype Program = Program(statements: seq<Stmt>)

  /** The scope stack and everything printed so far. */
  datatype State = State(scopes: seq<Scope>, out: string)

  /** The state after running, and whether the run ended in an error. */
  datatype Outcome = Outcome(state: State, status: Result<(), RuntimeError>)

  // ---------------------------------------------------------------------
  // Meaning of statements
  // ---------------------------------------------------------------------

  /**
   * `Stmt::execute`. Whatever a statement does, the scope stack keeps its
   * depth, only the innermost scope can change, and output is only ever
   * appended to.
   */
  function Exec(s: Stmt, st: State, eval: Evaluator, fmt: NumberFormat): (o: Outcome)
    requires |st.scopes| > 0
    ensures |o.state.scopes| == |st.scopes|
    ensures o.state.scopes[..|st.scopes| - 1] == st.scopes[..|st.scopes| - 1]
    ensures st.out <= o.state.out
    decreases s
  {
    match s
    case Expression(e) =>
      (match eval(e, st.scopes)
       case Err(x) => Outcome(st, Err(x))
       case Ok(_) => Outcome(st, Ok(())))
    case Print(_, e) =>
      (match eval(e, st.scopes)
       case Err(x) => Outcome(st, Err(x))
       case Ok(v) => Outcome(st.(out := st.out + Render(v, fmt) + "\n"), Ok(())))
    case Var(_, name, init) =>
      if init.None? then Outcome(st.(scopes := DefineIn(st.scopes, name, Nil)), Ok(()))
      else
        (match eval(init.value, st.scopes)
         case Err(x) => Outcome(st, Err(x))
         case Ok(v) => Outcome(st.(scopes := DefineIn(st.scopes, name, Clone(v))), Ok(())))
    case Block(ss) =>
      var inner := ExecSeq(ss, st.(scopes := st.scopes + [map[]]), eval, fmt);
      Outcome(inner.state.(scopes := inner.state.scopes[..|st.scopes|]), inner.status)
    case If(_, c, t, otherwise) =>
      match eval(c, st.scopes)
      case Err(x) => Outcome(st, Err(x))
      case Ok(v) =>
        if Truthiness(v) then Exec(t, st, eval, fmt)
        else if otherwise.Some? then Exec(otherwise.value, st, eval, fmt)
        else Outcome(st, Ok(()))
  }

  /** Statements in order, stopping at the first error. */
  function ExecSeq(ss: seq<Stmt>, st: State, eval: Evaluator, fmt: NumberFormat): (o: Outcome)
    requires |st.scopes| > 0
    ensures |o.state.scopes| == |st.scopes|
    ensures o.state.scopes[..|st.scopes| - 1] == st.scopes[..|st.scopes| - 1]
    ensures st.out <= o.state.out
    decreases ss
  {
    if ss == [] then Outcome(st, Ok(()))
    else
      var first := Exec(ss[0], st, eval, fmt);
      if first.status.Err? then first else ExecSeq(ss[1..], first.state, eval, fmt)
  }

  // ---------------------------------------------------------------------
  // Properties of the meaning
  // ---------------------------------------------------------------------

  /** `Expression` evaluates and discards: only an error is observable. */
  lemma ExpressionDiscards(e: Expr, st: State, eval: Evaluator, fmt: NumberFormat)
    requires |st.scopes| > 0
    ensures eval(e, st.scopes).Ok? ==> Exec(Expression(e), st, eval, fmt) == Outcome(st, Ok(()))
    ensures eval(e, st.scopes).Err? ==> Exec(Expression(e), st, eval, fmt) == Outcome(st, Err(eval(e, st.scopes).error))
  {
  }

  /**
   * `Print` appends the value's `Display` text and a newline, and binds
   * nothing; when the expression fails, nothing is printed and the error is
   * returned.
   */
  lemma PrintAppendsLine(l: Tokens.Location, e: Expr, st: State, eval: Evaluator, fmt: NumberFormat)
    requires |st.scopes| > 0
    ensures eval(e, st.scopes).Ok? ==>
      Exec(Print(l, e), st, eval, fmt) == Outcome(State(st.scopes, st.out + Render(eval(e, st.scopes).value, fmt) + "\n"), Ok(()))
    ensures eval(e, st.scopes).Err? ==>
      Exec(Print(l, e), st, eval, fmt) == Outcome(st, Err(eval(e, st.scopes).error))
  {
  }

  /** `var name;` binds `name` to `nil` in the current scope and leaves every other name alone. */
  lemma VarWithoutInitBindsNil(l: Tokens.Location, name: string, other: string, st: State, eval: Evaluator, fmt: NumberFormat)
    requires |st.scopes| > 0
    ensures Exec(Var(l, name, None), st, eval, fmt).status.Ok?
    ensures Exec(Var(l, name, None), st, eval, fmt).state.out == st.out
    ensures LookupIn(Exec(Var(l, name, None), st, eval, fmt).state.scopes, name) == Some(Nil)
    ensures other != name ==>
      LookupIn(Exec(Var(l, name, None), st, eval, fmt).state.scopes, other) == LookupIn(st.scopes, other)
  {
    LookupAfterDefine(st.scopes, name, Nil, other);
  }

  /**
   * `var name = e;` evaluates `e` first: on success `name` is bound to its
   * value; on error the error is returned and nothing is bound.
   */
  lemma VarWithInit(l: Tokens.Location, name: string, other: string, e: Expr, st: State, eval: Evaluator, fmt: NumberFormat)
    requires |st.scopes| > 0
    ensures eval(e, st.scopes).Err? ==>
      Exec(Var(l, name, Some(e)), st, eval, fmt) == Outcome(st, Err(eval(e, st.scopes).error))
    ensures eval(e, st.scopes).Ok? ==>
      Exec(Var(l, name, Some(e)), st, eval, fmt).status.Ok? &&
      Exec(Var(l, name, Some(e)), st, eval, fmt).state.out == st.out &&
      LookupIn(Exec(Var(l, name, Some(e)), st, eval, fmt).state.scopes, name) == Some(eval(e, st.scopes).value)
    ensures eval(e, st.scopes).Ok? && other != name ==>
      LookupIn(Exec(Var(l, name, Some(e)), st, eval, fmt).state.scopes, other) == LookupIn(st.scopes, other)
  {
    if eval(e, st.scopes).Ok? {
      LookupAfterDefine(st.scopes, name, eval(e, st.scopes).value, other);
    }
  }

  /**
   * A block leaves the enclosing scope stack exactly as it found it, error
   * or not: nothing declared inside is visible afterwards.
   */
  lemma BlockLeavesScopes(ss: seq<Stmt>, st: State, eval: Evaluator, fmt: NumberFormat)
    requires |st.scopes| > 0
    ensures Exec(Block(ss), st, eval, fmt).state.scopes == st.scopes
  {
    var inner := ExecSeq(ss, st.(scopes := st.scopes + [map[]]), eval, fmt);
    assert (st.scopes + [map[]])[..|st.scopes|] == st.scopes;
  }

  /**
   * Running `a + b` is running `a`, then (only if `a` succeeded) running `b`
   * from where `a` left off.
   */
  lemma {:induction false} ExecSeqAppend(a: seq<Stmt>, b: seq<Stmt>, st: State, eval: Evaluator, fmt: NumberFormat)
    requires |st.scopes| > 0
    ensures ExecSeq(a + b, st, eval, fmt) ==
      var first := ExecSeq(a, st, eval, fmt);
      if first.status.Err? then first else ExecSeq(b, first.state, eval, fmt)
  {
    if a == [] {
      assert a + b == b;
    } else {
      assert (a + b)[0] == a[0];
      assert (a + b)[1..] == a[1..] + b;
      var o := Exec(a[0], st, eval, fmt);
      if o.status.Ok? {
        ExecSeqAppend(a[1..], b, o.state, eval, fmt);
      }
    }
  }

  /** A one-statement sequence means that statement. */
  lemma ExecSeqSingle(s: Stmt, st: State, eval: Evaluator, fmt: NumberFormat)
    requires |st.scopes| > 0
    ensures ExecSeq([s], st, eval, fmt) == Exec(s, st, eval, fmt)
  {
    assert [s][0] == s && [s][1..] == [];
    var o := Exec(s, st, eval, fmt);
    if o.status.Ok? {
      match o.status.value { case () => }
    }
  }

  /**
   * The first failing statement decides the outcome: statements after it
   * are skipped, and effects of the statements before it remain.
   */
  lemma ExecSeqStopsAtFirstError(a: seq<Stmt>, s: Stmt, b: seq<Stmt>, st: State, eval: Evaluator, fmt: NumberFormat)
    requires |st.scopes| > 0
    requires ExecSeq(a, st, eval, fmt).status.Ok?
    requires Exec(s, ExecSeq(a, st, eval, fmt).state, eval, fmt).status.Err?
    ensures ExecSeq(a + [s] + b, st, eval, fmt) == Exec(s, ExecSeq(a, st, eval, fmt).state, eval, fmt)
  {
    var mid := ExecSeq(a, st, eval, fmt).state;
    ExecSeqAppend(a + [s], b, st, eval, fmt);
    ExecSeqAppend(a, [s], st, eval, fmt);
    ExecSeqSingle(s, mid, eval, fmt);
  }

  /** A sequence succeeds exactly when every statement in it succeeds in turn. */
  lemma ExecSeqSnoc(a: seq<Stmt>, s: Stmt, st: State, eval: Evaluator, fmt: NumberFormat)
    requires |st.scopes| > 0
    ensures ExecSeq(a + [s], st, eval, fmt).status.Ok? <==>
      ExecSeq(a, st, eval, fmt).status.Ok? && Exec(s, ExecSeq(a, st, eval, fmt).state, eval, fmt).status.Ok?
  {
    ExecSeqAppend(a, [s], st, eval, fmt);
    if ExecSeq(a, st, eval, fmt).status.Ok? {
      ExecSeqSingle(s, ExecSeq(a, st, eval, fmt).state, eval, fmt);
    }
  }

  /** A block stops at its first failing statement and returns that error. */
  lemma BlockStopsAtFirstError(a: seq<Stmt>, s: Stmt, b: seq<Stmt>, st: State, eval: Evaluator, fmt: NumberFormat)
    requires |st.scopes| > 0
    requires ExecSeq(a, st.(scopes := st.scopes + [map[]]), eval, fmt).status.Ok?
    requires Exec(s, ExecSeq(a, st.(scopes := st.scopes + [map[]]), eval, fmt).state, eval, fmt).status.Err?
    ensures Exec(Block(a + [s] + b), st, eval, fmt).status ==
      Exec(s, ExecSeq(a, st.(scopes := st.scopes + [map[]]), eval, fmt).state, eval, fmt).status
  {
    ExecSeqStopsAtFirstError(a, s, b, st.(scopes := st.scopes + [map[]]), eval, fmt);
  }

  /**
   * `if`: the condition is evaluated once in the current scope; a truthy
   * value runs the then-branch, a falsy one the else-branch if there is one,
   * and a failing condition runs neither. Branches run in the same scope.
   */
  lemma IfChoosesBranch(l: Tokens.Location, c: Expr, t: Stmt, otherwise: Option<Stmt>,
                        st: State, eval: Evaluator, fmt: NumberFormat)
    requires |st.scopes| > 0
    ensures eval(c, st.scopes).Err? ==>
      Exec(If(l, c, t, otherwise), st, eval, fmt) == Outcome(st, Err(eval(c, st.scopes).error))
    ensures eval(c, st.scopes).Ok? && Truthiness(eval(c, st.scopes).value) ==>
      Exec(If(l, c, t, otherwise), st, eval, fmt) == Exec(t, st, eval, fmt)
    ensures eval(c, st.scopes).Ok? && !Truthiness(eval(c, st.scopes).value) && otherwise.Some? ==>
      Exec(If(l, c, t, otherwise), st, eval, fmt) == Exec(otherwise.value, st, eval, fmt)
    ensures eval(c, st.scopes).Ok? && !Truthiness(eval(c, st.scopes).value) && otherwise.None? ==>
      Exec(If(l, c, t, otherwise), st, eval, fmt) == Outcome(st, Ok(()))
  {
  }

  // ---------------------------------------------------------------------
  // Execution in place
  // ---------------------------------------------------------------------

  /**
   * `Stmt::execute` against an environment updated in place; `out` is what
   * has been printed before, `out'` what has been printed after.
   */
  method Execute(s: Stmt, env: Env, eval: Evaluator, fmt: NumberFormat, out: string)
    returns (out': string, r: Result<(), RuntimeError>)
    requires env.Valid()
    modifies env
    ensures env.Valid()
    ensures Exec(s, State(old(env.scopes), out), eval, fmt) == Outcome(State(env.scopes, out'), r)
    decreases s
  {
    out' := out;
    match s
    case Expression(e) =>
      var v := eval(e, env.scopes);
      r := if v.Err? then Err(v.error) else Ok(());
    case Print(_, e) =>
      var v := eval(e, env.scopes);
      if v.Err? {
        r := Err(v.error);
      } else {
        out' := out + Render(v.value, fmt) + "\n";
        r := Ok(());
      }
    case Var(_, name, init) =>
      var value := Nil;
      if init.Some? {
        var v := eval(init.value, env.scopes);
        if v.Err? {
          r := Err(v.error);
          return;
        }
        value := Clone(v.value);
      }
      env.Define(name, value);
      r := Ok(());
    case Block(ss) =>
      ghost var start := State(env.scopes + [map[]], out);
      env.PushChild();
      var i := 0;
      while i < |ss|
        invariant 0 <= i <= |ss|
        invariant env.Valid() && |env.scopes| == |old(env.scopes)| + 1
        invariant ExecSeq(ss, start, eval, fmt) == ExecSeq(ss[i..], State(env.scopes, out'), eval, fmt)
      {
        ghost var before := State(env.scopes, out');
        assert ss[i..][0] == ss[i] && ss[i..][1..] == ss[i + 1..];
        var status;
        out', status := Execute(ss[i], env, eval, fmt, out');
        if status.Err? {
          env.PopChild();
          r := status;
          return;
        }
        i := i + 1;
      }
      env.PopChild();
      r := Ok(());
    case If(_, c, t, otherwise) =>
      var v := eval(c, env.scopes);
      if v.Err? {
        r := Err(v.error);
      } else if Truthiness(v.value) {
        out', r := Execute(t, env, eval, fmt, out);
      } else if otherwise.Some? {
        out', r := Execute(otherwise.value, env, eval, fmt, out);
      } else {
        r := Ok(());
      }
  }

  // ---------------------------------------------------------------------
  // Display
  // ---------------------------------------------------------------------

  /** `Display` for statements: S-expressions around the expressions' own text. */
  function Show(s: Stmt, showExpr: ExprFormat): (r: string)
    ensures !s.Expression? ==> |r| >= 2 && r[0] == '(' && r[|r| - 1] == ')'
    ensures s.Expression? ==> r == showExpr(s.expr)
    ensures s.Print? ==> r == "(print " + showExpr(s.expr) + ")"
    ensures s.Var? && s.init.Some? ==> r == "(var " + s.name + " " + showExpr(s.init.value) + ")"
    ensures s.Var? && s.init.None? ==> r == "(var " + s.name + " nil)"
    ensures s.Block? ==> r == "(block" + ShowEach(s.statements, showExpr) + ")"
    ensures s.If? && s.otherwise.None? ==>
      r == "(if " + showExpr(s.condition) + " " + Show(s.thenBranch, showExpr) + ")"
    ensures s.If? && s.otherwise.Some? ==>
      r == "(if-else " + showExpr(s.condition) + " " + Show(s.thenBranch, showExpr) + " " +
           Show(s.otherwise.value, showExpr) + ")"
    decreases s
  {
    match s
    case Expression(e) => showExpr(e)
    case Print(_, e) => "(print " + showExpr(e) + ")"
    case Var(_, name, init) =>
      if init.Some? then "(var " + name + " " + showExpr(init.value) + ")"
      else "(var " + name + " nil)"
    case Block(ss) => "(block" + ShowEach(ss, showExpr) + ")"
    case If(_, c, t, otherwise) =>
      if otherwise.Some? then
        "(if-else " + showExpr(c) + " " + Show(t, showExpr) + " " + Show(otherwise.value, showExpr) + ")"
      else "(if " + showExpr(c) + " " + Show(t, showExpr) + ")"
  }

  /** Each statement of a block preceded by a space. */
  function ShowEach(ss: seq<Stmt>, showExpr: ExprFormat): (r: string)
    ensures r == "" <==> ss == []
    ensures ss != [] ==> r[0] == ' '
    decreases ss
  {
    if ss == [] then "" else " " + Show(ss[0], showExpr) + ShowEach(ss[1..], showExpr)
  }

  /** A block body renders statement by statement: one space and one rendering each, in order. */
  lemma {:induction false} ShowEachAppend(a: seq<Stmt>, b: seq<Stmt>, showExpr: ExprFormat)
    ensures ShowEach(a + b, showExpr) == ShowEach(a, showExpr) + ShowEach(b, showExpr)
    decreases a
  {
    if a == [] {
      assert a + b == b;
    } else {
      assert (a + b)[0] == a[0];
      assert (a + b)[1..] == a[1..] + b;
      ShowEachAppend(a[1..], b, showExpr);
    }
  }

  /** One statement in a block body renders as a space and its own rendering. */
  lemma ShowEachSingle(s: Stmt, showExpr: ExprFormat)
    ensures ShowEach([s], showExpr) == " " + Show(s, showExpr)
  {
    assert [s][1..] == [];
  }

  /** Open parentheses minus closing ones. */
  function Balance(t: string): int {
    multiset(t)['('] as int - multiset(t)[')'] as int
  }

  /** Every variable name in `s` is free of parentheses, as identifiers are. */
  predicate NamesParenFree(s: Stmt)
    decreases s
  {
    match s
    case Var(_, name, _) => '(' !in name && ')' !in name
    case Block(ss) => forall i :: 0 <= i < |ss| ==> NamesParenFree(ss[i])
    case If(_, _, t, otherwise) => NamesParenFree(t) && (otherwise.Some? ==> NamesParenFree(otherwise.value))
    case _ => true
  }

  /**
   * The rendering is a well-formed S-expression as far as parentheses go:
   * if every expression renders balanced, so does every statement.
   */
  lemma {:induction false} ShowBalanced(s: Stmt, showExpr: ExprFormat)
    requires forall e :: Balance(showExpr(e)) == 0
    requires NamesParenFree(s)
    ensures Balance(Show(s, showExpr)) == 0
    decreases s
  {
    match s
    case Expression(e) =>
    case Print(_, e) =>
      BalancedPrint(showExpr(e));
    case Var(_, name, init) =>
      if init.Some? {
        BalancedVar(name, showExpr(init.value));
      } else {
        BalancedVar(name, "");
      }
    case Block(ss) =>
      ShowEachBalanced(ss, showExpr);
      BalancedBlock(ShowEach(ss, showExpr));
    case If(_, c, t, otherwise) =>
      ShowBalanced(t, showExpr);
      if otherwise.Some? {
        ShowBalanced(otherwise.value, showExpr);
        BalancedIfElse(showExpr(c), Show(t, showExpr), Show(otherwise.value, showExpr));
      } else {
        BalancedIf(showExpr(c), Show(t, showExpr));
      }
  }

  // The balance of each S-expression form `Show` builds, from its parts.

  lemma BalancedPrint(a: string)
    requires Balance(a) == 0
    ensures Balance("(print " + a + ")") == 0
  {
  }

  lemma BalancedVar(name: string, a: string)
    requires '(' !in name && ')' !in name && Balance(a) == 0
    ensures Balance("(var " + name + " " + a + ")") == 0
    ensures Balance("(var " + name + " nil)") == 0
  {
  }

  lemma BalancedBlock(a: string)
    requires Balance(a) == 0
    ensures Balance("(block" + a + ")") == 0
  {
  }

  lemma BalancedIf(a: string, b: string)
    requires Balance(a) == 0 && Balance(b) == 0
    ensures Balance("(if " + a + " " + b + ")") == 0
  {
  }

  lemma BalancedIfElse(a: string, b: string, c: string)
    requires Balance(a) == 0 && Balance(b) == 0 && Balance(c) == 0
    ensures Balance("(if-else " + a + " " + b + " " + c + ")") == 0
  {
  }

  lemma {:induction false} ShowEachBalanced(ss: seq<Stmt>, showExpr: ExprFormat)
    requires forall e :: Balance(showExpr(e)) == 0
    requires forall i :: 0 <= i < |ss| ==> NamesParenFree(ss[i])
    ensures Balance(ShowEach(ss, showExpr)) == 0
    decreases ss
  {
    if ss != [] {
      ShowBalanced(ss[0], showExpr);
      ShowEachBalanced(ss[1..], showExpr);
    }
  }
}
