/**
 * The tree-walking interpreter: one environment that lives as long as the
 * interpreter, and programs run against it statement by statement until the
 * first runtime error.
 */
module Interp {
  import opened Wrappers
  import opened Values
  import opened Environment
  import opened Statements
  import RuntimeErrors
  import Tokens

  class Interpreter {
    var environment: Env

    ghost predicate Valid()
      reads this, environment
    {
      environment.Valid()
    }

    /** `Interpreter::new`: a fresh global scope with no bindings. */
    constructor ()
      ensures Valid() && fresh(environment) && environment.scopes == [map[]]
    {
      environment := new Env();
    }

    /**
     * `Interpreter::interpret`: the program's statements in order, stopping
     * at the first error. Bindings made by earlier statements (and earlier
     * programs) stay in the environment.
     */
    method Interpret(program: Program, eval: Evaluator, fmt: NumberFormat, out: string)
      returns (out': string, r: Result<(), RuntimeError>)
      requires Valid()
      modifies environment
      ensures Valid()
      ensures ExecSeq(program.statements, State(old(environment.scopes), out), eval, fmt) ==
        Outcome(State(environment.scopes, out'), r)
    {
      var ss := program.statements;
      ghost var start := State(environment.scopes, out);
      out' := out;
      var i := 0;
      while i < |ss|
        invariant 0 <= i <= |ss|
        invariant Valid() && |environment.scopes| == |old(environment.scopes)|
        invariant ExecSeq(ss, start, eval, fmt) == ExecSeq(ss[i..], State(environment.scopes, out'), eval, fmt)
      {
        assert ss[i..][0] == ss[i] && ss[i..][1..] == ss[i + 1..];
        var status;
        out', status := Execute(ss[i], environment, eval, fmt, out');
        if status.Err? {
          r := status;
          return;
        }
        i := i + 1;
      }
      r := Ok(());
    }
  }

  /**
   * A program made of `p`'s statements followed by `q`'s runs `p`, then,
   * only if `p` succeeded, `q` from the state `p` left.
   */
  lemma ProgramConcatenation(p: Program, q: Program, st: State, eval: Evaluator, fmt: NumberFormat)
    requires |st.scopes| > 0
    ensures
      var first := ExecSeq(p.statements, st, eval, fmt);
      ExecSeq(p.statements + q.statements, st, eval, fmt) ==
        if first.status.Err? then first else ExecSeq(q.statements, first.state, eval, fmt)
  {
    ExecSeqAppend(p.statements, q.statements, st, eval, fmt);
  }

  /**
   * Whatever a program does from a fresh interpreter, the environment ends
   * with the single global scope, and a top-level `var name;` as the last
   * statement leaves `name` bound to `nil` there.
   */
  lemma {:induction false} GlobalDeclarationPersists(p: seq<Stmt>, l: Tokens.Location, name: string,
                                                       out: string, eval: Evaluator, fmt: NumberFormat)
    requires ExecSeq(p, State([map[]], out), eval, fmt).status.Ok?
    ensures
      var o := ExecSeq(p + [Var(l, name, None)], State([map[]], out), eval, fmt);
      o.status.Ok? && |o.state.scopes| == 1 && name in o.state.scopes[0] && o.state.scopes[0][name] == Nil
  {
    var st := State([map[]], out);
    var mid := ExecSeq(p, st, eval, fmt).state;
    ExecSeqAppend(p, [Var(l, name, None)], st, eval, fmt);
    ExecSeqSingle(Var(l, name, None), mid, eval, fmt);
  }

  /**
   * Two programs given to one interpreter in turn, as a session does: the
   * second runs whatever the first's outcome, in the environment the first
   * left behind; when the first succeeded, the pair behaves as one program
   * holding both.
   */
  method InterpretInTurn(interp: Interpreter, p: Program, q: Program, eval: Evaluator, fmt: NumberFormat, out: string)
    returns (out': string, first: Result<(), RuntimeError>, second: Result<(), RuntimeError>)
    requires interp.Valid()
    modifies interp.environment
    ensures interp.Valid()
    ensures
      var o := ExecSeq(p.statements, State(old(interp.environment.scopes), out), eval, fmt);
      first == o.status &&
      ExecSeq(q.statements, o.state, eval, fmt) == Outcome(State(interp.environment.scopes, out'), second)
    ensures first.Ok? ==>
      ExecSeq(p.statements + q.statements, State(old(interp.environment.scopes), out), eval, fmt) ==
        Outcome(State(interp.environment.scopes, out'), second)
  {
    ghost var st := State(interp.environment.scopes, out);
    var mid;
    mid, first := interp.Interpret(p, eval, fmt, out);
    out', second := interp.Interpret(q, eval, fmt, mid);
    ProgramConcatenation(p, q, st, eval, fmt);
  }

  // ---------------------------------------------------------------------
  // A worked example: shadowing in a block
  // ---------------------------------------------------------------------

  /** `var a = 1; { var a = 2; print a; } print a;` with expressions 0, 1 and 2. */
  function ShadowingProgram(): Program {
    var l := Tokens.Location(1, 1);
    Program([
      Var(l, "a", Some(Expr(0))),
      Block([Var(l, "a", Some(Expr(1))), Print(l, Expr(2))]),
      Print(l, Expr(2))
    ])
  }

  /** Expression 0 is the literal 1, expression 1 the literal 2, expression 2 the variable `a`. */
  function ShadowingEval(e: Expr, scopes: seq<Scope>): Result<Value, RuntimeError> {
    if e.id == 0 then Ok(Number(1.0))
    else if e.id == 1 then Ok(Number(2.0))
    else match LookupIn(scopes, "a")
      case None => Err(RuntimeErrors.UndefinedVariable(Tokens.Location(1, 1), "a"))
      case Some(v) => Ok(v)
  }

  /** Two statements in a row, the first succeeding: the second runs from where the first stopped. */
  lemma ExecPair(s: Stmt, t: Stmt, st: State, eval: Evaluator, fmt: NumberFormat)
    requires |st.scopes| > 0
    requires Exec(s, st, eval, fmt).status.Ok?
    ensures ExecSeq([s, t], st, eval, fmt) == Exec(t, Exec(s, st, eval, fmt).state, eval, fmt)
  {
    var mid := Exec(s, st, eval, fmt).state;
    ExecSeqAppend([s], [t], st, eval, fmt);
    assert [s] + [t] == [s, t];
    ExecSeqSingle(s, st, eval, fmt);
    ExecSeqSingle(t, mid, eval, fmt);
  }

  /** Inside the block: the inner `a` is bound and printed. */
  lemma ShadowingBlockBody(fmt: NumberFormat)
    ensures
      var l := Tokens.Location(1, 1);
      var g := [map["a" := Number(1.0)]];
      ExecSeq([Var(l, "a", Some(Expr(1))), Print(l, Expr(2))], State(g + [map[]], ""), ShadowingEval, fmt) ==
        Outcome(State(g + [map["a" := Number(2.0)]], fmt(2.0) + "\n"), Ok(()))
  {
    var l := Tokens.Location(1, 1);
    var g := [map["a" := Number(1.0)]];
    var b0 := State(g + [map[]], "");
    var b1 := State(g + [map["a" := Number(2.0)]], "");
    assert DefineIn(b0.scopes, "a", Number(2.0)) == b1.scopes;
    assert Exec(Var(l, "a", Some(Expr(1))), b0, ShadowingEval, fmt) == Outcome(b1, Ok(()));
    LookupShadows(g, map["a" := Number(2.0)], "a");
    ExecPair(Var(l, "a", Some(Expr(1))), Print(l, Expr(2)), b0, ShadowingEval, fmt);
  }

  /** The block as a whole prints the inner `a` and leaves the global scope as it was. */
  lemma ShadowingBlock(fmt: NumberFormat)
    ensures
      var l := Tokens.Location(1, 1);
      var g := [map["a" := Number(1.0)]];
      Exec(Block([Var(l, "a", Some(Expr(1))), Print(l, Expr(2))]), State(g, ""), ShadowingEval, fmt) ==
        Outcome(State(g, fmt(2.0) + "\n"), Ok(()))
  {
    var g := [map["a" := Number(1.0)]];
    ShadowingBlockBody(fmt);
    assert (g + [map["a" := Number(2.0)]])[..1] == g;
  }

  /**
   * The inner `a` is printed inside the block, the outer one after it: the
   * block's declaration neither overwrites nor outlives the global one.
   */
  lemma ShadowingExample(fmt: NumberFormat)
    ensures
      var o := ExecSeq(ShadowingProgram().statements, State([map[]], ""), ShadowingEval, fmt);
      o.status.Ok? && o.state.out == fmt(2.0) + "\n" + fmt(1.0) + "\n" &&
      o.state.scopes == [map["a" := Number(1.0)]]
  {
    var ss := ShadowingProgram().statements;
    var s0 := State([map[]], "");
    var g := [map["a" := Number(1.0)]];
    var s1 := State(g, "");
    assert DefineIn(s0.scopes, "a", Number(1.0)) == g;
    assert Exec(ss[0], s0, ShadowingEval, fmt) == Outcome(s1, Ok(()));
    ShadowingBlock(fmt);
    var s2 := State(g, fmt(2.0) + "\n");
    assert Exec(ss[1], s1, ShadowingEval, fmt) == Outcome(s2, Ok(()));
    ExecPair(ss[1], ss[2], s1, ShadowingEval, fmt);
    ExecSeqAppend([ss[0]], [ss[1], ss[2]], s0, ShadowingEval, fmt);
    ExecSeqSingle(ss[0], s0, ShadowingEval, fmt);
    assert [ss[0]] + [ss[1], ss[2]] == ss;
  }
}
