/**
 * Whole evaluations of small programs, derived from the laws rather than
 * by unfolding the machine step by step.
 */
module Scenarios {
  import opened Values
  import opened Symbols
  import opened GlobalTable
  import opened Machine
  import opened EvalLaws
  import opened PrimLaws

  /** Before the call in `(f x y)`: the head is looked up, then both constants evaluate to themselves. */
  lemma ArithOperands(env: Value, head: Value, f: Value, x: int, y: int, g: map<Value, Value>, k: nat)
    requires head.Symbol? && LookupEnv(env, head, g) == Ok(f)
    ensures SubRun(env, head, g, k + 6) == Final(Ok(f), g, k + 5)
    ensures EvalSeq(env, [Integer(x), Integer(y)], g, k + 5) == Some(([Integer(x), Integer(y)], g, k + 1))
  {
    SymbolEvaluates(env, head, g, k + 6);
    EvalSeqConstants(env, [Integer(x), Integer(y)], g, k + 5);
  }

  /**
   * The run of a binary arithmetic application `(f x y)` whose head names
   * `+`, `-` or `*`: looking up the head, the two constants and the call take
   * seven continuation calls, and the result is the operation on the two
   * integers; the globals are untouched.
   */
  lemma ArithRun(env: Value, head: Value, op: PrimOp, x: int, y: int, g: map<Value, Value>, k: nat)
    requires op == Add || op == Sub || op == Mul
    requires head.Symbol? && !IsSpecialForm(head) && LookupEnv(env, head, g) == Ok(Fn(Prim(op)))
    ensures SubRun(env, Cons(head, FromList([Integer(x), Integer(y)])), g, k + 7) ==
      Final(Ok(Integer(ArithValue(op, x, y))), g, k)
  {
    var args := [Integer(x), Integer(y)];
    ArithOperands(env, head, Fn(Prim(op)), x, y, g, k);
    FromListPair(Integer(x), Integer(y));
    ArithLaw(op, x, y, Nil, Tos);
    ApplicationReturns(env, head, args, Tos, g, k + 7, Nil, Fn(Prim(op)), g, k + 5, args, g, k + 1,
                       Integer(ArithValue(op, x, y)), Tos);
  }

  /**
   * eval_one of `(f x y)` at top level, with `f` bound globally to `+`, `-`
   * or `*`: the operation's value, the globals unchanged and six calls of the
   * budget spent.
   */
  lemma ArithEvaluates(head: Value, op: PrimOp, x: int, y: int, g: map<Value, Value>, fuel: nat)
    requires op == Add || op == Sub || op == Mul
    requires head.Symbol? && !IsSpecialForm(head) && GetGlobal(g, head) == Ok(Fn(Prim(op)))
    requires fuel >= 6
    ensures Evaluate(Cons(head, Cons(Integer(x), Cons(Integer(y), Nil))), g, fuel) ==
      Final(Ok(Integer(ArithValue(op, x, y))), g, fuel - 6)
  {
    FromListPair(Integer(x), Integer(y));
    EvaluateIsSubRun(Cons(head, FromList([Integer(x), Integer(y)])), g, fuel);
    ArithRun(Nil, head, op, x, y, g, fuel - 6);
  }

  /** `(+ 1 2)` evaluated against the start-up global table yields 3 and defines nothing. */
  lemma AddScenario()
    ensures Evaluate(Cons(Symbol(15), Cons(Integer(1), Cons(Integer(2), Nil))), PrimTable(), 10) ==
      Final(Ok(Integer(3)), PrimTable(), 4)
  {
    PrimTableBoot(15);
    assert PrimOps[15] == Add;
    ArithEvaluates(Symbol(15), Add, 1, 2, PrimTable(), 10);
  }
}
