/**
 * Laws of the primitive functions: what each computes from its argument
 * list, which arguments it reads, and how it fails.
 */
module PrimLaws {
  import opened Values
  import opened Machine

  /**
   * `+`, `-` and `*` combine their first two arguments and ignore any
   * further ones; the stack is left as it was.
   */
  lemma ArithLaw(op: PrimOp, x: int, y: int, more: Value, st: Stack)
    requires op == Add || op == Sub || op == Mul
    ensures Invoke(Fn(Prim(op)), Cons(Integer(x), Cons(Integer(y), more)), st) == Ok((Integer(ArithValue(op, x, y)), st))
  {
  }

  /** The ordering primitives compare their first two arguments and answer with a boolean. */
  lemma CompareLaw(op: PrimOp, x: int, y: int, more: Value, st: Stack)
    requires op == Lt || op == Gt || op == Le || op == Ge
    ensures Invoke(Fn(Prim(op)), Cons(Integer(x), Cons(Integer(y), more)), st) == Ok((Boolean(Holds(op, x, y)), st))
  {
  }

  /**
   * Arithmetic and ordering fail with NotAnInteger when the first argument
   * is not an integer, before the second argument is looked at.
   */
  lemma FirstOperandChecked(op: PrimOp, a: Value, more: Value, st: Stack)
    requires op in {Add, Sub, Mul, Lt, Gt, Le, Ge} && !a.Integer?
    ensures Invoke(Fn(Prim(op)), Cons(a, more), st) == Err(NotAnInteger)
  {
  }

  /** With an integer first argument and no second one, arithmetic and ordering fail as malformed. */
  lemma SecondOperandMissing(op: PrimOp, x: int, st: Stack)
    requires op in {Add, Sub, Mul, Lt, Gt, Le, Ge}
    ensures Invoke(Fn(Prim(op)), Cons(Integer(x), Nil), st) == Err(MalformedForm)
  {
  }

  /**
   * `=` compares integers by value and everything else by identity: equal
   * symbols, singletons and primitives are the same object, different values
   * never are, and for equal strings, pairs or closures the model cannot tell.
   */
  lemma EqLaw(a: Value, b: Value, more: Value, st: Stack)
    ensures a.Integer? && b.Integer? ==>
      Invoke(Fn(Prim(Eq)), Cons(a, Cons(b, more)), st) == Ok((Boolean(a.int_val == b.int_val), st))
    ensures !(a.Integer? && b.Integer?) && a != b ==>
      Invoke(Fn(Prim(Eq)), Cons(a, Cons(b, more)), st) == Ok((Boolean(false), st))
    ensures !(a.Integer? && b.Integer?) && a == b && IsIdentityKind(a) ==>
      Invoke(Fn(Prim(Eq)), Cons(a, Cons(b, more)), st) == Ok((Boolean(true), st))
    ensures !a.Integer? && a == b && !IsIdentityKind(a) ==>
      Invoke(Fn(Prim(Eq)), Cons(a, Cons(b, more)), st) == Err(IdentityUnknown)
  {
  }

  /** `car`, `cdr` and `cons` take a pair apart and build one. */
  lemma PairLaws(a: Value, b: Value, more: Value, st: Stack)
    ensures Invoke(Fn(Prim(CarOp)), Cons(Cons(a, b), more), st) == Ok((a, st))
    ensures Invoke(Fn(Prim(CdrOp)), Cons(Cons(a, b), more), st) == Ok((b, st))
    ensures Invoke(Fn(Prim(ConsOp)), Cons(a, Cons(b, more)), st) == Ok((Cons(a, b), st))
  {
  }

  /** `car` and `cdr` of anything but a pair are malformed. */
  lemma PairErrors(a: Value, more: Value, st: Stack)
    requires !a.Cons?
    ensures Invoke(Fn(Prim(CarOp)), Cons(a, more), st) == Err(MalformedForm)
    ensures Invoke(Fn(Prim(CdrOp)), Cons(a, more), st) == Err(MalformedForm)
  {
  }

  /** The predicates answer whether their argument is nil, a pair or a symbol. */
  lemma PredicateLaws(a: Value, more: Value, st: Stack)
    ensures Invoke(Fn(Prim(NilQ)), Cons(a, more), st) == Ok((Boolean(a == Nil), st))
    ensures Invoke(Fn(Prim(ConsQ)), Cons(a, more), st) == Ok((Boolean(a.Cons?), st))
    ensures Invoke(Fn(Prim(SymbolQ)), Cons(a, more), st) == Ok((Boolean(a.Symbol?), st))
  {
  }

  /** `inc` and `dec` step an integer by one. */
  lemma StepLaws(x: int, more: Value, st: Stack)
    ensures Invoke(Fn(Prim(Inc)), Cons(Integer(x), more), st) == Ok((Integer(x + 1), st))
    ensures Invoke(Fn(Prim(Dec)), Cons(Integer(x), more), st) == Ok((Integer(x - 1), st))
  {
  }

  /**
   * `(apply f args)` is the call of `f` on the list `args`, and a function
   * made by `(vararg f)` passes its whole argument list to `f` as a single
   * argument.
   */
  lemma ApplyAndVarArg(f: Value, args: Value, more: Value, st: Stack)
    ensures Invoke(Fn(Prim(Apply)), Cons(f, Cons(args, more)), st) == Invoke(f, args, st)
    ensures Invoke(Fn(Prim(VarArg)), Cons(f, more), st) == Ok((Fn(VarArgLambda(f)), st))
    ensures Invoke(Fn(VarArgLambda(f)), args, st) == Invoke(f, Cons(args, Nil), st)
  {
  }

  /**
   * Calling a closure binds its formals to the arguments in front of the
   * environment it captured and evaluates its body there, on top of the
   * caller's stack; more arguments than formals fail.
   */
  lemma ClosureCall(env: Value, formals: Value, body: Value, args: Value, st: Stack)
    ensures Bind(env, formals, args).Ok? ==>
      Invoke(Fn(Lambda(env, formals, body)), args, st) == Ok((Nil, Push(EvalExpr(Bind(env, formals, args).value, body), st)))
    ensures Bind(env, formals, args).Err? ==>
      Invoke(Fn(Lambda(env, formals, body)), args, st) == Err(Bind(env, formals, args).error)
  {
  }

  /** Only function objects can be called. */
  lemma NotCallableLaw(v: Value, args: Value, st: Stack)
    requires !v.Fn?
    ensures Invoke(v, args, st) == Err(NotCallable)
  {
  }
}
