/**
 * Laws of the evaluator: a run does not depend on the frames beneath the
 * ones it uses, which makes the evaluation of a sub-expression a unit that
 * can be reasoned about on its own; from that, the order in which an
 * application evaluates its parts and the arguments the function receives.
 */
module EvalLaws {
  import opened Values
  import opened Symbols
  import opened GlobalTable
  import opened Machine

  /** The stack `s` placed on top of `base`. */
  function Append(s: Stack, base: Stack): Stack
  {
    match s
    case Tos => base
    case Push(k, prev) => Push(k, Append(prev, base))
  }

  /** A continuation result with `base` placed under its stack. */
  function LiftResult(r: Result<(Value, Stack), EvalError>, base: Stack): Result<(Value, Stack), EvalError>
  {
    match r
    case Ok(p) => Ok((p.0, Append(p.1, base)))
    case Err(e) => Err(e)
  }

  /** Two frames pushed on `s` and then placed over `base`. */
  lemma AppendTwo(a: Frame, b: Frame, s: Stack, base: Stack)
    ensures Append(Push(a, Push(b, s)), base) == Push(a, Push(b, Append(s, base)))
  {
  }

  /** A primitive other than `apply` leaves whatever stack it is given unchanged. */
  lemma PrimLift(op: PrimOp, args: Value, s: Stack, base: Stack)
    requires op != Apply
    ensures Invoke(Fn(Prim(op)), args, Append(s, base)) == LiftResult(Invoke(Fn(Prim(op)), args, s), base)
  {
    var r := PrimValue(op, args);
    assert Invoke(Fn(Prim(op)), args, s) == if r.Ok? then Ok((r.value, s)) else Err(r.error);
    assert Invoke(Fn(Prim(op)), args, Append(s, base)) == if r.Ok? then Ok((r.value, Append(s, base))) else Err(r.error);
  }

  /** Invocation only ever pushes onto the stack it is given, so what lies beneath is carried along. */
  lemma {:induction false} InvokeLift(f: Value, args: Value, s: Stack, base: Stack)
    ensures Invoke(f, args, Append(s, base)) == LiftResult(Invoke(f, args, s), base)
    decreases Size(f) + Size(args)
  {
    match f
    case Fn(Prim(op)) =>
      if op != Apply {
        PrimLift(op, args, s, base);
      } else if args.Cons? && args.cdr.Cons? {
        assert Size(args) == 1 + Size(args.car) + Size(args.cdr) && Size(args.cdr) > Size(args.cdr.car);
        InvokeLift(args.car, args.cdr.car, s, base);
      }
    case Fn(VarArgLambda(g)) =>
      assert Size(Cons(args, Nil)) == 2 + Size(args);
      InvokeLift(g, Cons(args, Nil), s, base);
    case _ =>
  }

  /** The only way popping parked values fails is a frame that is not a parked value. */
  lemma {:induction false} PopValsErr(args: Value, s: Stack, n: nat)
    ensures PopVals(args, s, n).Err? ==> PopVals(args, s, n).error == NotAValueFrame
    decreases n
  {
    if n > 0 && s.Push? && s.top.Val? {
      PopValsErr(Cons(s.top.v, args), s.prev, n - 1);
    }
  }

  /** Likewise for collecting an application's arguments and function. */
  lemma PopArgsErr(v: Value, s: Stack, count: nat)
    ensures PopArgs(v, s, count).Err? ==> PopArgs(v, s, count).error == NotAValueFrame
  {
    PopValsErr(Cons(v, Nil), s, if count >= 2 then count - 2 else 0);
  }

  /** Popping parked values that are all present in `s` pops the same ones from `s` over `base`. */
  lemma {:induction false} PopValsLift(args: Value, s: Stack, n: nat, base: Stack)
    requires PopVals(args, s, n).Ok?
    ensures PopVals(args, Append(s, base), n) == LiftResult(PopVals(args, s, n), base)
    decreases n
  {
    if n > 0 {
      PopValsLift(Cons(s.top.v, args), s.prev, n - 1, base);
    }
  }

  /**
   * The invocation that ends an application, once its parked values are
   * found in `s`, does the same on `s` over `base`, whether it succeeds or
   * fails.
   */
  lemma CallStepLift(env: Value, count: nat, v: Value, s: Stack, base: Stack)
    requires count == 1 || PopArgs(v, s, count).Ok?
    ensures ApplyStep(env, Nil, count, v, Append(s, base)) == LiftResult(ApplyStep(env, Nil, count, v, s), base)
  {
    if count == 1 {
      InvokeLift(v, Nil, s, base);
    } else {
      var n := if count >= 2 then count - 2 else 0;
      PopValsLift(Cons(v, Nil), s, n, base);
      var p := PopVals(Cons(v, Nil), s, n).value;
      var q := PopArgs(v, s, count).value;
      assert p.1 == Push(Val(q.0), q.2);
      assert PopArgs(v, Append(s, base), count) == Ok((q.0, q.1, Append(q.2, base)));
      InvokeLift(q.0, q.1, q.2, base);
    }
  }

  /**
   * EvalApply's continuation, unless it fails for want of a parked value in
   * `s`, does the same on `s` over `base`.
   */
  lemma ApplyStepLift(env: Value, exprs: Value, count: nat, v: Value, s: Stack, base: Stack)
    requires var r := ApplyStep(env, exprs, count, v, s); r.Ok? || r.error != NotAValueFrame
    ensures ApplyStep(env, exprs, count, v, Append(s, base)) == LiftResult(ApplyStep(env, exprs, count, v, s), base)
  {
    if exprs == Nil {
      PopArgsErr(v, s, count);
      CallStepLift(env, count, v, s, base);
    } else if exprs.Cons? {
      assert exprs.Cons?;
      var parked := Push(Val(v), s);
      AppendTwo(EvalApply(env, exprs.cdr, count + 1), Val(v), s, base);
      AppendTwo(EvalExpr(env, exprs.car), EvalApply(env, exprs.cdr, count + 1), parked, base);
    }
  }

  /** The lift for `if`, `do`, `def` and `quote`. */
  lemma EvalSexprLiftA(env: Value, sym: Value, args: Value, s: Stack, base: Stack)
    requires sym.Symbol? && sym.id in {IfId, DoId, DefId, QuoteId}
    requires EvalSexpr(env, sym, args, s).Ok?
    ensures EvalSexpr(env, sym, args, Append(s, base)) == LiftResult(EvalSexpr(env, sym, args, s), base)
  {
    if sym.id == IfId {
      AppendTwo(EvalExpr(env, args.car), IfFrame(env, args.cdr.car, args.cdr.cdr.car), s, base);
    } else if sym.id == DefId {
      AppendTwo(EvalExpr(env, args.cdr.car), DefFrame(args.car), s, base);
    }
  }

  /** The lift for `cond`, `resolve`, `let`, `fn` and applications. */
  lemma EvalSexprLiftB(env: Value, sym: Value, args: Value, s: Stack, base: Stack)
    requires sym.Symbol? && sym.id !in {IfId, DoId, DefId, QuoteId}
    requires EvalSexpr(env, sym, args, s).Ok?
    ensures EvalSexpr(env, sym, args, Append(s, base)) == LiftResult(EvalSexpr(env, sym, args, s), base)
  {
    if sym.id == CondId {
      AppendTwo(EvalExpr(env, args.car), CondFrame(env, args.cdr), s, base);
    } else if sym.id == ResolveId {
      AppendTwo(EvalExpr(env, args.car), ResolveFrame, s, base);
    } else if sym.id == LetId {
      var binds := args.car;
      AppendTwo(EvalExpr(env, binds.cdr.car), LetFrame(env, binds.car, binds.cdr.cdr, args.cdr), s, base);
    } else if sym.id != FnId {
      AppendTwo(EvalExpr(env, sym), EvalApply(env, args, 1), s, base);
    }
  }

  /** A malformed `if`, `def` or `let` fails whatever the stack beneath it. */
  lemma EvalSexprFailsA(env: Value, sym: Value, args: Value, s: Stack, base: Stack)
    requires sym.Symbol? && sym.id in {IfId, DefId, LetId} && EvalSexpr(env, sym, args, s).Err?
    ensures EvalSexpr(env, sym, args, Append(s, base)) == EvalSexpr(env, sym, args, s)
  {
    assert EvalSexpr(env, sym, args, Append(s, base)).Err?;
  }

  /** A malformed special form fails whatever the stack beneath it. */
  lemma EvalSexprFails(env: Value, sym: Value, args: Value, s: Stack, base: Stack)
    requires sym.Symbol? && EvalSexpr(env, sym, args, s).Err?
    ensures EvalSexpr(env, sym, args, Append(s, base)) == EvalSexpr(env, sym, args, s)
  {
    if sym.id in {IfId, DefId, LetId} {
      EvalSexprFailsA(env, sym, args, s, base);
    }
  }

  /** A form headed by a symbol never looks at the stack: on `s` over `base` it does what it does on `s`, success or failure. */
  lemma EvalSexprLift(env: Value, sym: Value, args: Value, s: Stack, base: Stack)
    requires sym.Symbol?
    ensures EvalSexpr(env, sym, args, Append(s, base)) == LiftResult(EvalSexpr(env, sym, args, s), base)
  {
    if EvalSexpr(env, sym, args, s).Err? {
      EvalSexprFails(env, sym, args, s, base);
    } else if sym.id in {IfId, DoId, DefId, QuoteId} {
      EvalSexprLiftA(env, sym, args, s, base);
    } else {
      EvalSexprLiftB(env, sym, args, s, base);
    }
  }

  /** Evaluating one expression never looks at the stack: on `s` over `base` it does what it does on `s`, success or failure. */
  lemma EvalOneLift(env: Value, expr: Value, s: Stack, g: map<Value, Value>, base: Stack)
    ensures EvalOne(env, expr, Append(s, base), g) == LiftResult(EvalOne(env, expr, s, g), base)
  {
    if expr.Cons? && expr.car.Symbol? {
      EvalSexprLift(env, expr.car, expr.cdr, s, base);
    } else if expr.Cons? {
      AppendTwo(EvalExpr(env, expr.car), EvalApply(env, expr.cdr, 1), s, base);
    }
  }

  /** A continuation call that succeeds on `s` does the same on `s` over `base`. */
  lemma StepLift(k: Frame, v: Value, s: Stack, g: map<Value, Value>, base: Stack)
    requires Step(k, v, s, g).Ok?
    ensures var m := Step(k, v, s, g).value;
      Step(k, v, Append(s, base), g) == Ok(Moved(m.val, Append(m.stack, base), m.defined))
  {
    match k
    case EvalExpr(env, expr) =>
      EvalOneLift(env, expr, s, g, base);
    case EvalApply(env, exprs, count) =>
      ApplyStepLift(env, exprs, count, v, s, base);
    case _ =>
  }

  /**
   * A run that empties `c`'s stack successfully behaves, over any `base`,
   * as that run followed by a run on `base` from the value, globals and
   * fuel it ended with: the trampoline never looks beneath the frames it
   * was given.
   */
  lemma {:induction false} RunLift(c: Config, fuel: nat, base: Stack)
    requires Run(c, fuel).result.Ok?
    ensures var f := Run(c, fuel);
      Run(Config(c.val, Append(c.stack, base), c.globals), fuel) ==
      Run(Config(f.result.value, base, f.globals), f.fuelLeft)
    decreases fuel
  {
    if c.stack != Tos {
      var m := Step(c.stack.top, c.val, c.stack.prev, c.globals).value;
      StepLift(c.stack.top, c.val, c.stack.prev, c.globals, base);
      RunLift(Config(m.val, m.stack, Defined(c.globals, m)), fuel - 1, base);
    }
  }

  /** A continuation call that fails on `s` otherwise than for want of a parked value fails the same way on `s` over `base`. */
  lemma StepFailLift(k: Frame, v: Value, s: Stack, g: map<Value, Value>, base: Stack)
    requires Step(k, v, s, g).Err? && Step(k, v, s, g).error != NotAValueFrame
    ensures Step(k, v, Append(s, base), g) == Step(k, v, s, g)
  {
    match k
    case EvalExpr(env, expr) =>
      EvalOneLift(env, expr, s, g, base);
    case EvalApply(env, exprs, count) =>
      ApplyStepLift(env, exprs, count, v, s, base);
    case _ =>
  }

  /**
   * A run from `c` that fails, otherwise than for want of a parked value,
   * fails the same way over any `base`, with the same globals and fuel:
   * the frames beneath are never reached.
   */
  lemma {:induction false} RunLiftFails(c: Config, fuel: nat, base: Stack)
    requires Run(c, fuel).result.Err? && Run(c, fuel).result.error != NotAValueFrame
    ensures Run(Config(c.val, Append(c.stack, base), c.globals), fuel) == Run(c, fuel)
    decreases fuel
  {
    if c.stack != Tos && fuel > 0 {
      var r := Step(c.stack.top, c.val, c.stack.prev, c.globals);
      if r.Ok? {
        var m := r.value;
        StepLift(c.stack.top, c.val, c.stack.prev, c.globals, base);
        RunLiftFails(Config(m.val, m.stack, Defined(c.globals, m)), fuel - 1, base);
      } else {
        StepFailLift(c.stack.top, c.val, c.stack.prev, c.globals, base);
      }
    }
  }

  /**
   * The one exception: an application that pops a parked function its own
   * stack does not hold fails, yet over a base that supplies one it
   * succeeds. Stacks built by evaluating an expression always hold the
   * values they pop.
   */
  lemma MissingParkedValue(g: map<Value, Value>)
    ensures Run(Config(Integer(1), Push(EvalApply(Nil, Nil, 2), Tos), g), 1).result == Err(NotAValueFrame)
    ensures Run(Config(Integer(1), Push(EvalApply(Nil, Nil, 2), Push(Val(Fn(Prim(Inc))), Tos)), g), 1).result == Ok(Integer(2))
  {
    var args := Cons(Integer(1), Nil);
    assert PopArgs(Integer(1), Tos, 2) == Err(NotAValueFrame);
    assert PopArgs(Integer(1), Push(Val(Fn(Prim(Inc))), Tos), 2) == Ok((Fn(Prim(Inc)), args, Tos));
    assert PrimValue(Inc, args) == Ok(Integer(2));
  }

  /** The top `n` frames of `s` are parked values. */
  predicate ValsOnTop(s: Stack, n: nat)
    decreases n
  {
    n == 0 || (s.Push? && s.top.Val? && ValsOnTop(s.prev, n - 1))
  }

  /**
   * Every pending application in `s` has beneath it the values it has
   * parked: the head and the arguments evaluated so far, one fewer than its
   * count.
   */
  predicate Parks(s: Stack)
  {
    match s
    case Tos => true
    case Push(k, prev) => Parks(prev) && (k.EvalApply? ==> k.count >= 1 && ValsOnTop(prev, k.count - 1))
  }

  /**
   * Popping `n` of the parked values on top of a stack that parks finds
   * them all, leaves a stack that still parks, and leaves the other `m` on top.
   */
  lemma {:induction false} PopValsParks(args: Value, s: Stack, n: nat, m: nat)
    requires Parks(s) && ValsOnTop(s, n + m)
    ensures PopVals(args, s, n).Ok?
    ensures Parks(PopVals(args, s, n).value.1) && ValsOnTop(PopVals(args, s, n).value.1, m)
    decreases n
  {
    if n > 0 {
      PopValsParks(Cons(s.top.v, args), s.prev, n - 1, m);
    }
  }

  /** Two frames pushed on a stack that parks, the lower one an application whose parked values are on top of it. */
  lemma PushParks(a: Frame, b: Frame, s: Stack)
    requires Parks(s) && !a.EvalApply? && (b.EvalApply? ==> b.count >= 1 && ValsOnTop(s, b.count - 1))
    ensures Parks(Push(a, Push(b, s)))
  {
  }

  /** Binding fails only on a formal list or argument list that is not a pair where one is needed. */
  lemma {:induction false} BindErr(env: Value, formals: Value, args: Value)
    ensures Bind(env, formals, args).Err? ==> Bind(env, formals, args).error == MalformedForm
    decreases args
  {
    if args != Nil && formals.Cons? && args.Cons? {
      BindErr(Cons(Cons(formals.car, args.car), env), formals.cdr, args.cdr);
    }
  }

  /** Lookup fails only on a malformed environment or an unbound symbol. */
  lemma {:induction false} LookupEnvErr(env: Value, k: Value, g: map<Value, Value>)
    requires k.Symbol?
    ensures var r := LookupEnv(env, k, g);
      r.Err? ==> r.error == MalformedForm || r.error == UnboundSymbol
    decreases env
  {
    if env != Nil && env.Cons? && env.car.Cons? && env.car.car != k {
      LookupEnvErr(env.cdr, k, g);
    }
  }

  /** A primitive never fails for want of a parked value: it does not look at the stack. */
  lemma PrimValueErr(op: PrimOp, args: Value)
    requires op != Apply
    ensures PrimValue(op, args).Err? ==> PrimValue(op, args).error != NotAValueFrame
  {
  }

  /** An invocation never fails for want of a parked value, and leaves the stack it is given or pushes a closure's body onto it. */
  lemma {:induction false} InvokeParks(f: Value, args: Value, s: Stack)
    requires Parks(s)
    ensures Invoke(f, args, s).Err? ==> Invoke(f, args, s).error != NotAValueFrame
    ensures Invoke(f, args, s).Ok? ==> Parks(Invoke(f, args, s).value.1)
    decreases Size(f) + Size(args)
  {
    match f
    case Fn(Prim(op)) =>
      if op != Apply {
        PrimValueErr(op, args);
      } else if args.Cons? && args.cdr.Cons? {
        assert Size(args) == 1 + Size(args.car) + Size(args.cdr) && Size(args.cdr) > Size(args.cdr.car);
        InvokeParks(args.car, args.cdr.car, s);
      }
    case Fn(VarArgLambda(g)) =>
      assert Size(Cons(args, Nil)) == 2 + Size(args);
      InvokeParks(g, Cons(args, Nil), s);
    case Fn(Lambda(env, formals, body)) =>
      BindErr(env, formals, args);
    case _ =>
  }

  /** EvalApply's continuation on a stack that parks finds its values and leaves a stack that parks. */
  lemma ApplyStepParks(env: Value, exprs: Value, count: nat, v: Value, s: Stack)
    requires Parks(Push(EvalApply(env, exprs, count), s))
    ensures var r := ApplyStep(env, exprs, count, v, s);
      (r.Err? ==> r.error != NotAValueFrame) && (r.Ok? ==> Parks(r.value.1))
  {
    if exprs == Nil {
      if count == 1 {
        InvokeParks(v, Nil, s);
      } else {
        PopValsParks(Cons(v, Nil), s, count - 2, 1);
        var p := PopVals(Cons(v, Nil), s, count - 2).value;
        assert p.1.Push? && p.1.top.Val?;
        assert PopArgs(v, s, count) == Ok((p.1.top.v, p.0, p.1.prev));
        InvokeParks(p.1.top.v, p.0, p.1.prev);
      }
    } else if exprs.Cons? {
      var parked := Push(Val(v), s);
      assert Parks(parked) && ValsOnTop(parked, count);
      PushParks(EvalExpr(env, exprs.car), EvalApply(env, exprs.cdr, count + 1), parked);
    }
  }

  /** A form headed by a symbol pushes only frames that park, and never fails for want of a parked value. */
  lemma EvalSexprParks(env: Value, sym: Value, args: Value, s: Stack)
    requires sym.Symbol? && Parks(s)
    ensures var r := EvalSexpr(env, sym, args, s);
      (r.Err? ==> r.error != NotAValueFrame) && (r.Ok? ==> Parks(r.value.1))
  {
    var r := EvalSexpr(env, sym, args, s);
    if r.Ok? {
      if sym.id == IfId {
        PushParks(EvalExpr(env, args.car), IfFrame(env, args.cdr.car, args.cdr.cdr.car), s);
      } else if sym.id == DefId {
        PushParks(EvalExpr(env, args.cdr.car), DefFrame(args.car), s);
      } else if sym.id == CondId {
        PushParks(EvalExpr(env, args.car), CondFrame(env, args.cdr), s);
      } else if sym.id == ResolveId {
        PushParks(EvalExpr(env, args.car), ResolveFrame, s);
      } else if sym.id == LetId {
        var binds := args.car;
        PushParks(EvalExpr(env, binds.cdr.car), LetFrame(env, binds.car, binds.cdr.cdr, args.cdr), s);
      } else if !(sym.id in {DoId, QuoteId, FnId}) {
        PushParks(EvalExpr(env, sym), EvalApply(env, args, 1), s);
      }
    }
  }

  /** Evaluating one expression pushes only frames that park, and never fails for want of a parked value. */
  lemma EvalOneParks(env: Value, expr: Value, s: Stack, g: map<Value, Value>)
    requires Parks(s)
    ensures var r := EvalOne(env, expr, s, g);
      (r.Err? ==> r.error != NotAValueFrame) && (r.Ok? ==> Parks(r.value.1))
  {
    if expr.Cons? && expr.car.Symbol? {
      EvalSexprParks(env, expr.car, expr.cdr, s);
    } else if expr.Cons? {
      PushParks(EvalExpr(env, expr.car), EvalApply(env, expr.cdr, 1), s);
    } else if expr.Symbol? {
      LookupEnvErr(env, expr, g);
    }
  }

  /** A continuation call on a stack that parks never fails for want of a parked value and leaves a stack that parks. */
  lemma StepParks(k: Frame, v: Value, s: Stack, g: map<Value, Value>)
    requires Parks(Push(k, s))
    ensures var r := Step(k, v, s, g);
      (r.Err? ==> r.error != NotAValueFrame) && (r.Ok? ==> Parks(r.value.stack))
  {
    match k
    case EvalExpr(env, expr) =>
      EvalOneParks(env, expr, s, g);
    case EvalApply(env, exprs, count) =>
      ApplyStepParks(env, exprs, count, v, s);
    case _ =>
  }

  /** A run from a stack that parks never fails for want of a parked value. */
  lemma {:induction false} RunParks(c: Config, fuel: nat)
    requires Parks(c.stack)
    ensures Run(c, fuel).result != Err(NotAValueFrame)
    decreases fuel
  {
    if c.stack != Tos && fuel > 0 {
      var r := Step(c.stack.top, c.val, c.stack.prev, c.globals);
      StepParks(c.stack.top, c.val, c.stack.prev, c.globals);
      if r.Ok? {
        var m := r.value;
        RunParks(Config(m.val, m.stack, Defined(c.globals, m)), fuel - 1);
      }
    }
  }

  /**
   * Evaluating an expression, from the top level or as a sub-expression,
   * never fails for want of a parked value: the exception of RunLiftFails
   * does not arise for the stacks evaluation builds.
   */
  lemma EvaluationParks(env: Value, e: Value, g: map<Value, Value>, fuel: nat)
    ensures Run(Config(Nil, Push(EvalExpr(env, e), Tos), g), fuel).result != Err(NotAValueFrame)
    ensures Evaluate(e, g, fuel).result != Err(NotAValueFrame)
  {
    RunParks(Config(Nil, Push(EvalExpr(env, e), Tos), g), fuel);
    EvalOneParks(Nil, e, Tos, g);
    var r := EvalOne(Nil, e, Tos, g);
    if r.Ok? {
      RunParks(Config(r.value.0, r.value.1, g), fuel);
    }
  }

  // ---------------------------------------------------------------------
  // Big-step laws
  // ---------------------------------------------------------------------

  /** One successful continuation call of the driver. */
  lemma StepRun(v: Value, k: Frame, st: Stack, g: map<Value, Value>, fuel: nat, m: Moved)
    requires fuel > 0 && Step(k, v, st, g) == Ok(m)
    ensures Run(Config(v, Push(k, st), g), fuel) == Run(Config(m.val, m.stack, Defined(g, m)), fuel - 1)
  {
  }

  /** With an argument left, EvalApply parks the incoming value and evaluates that argument. */
  lemma ParkRun(env: Value, e: Value, rest: Value, n: nat, cur: Value, st: Stack, g: map<Value, Value>, fuel: nat)
    requires fuel > 0
    ensures Run(Config(cur, Push(EvalApply(env, Cons(e, rest), n), st), g), fuel) ==
      Run(Config(Nil, Push(EvalExpr(env, e), Push(EvalApply(env, rest, n + 1), Push(Val(cur), st))), g), fuel - 1)
  {
    var m := Moved(Nil, Push(EvalExpr(env, e), Push(EvalApply(env, rest, n + 1), Push(Val(cur), st))), None);
    StepRun(cur, EvalApply(env, Cons(e, rest), n), st, g, fuel, m);
  }

  /** A failing continuation call ends the run with its error, keeping the global table as it was. */
  lemma StepFails(v: Value, k: Frame, st: Stack, g: map<Value, Value>, fuel: nat, e: EvalError)
    requires fuel > 0 && Step(k, v, st, g) == Err(e)
    ensures Run(Config(v, Push(k, st), g), fuel) == Final(Err(e), g, fuel - 1)
  {
  }

  /** The run that evaluates `e` in `env` on an otherwise empty stack. */
  function SubRun(env: Value, e: Value, g: map<Value, Value>, fuel: nat): Final
  {
    Run(Config(Nil, Push(EvalExpr(env, e), Tos), g), fuel)
  }

  /** A sub-expression evaluated on top of any stack hands its value to what lies beneath. */
  lemma SubLift(env: Value, e: Value, base: Stack, g: map<Value, Value>, fuel: nat)
    requires SubRun(env, e, g, fuel).result.Ok?
    ensures var f := SubRun(env, e, g, fuel);
      Run(Config(Nil, Push(EvalExpr(env, e), base), g), fuel) == Run(Config(f.result.value, base, f.globals), f.fuelLeft)
  {
    RunLift(Config(Nil, Push(EvalExpr(env, e), Tos), g), fuel, base);
  }

  /**
   * Expressions evaluated one after another, each preceded by one
   * continuation call, threading the global table and the fuel; None when
   * one of them fails or the fuel runs out.
   */
  function EvalSeq(env: Value, es: seq<Value>, g: map<Value, Value>, fuel: nat): Option<(seq<Value>, map<Value, Value>, nat)>
    decreases fuel
  {
    if es == [] then Some(([], g, fuel))
    else if fuel == 0 then None
    else
      var f := SubRun(env, es[0], g, fuel - 1);
      if f.result.Err? then None
      else match EvalSeq(env, es[1..], f.globals, f.fuelLeft)
        case None => None
        case Some(r) => Some(([f.result.value] + r.0, r.1, r.2))
  }

  /** A successful sequence yields one value per expression. */
  lemma {:induction false} EvalSeqLength(env: Value, es: seq<Value>, g: map<Value, Value>, fuel: nat)
    requires EvalSeq(env, es, g, fuel).Some?
    ensures |EvalSeq(env, es, g, fuel).value.0| == |es|
    decreases fuel
  {
    if es != [] {
      var f := SubRun(env, es[0], g, fuel - 1);
      EvalSeqLength(env, es[1..], f.globals, f.fuelLeft);
    }
  }

  /** Values parked on `s` by argument evaluation, the first one deepest. */
  function Parked(ps: seq<Value>, s: Stack): Stack
  {
    if ps == [] then s else Push(Val(ps[|ps| - 1]), Parked(ps[..|ps| - 1], s))
  }

  /** Popping `n` parked values conses them, in parking order, in front of the list collected so far. */
  lemma {:induction false} PopValsParked(ps: seq<Value>, xs: seq<Value>, s: Stack, n: nat)
    requires n <= |ps|
    ensures PopVals(FromList(xs), Parked(ps, s), n) == Ok((FromList(ps[|ps| - n..] + xs), Parked(ps[..|ps| - n], s)))
    decreases n
  {
    if n == 0 {
      assert ps[|ps|..] + xs == xs;
      assert ps[..|ps|] == ps;
    } else {
      var init := ps[..|ps| - 1];
      var last := ps[|ps| - 1];
      assert FromList([last] + xs) == Cons(last, FromList(xs)) by {
        assert ([last] + xs)[1..] == xs;
      }
      PopValsParked(init, [last] + xs, s, n - 1);
      var k := |ps| - n;
      assert init[|init| - (n - 1)..] == ps[k..|ps| - 1];
      assert ps[k..] == ps[k..|ps| - 1] + [last];
      assert ps[k..|ps| - 1] + ([last] + xs) == (ps[k..|ps| - 1] + [last]) + xs;
      assert init[..|init| - (n - 1)] == ps[..k];
    }
  }

  /** Argument collection with values `ps` parked and `cur` incoming finds the head first and the rest in order. */
  lemma PopArgsParked(ps: seq<Value>, cur: Value, s: Stack)
    requires |ps| >= 1
    ensures PopArgs(cur, Parked(ps, s), |ps| + 1) == Ok((ps[0], FromList(ps[1..] + [cur]), s))
  {
    assert FromList([cur]) == Cons(cur, Nil);
    PopValsParked(ps, [cur], s, |ps| - 1);
    assert ps[..1] == [ps[0]];
    assert ps[|ps| - (|ps| - 1)..] == ps[1..];
  }

  /**
   * The last continuation call of an application: with the head and the
   * arguments before the incoming one parked, the head is invoked on all of
   * them in order, on the stack beneath.
   */
  lemma FinalInvoke(env: Value, all: seq<Value>, s: Stack, g: map<Value, Value>, fuel: nat)
    requires |all| >= 1 && fuel > 0
    ensures Run(Config(all[|all| - 1], Push(EvalApply(env, Nil, |all|), Parked(all[..|all| - 1], s)), g), fuel) ==
      match Invoke(all[0], FromList(all[1..]), s)
      case Err(e) => Final(Err(e), g, fuel - 1)
      case Ok(p) => Run(Config(p.0, p.1, g), fuel - 1)
  {
    var init := all[..|all| - 1];
    if |all| > 1 {
      PopArgsParked(init, all[|all| - 1], s);
      assert init[1..] + [all[|all| - 1]] == all[1..];
    }
  }

  /** The argument loop with no argument left arrives at the last continuation call at once. */
  lemma ArgsRunDone(env: Value, ps: seq<Value>, cur: Value, s: Stack, g: map<Value, Value>, fuel: nat)
    ensures var all := ps + [cur];
      Run(Config(cur, Push(EvalApply(env, FromList([]), |ps| + 1), Parked(ps, s)), g), fuel) ==
      Run(Config(all[|all| - 1], Push(EvalApply(env, Nil, |all|), Parked(all[..|all| - 1], s)), g), fuel)
  {
    var all := ps + [cur];
    assert all[..|all| - 1] == ps;
  }

  /** One round of the argument loop: park the incoming value, then evaluate the next argument. */
  lemma ArgsStep(env: Value, e: Value, rest: Value, ps: seq<Value>, cur: Value, s: Stack, g: map<Value, Value>, fuel: nat)
    requires fuel > 0 && SubRun(env, e, g, fuel - 1).result.Ok?
    ensures var f := SubRun(env, e, g, fuel - 1);
      Run(Config(cur, Push(EvalApply(env, Cons(e, rest), |ps| + 1), Parked(ps, s)), g), fuel) ==
      Run(Config(f.result.value, Push(EvalApply(env, rest, |ps| + 2), Parked(ps + [cur], s)), f.globals), f.fuelLeft)
  {
    var ps' := ps + [cur];
    assert Parked(ps', s) == Push(Val(cur), Parked(ps, s)) by {
      assert ps'[..|ps'| - 1] == ps;
    }
    ParkRun(env, e, rest, |ps| + 1, cur, Parked(ps, s), g, fuel);
    SubLift(env, e, Push(EvalApply(env, rest, |ps| + 2), Parked(ps', s)), g, fuel - 1);
  }

  /** A non-empty sequence that evaluates: its first expression's sub-run succeeds with the first value, and the rest evaluate from there. */
  lemma EvalSeqFirst(env: Value, es: seq<Value>, g: map<Value, Value>, fuel: nat, vs: seq<Value>, g2: map<Value, Value>, f2: nat)
    requires es != [] && EvalSeq(env, es, g, fuel) == Some((vs, g2, f2))
    ensures fuel > 0 && vs != []
    ensures SubRun(env, es[0], g, fuel - 1).result == Ok(vs[0])
    ensures var f := SubRun(env, es[0], g, fuel - 1);
      EvalSeq(env, es[1..], f.globals, f.fuelLeft) == Some((vs[1..], g2, f2))
  {
    var f := SubRun(env, es[0], g, fuel - 1);
    var r := EvalSeq(env, es[1..], f.globals, f.fuelLeft).value;
    assert vs == [f.result.value] + r.0;
    assert vs[1..] == r.0;
  }

  /** The configuration at the last continuation call of an application whose values are `all`. */
  function CallConfig(env: Value, all: seq<Value>, s: Stack, g: map<Value, Value>): Config
    requires |all| >= 1
  {
    Config(all[|all| - 1], Push(EvalApply(env, Nil, |all|), Parked(all[..|all| - 1], s)), g)
  }

  /** The configuration in the argument loop, with `ps` parked, `cur` incoming and `es` left. */
  function ArgsConfig(env: Value, es: seq<Value>, ps: seq<Value>, cur: Value, s: Stack, g: map<Value, Value>): Config
  {
    Config(cur, Push(EvalApply(env, FromList(es), |ps| + 1), Parked(ps, s)), g)
  }

  /** The argument loop after its first argument: the run goes on as the loop over the rest, with the first value parked. */
  lemma ArgsRunCons(env: Value, es: seq<Value>, ps: seq<Value>, cur: Value, s: Stack, g: map<Value, Value>, fuel: nat,
                    v1: Value, g1: map<Value, Value>, f1: nat, after: Final)
    requires es != [] && fuel > 0 && SubRun(env, es[0], g, fuel - 1) == Final(Ok(v1), g1, f1)
    requires Run(ArgsConfig(env, es[1..], ps + [cur], v1, s, g1), f1) == after
    ensures Run(ArgsConfig(env, es, ps, cur, s, g), fuel) == after
  {
    assert FromList(es) == Cons(es[0], FromList(es[1..]));
    ArgsStep(env, es[0], FromList(es[1..]), ps, cur, s, g, fuel);
  }

  /**
   * The argument loop: with `ps` parked and `cur` incoming, the remaining
   * argument expressions `es` are evaluated left to right, and the machine
   * arrives at the last continuation call with every value parked in order.
   */
  lemma {:induction false} ArgsRun(env: Value, es: seq<Value>, ps: seq<Value>, cur: Value, s: Stack, g: map<Value, Value>, fuel: nat,
                                   vs: seq<Value>, g2: map<Value, Value>, f2: nat)
    requires EvalSeq(env, es, g, fuel) == Some((vs, g2, f2))
    ensures Run(ArgsConfig(env, es, ps, cur, s, g), fuel) == Run(CallConfig(env, ps + [cur] + vs, s, g2), f2)
    decreases fuel
  {
    if es == [] {
      ArgsRunDone(env, ps, cur, s, g, fuel);
      assert ps + [cur] + vs == ps + [cur];
    } else {
      var f := SubRun(env, es[0], g, fuel - 1);
      EvalSeqFirst(env, es, g, fuel, vs, g2, f2);
      ArgsRun(env, es[1..], ps + [cur], vs[0], s, f.globals, f.fuelLeft, vs[1..], g2, f2);
      assert ps + [cur] + [vs[0]] + vs[1..] == ps + [cur] + vs;
      ArgsRunCons(env, es, ps, cur, s, g, fuel, vs[0], f.globals, f.fuelLeft, Run(CallConfig(env, ps + [cur] + vs, s, g2), f2));
    }
  }

  /** The symbols that name special forms; any other head makes a form an application. */
  predicate IsSpecialForm(v: Value)
  {
    v.Symbol? && v.id in {QuoteId, DoId, DefId, IfId, FnId, CondId, ResolveId, LetId}
  }

  /** A form whose head is not a special form starts as an application: head first, arguments after. */
  lemma ApplicationEntry(env: Value, head: Value, args: Value, s: Stack, g: map<Value, Value>, fuel: nat, v0: Value)
    requires !IsSpecialForm(head) && fuel > 0
    ensures Run(Config(v0, Push(EvalExpr(env, Cons(head, args)), s), g), fuel) ==
      Run(Config(Nil, Push(EvalExpr(env, head), Push(EvalApply(env, args, 1), s)), g), fuel - 1)
  {
    var m := Moved(Nil, Push(EvalExpr(env, head), Push(EvalApply(env, args, 1), s)), None);
    StepRun(v0, EvalExpr(env, Cons(head, args)), s, g, fuel, m);
  }

  /**
   * Application order: the head is evaluated first, then the arguments
   * from left to right, each seeing the global table the previous one left;
   * the head's value is then invoked on the argument values, in order, on
   * the stack the form was evaluated on.
   */
  lemma ApplicationOrder(env: Value, head: Value, es: seq<Value>, s: Stack, g: map<Value, Value>, fuel: nat, v0: Value,
                         hv: Value, g1: map<Value, Value>, f1: nat, vs: seq<Value>, g2: map<Value, Value>, f2: nat)
    requires !IsSpecialForm(head) && fuel > 0
    requires SubRun(env, head, g, fuel - 1) == Final(Ok(hv), g1, f1)
    requires EvalSeq(env, es, g1, f1) == Some((vs, g2, f2)) && f2 > 0
    ensures Run(Config(v0, Push(EvalExpr(env, Cons(head, FromList(es))), s), g), fuel) ==
      match Invoke(hv, FromList(vs), s)
      case Err(e) => Final(Err(e), g2, f2 - 1)
      case Ok(p) => Run(Config(p.0, p.1, g2), f2 - 1)
  {
    var above := Push(EvalApply(env, FromList(es), 1), s);
    ApplicationEntry(env, head, FromList(es), s, g, fuel, v0);
    SubLift(env, head, above, g, fuel - 1);
    assert Parked([], s) == s;
    ArgsRun(env, es, [], hv, s, g1, f1, vs, g2, f2);
    var all := [] + [hv] + vs;
    FinalInvoke(env, all, s, g2, f2);
    assert all[0] == hv && all[1..] == vs;
  }

  /** An application whose call returns normally continues from the call's value and stack. */
  lemma ApplicationReturns(env: Value, head: Value, es: seq<Value>, s: Stack, g: map<Value, Value>, fuel: nat, v0: Value,
                           hv: Value, g1: map<Value, Value>, f1: nat, vs: seq<Value>, g2: map<Value, Value>, f2: nat,
                           v: Value, s2: Stack)
    requires !IsSpecialForm(head) && fuel > 0
    requires SubRun(env, head, g, fuel - 1) == Final(Ok(hv), g1, f1)
    requires EvalSeq(env, es, g1, f1) == Some((vs, g2, f2)) && f2 > 0
    requires Invoke(hv, FromList(vs), s) == Ok((v, s2))
    ensures Run(Config(v0, Push(EvalExpr(env, Cons(head, FromList(es))), s), g), fuel) == Run(Config(v, s2, g2), f2 - 1)
  {
    ApplicationOrder(env, head, es, s, g, fuel, v0, hv, g1, f1, vs, g2, f2);
  }

  /** eval_all is the run of its expression as a sub-expression on the empty stack, less the first call. */
  lemma EvaluateIsSubRun(expr: Value, g: map<Value, Value>, fuel: nat)
    ensures Evaluate(expr, g, fuel) == SubRun(Nil, expr, g, fuel + 1)
  {
    var r := EvalOne(Nil, expr, Tos, g);
    if r.Ok? {
      StepRun(Nil, EvalExpr(Nil, expr), Tos, g, fuel + 1, Moved(r.value.0, r.value.1, None));
    } else {
      StepFails(Nil, EvalExpr(Nil, expr), Tos, g, fuel + 1, r.error);
    }
  }

  /** An expression that is neither a pair nor a symbol evaluates to itself in one call. */
  lemma SelfEvaluating(env: Value, e: Value, g: map<Value, Value>, fuel: nat)
    requires !e.Cons? && !e.Symbol? && fuel > 0
    ensures SubRun(env, e, g, fuel) == Final(Ok(e), g, fuel - 1)
  {
    StepRun(Nil, EvalExpr(env, e), Tos, g, fuel, Moved(e, Tos, None));
  }

  /** A symbol evaluates to what lookup finds for it, in one call. */
  lemma SymbolEvaluates(env: Value, k: Value, g: map<Value, Value>, fuel: nat)
    requires k.Symbol? && fuel > 0
    ensures SubRun(env, k, g, fuel) ==
      match LookupEnv(env, k, g)
      case Ok(v) => Final(Ok(v), g, fuel - 1)
      case Err(e) => Final(Err(e), g, fuel - 1)
  {
    var r := LookupEnv(env, k, g);
    if r.Ok? {
      StepRun(Nil, EvalExpr(env, k), Tos, g, fuel, Moved(r.value, Tos, None));
    } else {
      StepFails(Nil, EvalExpr(env, k), Tos, g, fuel, r.error);
    }
  }

  /** A sequence of constants evaluates to itself, two calls per element, and defines nothing. */
  lemma {:induction false} EvalSeqConstants(env: Value, es: seq<Value>, g: map<Value, Value>, fuel: nat)
    requires forall i :: 0 <= i < |es| ==> !es[i].Cons? && !es[i].Symbol?
    requires fuel >= 2 * |es|
    ensures EvalSeq(env, es, g, fuel) == Some((es, g, fuel - 2 * |es|))
  {
    if es != [] {
      SelfEvaluating(env, es[0], g, fuel - 1);
      EvalSeqConstants(env, es[1..], g, fuel - 2);
      assert [es[0]] + es[1..] == es;
    }
  }
}
