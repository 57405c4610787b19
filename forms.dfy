/**
 * Big-step laws of the special forms, read off the trampoline: each form
 * is evaluated by the frames it pushes, and a sub-expression's run is a unit
 * (see EvalLaws.SubLift), so every law relates the run of a whole form to
 * the runs of its parts.
 */
module FormLaws {
  import opened Values
  import opened Symbols
  import opened GlobalTable
  import opened Machine
  import opened EvalLaws

  /** `(quote d)` yields `d` itself, unevaluated. */
  lemma QuoteLaw(env: Value, d: Value, s: Stack, g: map<Value, Value>, fuel: nat, v0: Value)
    requires fuel > 0
    ensures Run(Config(v0, Push(EvalExpr(env, Cons(Symbol(QuoteId), Cons(d, Nil))), s), g), fuel) ==
      Run(Config(d, s, g), fuel - 1)
  {
    StepRun(v0, EvalExpr(env, Cons(Symbol(QuoteId), Cons(d, Nil))), s, g, fuel, Moved(d, s, None));
  }

  /**
   * `(if c t e)`: the test is evaluated first; the else branch is taken
   * exactly when the test yields nil or false, and the chosen branch is
   * evaluated in the same environment on the stack the form was on.
   */
  lemma IfLaw(env: Value, c: Value, t: Value, e: Value, s: Stack, g: map<Value, Value>, fuel: nat, v0: Value)
    requires fuel > 0 && SubRun(env, c, g, fuel - 1).result.Ok?
    requires SubRun(env, c, g, fuel - 1).fuelLeft > 0
    ensures var f := SubRun(env, c, g, fuel - 1);
      Run(Config(v0, Push(EvalExpr(env, Cons(Symbol(IfId), Cons(c, Cons(t, Cons(e, Nil))))), s), g), fuel) ==
      Run(Config(Nil, Push(EvalExpr(env, if IsFalsy(f.result.value) then e else t), s), f.globals), f.fuelLeft - 1)
  {
    var f := SubRun(env, c, g, fuel - 1);
    var form := Cons(Symbol(IfId), Cons(c, Cons(t, Cons(e, Nil))));
    var above := Push(IfFrame(env, t, e), s);
    StepRun(v0, EvalExpr(env, form), s, g, fuel, Moved(Nil, Push(EvalExpr(env, c), above), None));
    SubLift(env, c, above, g, fuel - 1);
    var branch := if IsFalsy(f.result.value) then e else t;
    StepRun(f.result.value, IfFrame(env, t, e), s, f.globals, f.fuelLeft, Moved(Nil, Push(EvalExpr(env, branch), s), None));
  }

  /** An `if` without an else branch is malformed, whatever its test. */
  lemma IfNeedsElse(env: Value, c: Value, t: Value, s: Stack, g: map<Value, Value>)
    ensures EvalOne(env, Cons(Symbol(IfId), Cons(c, Cons(t, Nil))), s, g) == Err(MalformedForm)
  {
  }

  /**
   * `(def k e)`: `e` is evaluated, the global table binds the key `k`
   * itself (it is not evaluated) to the value, and the value is the result.
   */
  lemma DefLaw(env: Value, k: Value, e: Value, s: Stack, g: map<Value, Value>, fuel: nat, v0: Value)
    requires fuel > 0 && SubRun(env, e, g, fuel - 1).result.Ok?
    requires SubRun(env, e, g, fuel - 1).fuelLeft > 0
    ensures var f := SubRun(env, e, g, fuel - 1);
      Run(Config(v0, Push(EvalExpr(env, Cons(Symbol(DefId), Cons(k, Cons(e, Nil)))), s), g), fuel) ==
      Run(Config(f.result.value, s, f.globals[k := f.result.value]), f.fuelLeft - 1)
  {
    var f := SubRun(env, e, g, fuel - 1);
    var form := Cons(Symbol(DefId), Cons(k, Cons(e, Nil)));
    var above := Push(DefFrame(k), s);
    StepRun(v0, EvalExpr(env, form), s, g, fuel, Moved(Nil, Push(EvalExpr(env, e), above), None));
    SubLift(env, e, above, g, fuel - 1);
    StepRun(f.result.value, DefFrame(k), s, f.globals, f.fuelLeft, Moved(f.result.value, s, Some((k, f.result.value))));
  }

  /** `(fn formals body...)` yields a closure over the current environment whose body is `(do body...)`. */
  lemma FnLaw(env: Value, formals: Value, body: Value, s: Stack, g: map<Value, Value>, fuel: nat, v0: Value)
    requires fuel > 0
    ensures Run(Config(v0, Push(EvalExpr(env, Cons(Symbol(FnId), Cons(formals, body))), s), g), fuel) ==
      Run(Config(Fn(Lambda(env, formals, Cons(Symbol(DoId), body))), s, g), fuel - 1)
  {
    var form := Cons(Symbol(FnId), Cons(formals, body));
    StepRun(v0, EvalExpr(env, form), s, g, fuel, Moved(Fn(Lambda(env, formals, Cons(Symbol(DoId), body))), s, None));
  }

  /** A `do` frame with one expression left evaluates it in its place. */
  lemma DoRunLast(env: Value, e: Value, s: Stack, g: map<Value, Value>, fuel: nat, v: Value)
    requires fuel > 0
    ensures Run(Config(v, Push(DoFrame(env, Cons(e, Nil)), s), g), fuel) ==
      Run(Config(Nil, Push(EvalExpr(env, e), s), g), fuel - 1)
  {
    StepRun(v, DoFrame(env, Cons(e, Nil)), s, g, fuel, Moved(Nil, Push(EvalExpr(env, e), s), None));
  }

  /** A `do` frame with more than one expression left evaluates the first and keeps the rest. */
  lemma DoRunStep(env: Value, e: Value, rest: seq<Value>, s: Stack, g: map<Value, Value>, fuel: nat, v: Value)
    requires fuel > 0 && rest != [] && SubRun(env, e, g, fuel - 1).result.Ok?
    ensures var f := SubRun(env, e, g, fuel - 1);
      Run(Config(v, Push(DoFrame(env, FromList([e] + rest)), s), g), fuel) ==
      Run(Config(f.result.value, Push(DoFrame(env, FromList(rest)), s), f.globals), f.fuelLeft)
  {
    assert ([e] + rest)[1..] == rest;
    assert FromList([e] + rest) == Cons(e, FromList(rest));
    var above := Push(DoFrame(env, FromList(rest)), s);
    StepRun(v, DoFrame(env, FromList([e] + rest)), s, g, fuel, Moved(Nil, Push(EvalExpr(env, e), above), None));
    SubLift(env, e, above, g, fuel - 1);
  }

  /**
   * The body of a `do` frame: every expression but the last is evaluated
   * in turn for its effect on the global table, and the last is then
   * evaluated in its place on the stack beneath, so its value is the
   * value of the whole.
   */
  lemma {:induction false} DoRun(env: Value, es: seq<Value>, s: Stack, g: map<Value, Value>, fuel: nat, v: Value,
                                 vs: seq<Value>, g2: map<Value, Value>, f2: nat)
    requires |es| >= 1 && EvalSeq(env, es[..|es| - 1], g, fuel) == Some((vs, g2, f2)) && f2 > 0
    ensures Run(Config(v, Push(DoFrame(env, FromList(es)), s), g), fuel) ==
      Run(Config(Nil, Push(EvalExpr(env, es[|es| - 1]), s), g2), f2 - 1)
    decreases |es|
  {
    if |es| == 1 {
      assert es[..0] == [];
      DoRunLast(env, es[0], s, g, fuel, v);
      assert FromList(es) == Cons(es[0], Nil);
    } else {
      var init := es[..|es| - 1];
      var rest := es[1..];
      assert init[0] == es[0] && init[1..] == rest[..|rest| - 1];
      var f := SubRun(env, es[0], g, fuel - 1);
      var r' := EvalSeq(env, rest[..|rest| - 1], f.globals, f.fuelLeft).value;
      assert vs == [f.result.value] + r'.0 && g2 == r'.1 && f2 == r'.2;
      assert [es[0]] + rest == es;
      DoRunStep(env, es[0], rest, s, g, fuel, v);
      DoRun(env, rest, s, f.globals, f.fuelLeft, f.result.value, r'.0, g2, f2);
      assert rest[|rest| - 1] == es[|es| - 1];
    }
  }

  /**
   * `(do e1 ... en)`: e1 to e(n-1) are evaluated left to right, then en in
   * place of the form; the form's value is en's.
   */
  lemma DoLaw(env: Value, es: seq<Value>, s: Stack, g: map<Value, Value>, fuel: nat, v0: Value,
              vs: seq<Value>, g2: map<Value, Value>, f2: nat)
    requires fuel > 0 && |es| >= 1
    requires EvalSeq(env, es[..|es| - 1], g, fuel - 1) == Some((vs, g2, f2)) && f2 > 0
    ensures Run(Config(v0, Push(EvalExpr(env, Cons(Symbol(DoId), FromList(es))), s), g), fuel) ==
      Run(Config(Nil, Push(EvalExpr(env, es[|es| - 1]), s), g2), f2 - 1)
  {
    var form := Cons(Symbol(DoId), FromList(es));
    StepRun(v0, EvalExpr(env, form), s, g, fuel, Moved(Nil, Push(DoFrame(env, FromList(es)), s), None));
    DoRun(env, es, s, g, fuel - 1, Nil, vs, g2, f2);
  }

  /** `(do)` with no body is malformed: its frame fails on the empty list. */
  lemma EmptyDoFails(env: Value, s: Stack, g: map<Value, Value>, fuel: nat, v0: Value)
    requires fuel >= 2
    ensures Run(Config(v0, Push(EvalExpr(env, Cons(Symbol(DoId), Nil)), s), g), fuel) ==
      Final(Err(MalformedForm), g, fuel - 2)
  {
    StepRun(v0, EvalExpr(env, Cons(Symbol(DoId), Nil)), s, g, fuel, Moved(Nil, Push(DoFrame(env, Nil), s), None));
  }

  /**
   * The bindings of a `let`, read as a big step: `e` is evaluated in `env`,
   * `x` is bound to its value in front of `env`, and the remaining pairs in
   * `more` are evaluated in the extended environment, one after another.
   * The result is the final environment, global table and fuel; None when an
   * evaluation fails, the fuel runs out, or `more` is not a list of pairs.
   */
  function LetSeq(env: Value, x: Value, e: Value, more: Value, g: map<Value, Value>, fuel: nat): Option<(Value, map<Value, Value>, nat)>
    decreases fuel
  {
    var f := SubRun(env, e, g, fuel);
    if f.result.Err? || f.fuelLeft == 0 then None
    else
      var env' := Cons(Cons(x, f.result.value), env);
      if more == Nil then Some((env', f.globals, f.fuelLeft - 1))
      else if more.Cons? && more.cdr.Cons? then LetSeq(env', more.car, more.cdr.car, more.cdr.cdr, f.globals, f.fuelLeft - 1)
      else None
  }

  /** The binding frames of a `let` carry out LetSeq and then run the body as a `do` in the final environment. */
  lemma {:induction false} LetRun(env: Value, x: Value, e: Value, more: Value, body: Value, s: Stack, g: map<Value, Value>, fuel: nat,
                                  env2: Value, g2: map<Value, Value>, f2: nat)
    requires LetSeq(env, x, e, more, g, fuel) == Some((env2, g2, f2))
    ensures Run(Config(Nil, Push(EvalExpr(env, e), Push(LetFrame(env, x, more, body), s)), g), fuel) ==
      Run(Config(Nil, Push(DoFrame(env2, body), s), g2), f2)
    decreases fuel
  {
    var f := SubRun(env, e, g, fuel);
    var above := Push(LetFrame(env, x, more, body), s);
    SubLift(env, e, above, g, fuel);
    var env' := Cons(Cons(x, f.result.value), env);
    if more == Nil {
      StepRun(f.result.value, LetFrame(env, x, more, body), s, f.globals, f.fuelLeft, Moved(Nil, Push(DoFrame(env', body), s), None));
    } else {
      var next := Push(EvalExpr(env', more.cdr.car), Push(LetFrame(env', more.car, more.cdr.cdr, body), s));
      StepRun(f.result.value, LetFrame(env, x, more, body), s, f.globals, f.fuelLeft, Moved(Nil, next, None));
      LetRun(env', more.car, more.cdr.car, more.cdr.cdr, body, s, f.globals, f.fuelLeft - 1, env2, g2, f2);
    }
  }

  /**
   * `(let (x e more...) body...)`: the bindings are made in sequence, each
   * seeing the ones before it, and the body runs as a `do` in the
   * environment they build.
   */
  lemma LetLaw(env: Value, x: Value, e: Value, more: Value, body: Value, s: Stack, g: map<Value, Value>, fuel: nat, v0: Value,
               env2: Value, g2: map<Value, Value>, f2: nat)
    requires fuel > 0 && LetSeq(env, x, e, more, g, fuel - 1) == Some((env2, g2, f2))
    ensures Run(Config(v0, Push(EvalExpr(env, Cons(Symbol(LetId), Cons(Cons(x, Cons(e, more)), body))), s), g), fuel) ==
      Run(Config(Nil, Push(DoFrame(env2, body), s), g2), f2)
  {
    var form := Cons(Symbol(LetId), Cons(Cons(x, Cons(e, more)), body));
    var next := Push(EvalExpr(env, e), Push(LetFrame(env, x, more, body), s));
    StepRun(v0, EvalExpr(env, form), s, g, fuel, Moved(Nil, next, None));
    LetRun(env, x, e, more, body, s, g, fuel - 1, env2, g2, f2);
  }

  /**
   * The clauses of a `cond`, read as a big step: `t` is the test being
   * evaluated and `rest` the list after it. The first test whose value is
   * truthy selects the expression that follows it; when the last test is
   * falsy and nothing follows, no expression is selected. The result is the
   * selection, the global table and the fuel after the tests; None when a
   * test fails, the fuel runs out or the clause list is malformed (a truthy
   * test with nothing after it, a falsy one followed by a non-list).
   */
  function CondSeq(env: Value, t: Value, rest: Value, g: map<Value, Value>, fuel: nat): Option<(Option<Value>, map<Value, Value>, nat)>
    decreases fuel
  {
    var f := SubRun(env, t, g, fuel);
    if f.result.Err? || f.fuelLeft == 0 || !rest.Cons? then None
    else if !IsFalsy(f.result.value) then Some((Some(rest.car), f.globals, f.fuelLeft - 1))
    else if rest.cdr == Nil then Some((None, f.globals, f.fuelLeft - 1))
    else if rest.cdr.Cons? then CondSeq(env, rest.cdr.car, rest.cdr.cdr, f.globals, f.fuelLeft - 1)
    else None
  }

  /** One `cond` frame whose incoming test value selects the next expression. */
  lemma CondChosen(env: Value, e: Value, more: Value, val: Value, s: Stack, g: map<Value, Value>, fuel: nat)
    requires fuel > 0 && !IsFalsy(val)
    ensures Run(Config(val, Push(CondFrame(env, Cons(e, more)), s), g), fuel) ==
      Run(Config(Nil, Push(EvalExpr(env, e), s), g), fuel - 1)
  {
    StepRun(val, CondFrame(env, Cons(e, more)), s, g, fuel, Moved(Nil, Push(EvalExpr(env, e), s), None));
  }

  /** One `cond` frame with a falsy test value: the next test is evaluated, or nil is the value when none is left. */
  lemma CondSkipped(env: Value, e: Value, more: Value, val: Value, s: Stack, g: map<Value, Value>, fuel: nat)
    requires fuel > 0 && IsFalsy(val) && (more == Nil || more.Cons?)
    ensures Run(Config(val, Push(CondFrame(env, Cons(e, more)), s), g), fuel) ==
      if more == Nil then Run(Config(Nil, s, g), fuel - 1)
      else Run(Config(Nil, Push(EvalExpr(env, more.car), Push(CondFrame(env, more.cdr), s)), g), fuel - 1)
  {
    var next := if more == Nil then s else Push(EvalExpr(env, more.car), Push(CondFrame(env, more.cdr), s));
    StepRun(val, CondFrame(env, Cons(e, more)), s, g, fuel, Moved(Nil, next, None));
  }

  /**
   * The test frames of a `cond` carry out CondSeq: the selected expression
   * is then evaluated in place of the form, and with none selected the value
   * is nil.
   */
  lemma {:induction false} CondRun(env: Value, t: Value, rest: Value, s: Stack, g: map<Value, Value>, fuel: nat,
                                   chosen: Option<Value>, g2: map<Value, Value>, f2: nat)
    requires CondSeq(env, t, rest, g, fuel) == Some((chosen, g2, f2))
    ensures Run(Config(Nil, Push(EvalExpr(env, t), Push(CondFrame(env, rest), s)), g), fuel) ==
      if chosen.Some? then Run(Config(Nil, Push(EvalExpr(env, chosen.value), s), g2), f2)
      else Run(Config(Nil, s, g2), f2)
    decreases fuel
  {
    var f := SubRun(env, t, g, fuel);
    SubLift(env, t, Push(CondFrame(env, rest), s), g, fuel);
    if !IsFalsy(f.result.value) {
      CondChosen(env, rest.car, rest.cdr, f.result.value, s, f.globals, f.fuelLeft);
    } else {
      CondSkipped(env, rest.car, rest.cdr, f.result.value, s, f.globals, f.fuelLeft);
      if rest.cdr != Nil {
        CondRun(env, rest.cdr.car, rest.cdr.cdr, s, f.globals, f.fuelLeft - 1, chosen, g2, f2);
      }
    }
  }

  /**
   * `(cond t1 e1 t2 e2 ...)`: the tests are evaluated in order until one is
   * truthy, and the expression after it is evaluated in place of the form;
   * with every test falsy the value is nil.
   */
  lemma CondLaw(env: Value, t: Value, rest: Value, s: Stack, g: map<Value, Value>, fuel: nat, v0: Value,
                chosen: Option<Value>, g2: map<Value, Value>, f2: nat)
    requires fuel > 0 && CondSeq(env, t, rest, g, fuel - 1) == Some((chosen, g2, f2))
    ensures Run(Config(v0, Push(EvalExpr(env, Cons(Symbol(CondId), Cons(t, rest))), s), g), fuel) ==
      if chosen.Some? then Run(Config(Nil, Push(EvalExpr(env, chosen.value), s), g2), f2)
      else Run(Config(Nil, s, g2), f2)
  {
    var form := Cons(Symbol(CondId), Cons(t, rest));
    StepRun(v0, EvalExpr(env, form), s, g, fuel, Moved(Nil, Push(EvalExpr(env, t), Push(CondFrame(env, rest), s)), None));
    CondRun(env, t, rest, s, g, fuel - 1, chosen, g2, f2);
  }

  /** `(cond)` with no clause is malformed: there is no first test to take. */
  lemma EmptyCondFails(env: Value, s: Stack, g: map<Value, Value>, fuel: nat, v0: Value)
    requires fuel > 0
    ensures EvalOne(env, Cons(Symbol(CondId), Nil), s, g) == Err(MalformedForm)
    ensures Run(Config(v0, Push(EvalExpr(env, Cons(Symbol(CondId), Nil)), s), g), fuel) ==
      Final(Err(MalformedForm), g, fuel - 1)
  {
    StepFails(v0, EvalExpr(env, Cons(Symbol(CondId), Nil)), s, g, fuel, MalformedForm);
  }

  /**
   * A `cond` frame with nothing after its test fails whatever the test's
   * value: a truthy test has no expression to select, and a falsy one has no
   * rest to continue with.
   */
  lemma CondExhaustedFails(env: Value, val: Value, s: Stack, g: map<Value, Value>)
    ensures Step(CondFrame(env, Nil), val, s, g) == Err(MalformedForm)
  {
  }

  /** `(cond c)`: the lone test is evaluated, and then the form fails as malformed. */
  lemma LoneTestFails(env: Value, c: Value, s: Stack, g: map<Value, Value>, fuel: nat, v0: Value)
    requires fuel > 0
    requires var f := SubRun(env, c, g, fuel - 1); f.result.Ok? && f.fuelLeft > 0
    ensures var f := SubRun(env, c, g, fuel - 1);
      Run(Config(v0, Push(EvalExpr(env, Cons(Symbol(CondId), Cons(c, Nil))), s), g), fuel) ==
        Final(Err(MalformedForm), f.globals, f.fuelLeft - 1)
  {
    var form := Cons(Symbol(CondId), Cons(c, Nil));
    var above := Push(CondFrame(env, Nil), s);
    StepRun(v0, EvalExpr(env, form), s, g, fuel, Moved(Nil, Push(EvalExpr(env, c), above), None));
    SubLift(env, c, above, g, fuel - 1);
    var f := SubRun(env, c, g, fuel - 1);
    CondExhaustedFails(env, f.result.value, s, f.globals);
    StepFails(f.result.value, CondFrame(env, Nil), s, f.globals, f.fuelLeft, MalformedForm);
  }

  /** `(let () body...)` is malformed: the binding list has no first symbol. */
  lemma EmptyLetFails(env: Value, body: Value, s: Stack, g: map<Value, Value>, fuel: nat, v0: Value)
    requires fuel > 0
    ensures EvalOne(env, Cons(Symbol(LetId), Cons(Nil, body)), s, g) == Err(MalformedForm)
    ensures Run(Config(v0, Push(EvalExpr(env, Cons(Symbol(LetId), Cons(Nil, body))), s), g), fuel) ==
      Final(Err(MalformedForm), g, fuel - 1)
  {
    StepFails(v0, EvalExpr(env, Cons(Symbol(LetId), Cons(Nil, body))), s, g, fuel, MalformedForm);
  }

  /** `(let (x) body...)` is malformed: the first symbol has no expression after it. */
  lemma LoneLetSymbolFails(env: Value, x: Value, body: Value, s: Stack, g: map<Value, Value>, fuel: nat, v0: Value)
    requires fuel > 0
    ensures EvalOne(env, Cons(Symbol(LetId), Cons(Cons(x, Nil), body)), s, g) == Err(MalformedForm)
    ensures Run(Config(v0, Push(EvalExpr(env, Cons(Symbol(LetId), Cons(Cons(x, Nil), body))), s), g), fuel) ==
      Final(Err(MalformedForm), g, fuel - 1)
  {
    StepFails(v0, EvalExpr(env, Cons(Symbol(LetId), Cons(Cons(x, Nil), body))), s, g, fuel, MalformedForm);
  }

  /**
   * A later binding symbol with no expression after it fails once the
   * binding before it is made: the binding list of a `let` must have even
   * length all the way through.
   */
  lemma OddLetBindingFails(env: Value, x: Value, y: Value, body: Value, val: Value, s: Stack, g: map<Value, Value>)
    ensures Step(LetFrame(env, x, Cons(y, Nil), body), val, s, g) == Err(MalformedForm)
  {
  }

  /**
   * `(resolve e)`: `e` is evaluated and its value is looked up as a key of
   * the global table; a key that is not bound there fails.
   */
  lemma ResolveLaw(env: Value, e: Value, s: Stack, g: map<Value, Value>, fuel: nat, v0: Value,
                   k: Value, g1: map<Value, Value>, f1: nat)
    requires fuel > 0 && SubRun(env, e, g, fuel - 1) == Final(Ok(k), g1, f1) && f1 > 0
    ensures Run(Config(v0, Push(EvalExpr(env, Cons(Symbol(ResolveId), Cons(e, Nil))), s), g), fuel) ==
      if GetGlobal(g1, k).Ok? then Run(Config(GetGlobal(g1, k).value, s, g1), f1 - 1)
      else Final(Err(UnboundSymbol), g1, f1 - 1)
  {
    var form := Cons(Symbol(ResolveId), Cons(e, Nil));
    StepRun(v0, EvalExpr(env, form), s, g, fuel, Moved(Nil, Push(EvalExpr(env, e), Push(ResolveFrame, s)), None));
    SubLift(env, e, Push(ResolveFrame, s), g, fuel - 1);
    var r := GetGlobal(g1, k);
    if r.Ok? {
      StepRun(k, ResolveFrame, s, g1, f1, Moved(r.value, s, None));
    } else {
      StepFails(k, ResolveFrame, s, g1, f1, r.error);
    }
  }
}
