/**
 * The evaluator: a trampoline over an explicit stack of continuation frames.
 * Evaluating an expression either yields a value at once or pushes frames;
 * the driver pops one frame at a time and calls it with the current value,
 * until the stack is empty. Frames and stacks are immutable values; the only
 * state that changes in place is the global table.
 */
module Machine {
  import opened Values
  import opened Symbols
  import opened GlobalTable

  /** The nine kinds of continuation frame. */
  datatype Frame =
    | EvalExpr(env: Value, expr: Value)                    // evaluate `expr` in `env`
    | EvalApply(env: Value, exprs: Value, count: nat)      // arguments still to evaluate; `count` values parked so far, the head included
    | Val(v: Value)                                        // a parked value
    | DoFrame(env: Value, body: Value)                     // the remaining forms of a `do`
    | DefFrame(key: Value)                                 // bind the incoming value globally
    | IfFrame(env: Value, thenExpr: Value, elseExpr: Value)
    | CondFrame(env: Value, exprs: Value)                  // the rest of a `cond` after a test
    | LetFrame(env: Value, sym: Value, binds: Value, body: Value)
    | ResolveFrame                                         // look the incoming value up in the global table

  /** The persistent stack: `Tos` is the empty stack. */
  datatype Stack = Tos | Push(top: Frame, prev: Stack)

  /**
   * What a continuation call yields: the value passed on, the new stack and,
   * for a `def` frame, the global binding it made.
   */
  datatype Moved = Moved(val: Value, stack: Stack, defined: Option<(Value, Value)>)

  /** The driver's state: current value, stack and global table. */
  datatype Config = Config(val: Value, stack: Stack, globals: map<Value, Value>)

  /**
   * How a run ends: its result, the global table at that point (bindings
   * made before a failure stay made) and the fuel left over.
   */
  datatype Final = Final(result: Result<Value, EvalError>, globals: map<Value, Value>, fuelLeft: nat)

  // ---------------------------------------------------------------------
  // Environments
  // ---------------------------------------------------------------------

  /**
   * lookup: the first entry of the association list whose symbol is the key,
   * otherwise the global table. Identity with a symbol is equality of ids.
   */
  function LookupEnv(env: Value, k: Value, g: map<Value, Value>): (r: Result<Value, EvalError>)
    requires k.Symbol?
    decreases env
  {
    if env == Nil then GetGlobal(g, k)
    else
      var entry :- CarOf(env);
      var key :- CarOf(entry);
      if key == k then CdrOf(entry)
      else
        var rest :- CdrOf(env);
        LookupEnv(rest, k, g)
  }

  /**
   * lookup as the source writes it: a while loop down the association list.
   * The step function and the driver use LookupEnv, which this loop is
   * proved equal to; nothing calls the method itself.
   */
  method Lookup(env: Value, k: Value, g: Globals) returns (r: Result<Value, EvalError>)
    requires k.Symbol?
    ensures r == LookupEnv(env, k, g.table)
  {
    var e := env;
    while e != Nil
      invariant LookupEnv(e, k, g.table) == LookupEnv(env, k, g.table)
      decreases e
    {
      if !e.Cons? || !e.car.Cons? {
        return Err(MalformedForm);
      }
      if e.car.car == k {
        return Ok(e.car.cdr);
      }
      e := e.cdr;
    }
    r := g.Get(k);
  }

  /**
   * Lambda.invoke's binding loop: while arguments remain, the next formal is
   * paired with the next argument and consed onto the environment, so the
   * last argument ends up innermost. Running out of formals first fails.
   */
  function Bind(env: Value, formals: Value, args: Value): (r: Result<Value, EvalError>)
    decreases args
  {
    if args == Nil then Ok(env)
    else
      var f :- CarOf(formals);
      var a :- CarOf(args);
      var restFormals :- CdrOf(formals);
      var restArgs :- CdrOf(args);
      Bind(Cons(Cons(f, a), env), restFormals, restArgs)
  }

  /**
   * The binding loop of Lambda.invoke as the source writes it. Invoke uses
   * Bind, which this loop is proved equal to; nothing calls the method itself.
   */
  method BindArgs(env: Value, formals: Value, args: Value) returns (r: Result<Value, EvalError>)
    ensures r == Bind(env, formals, args)
  {
    var newEnv := env;
    var argList := formals;
    var rest := args;
    while rest != Nil
      invariant Bind(newEnv, argList, rest) == Bind(env, formals, args)
      decreases rest
    {
      if !argList.Cons? || !rest.Cons? {
        return Err(MalformedForm);
      }
      newEnv := Cons(Cons(argList.car, rest.car), newEnv);
      argList := argList.cdr;
      rest := rest.cdr;
    }
    r := Ok(newEnv);
  }

  // ---------------------------------------------------------------------
  // Primitives and invocation
  // ---------------------------------------------------------------------

  /** The integer inside an Integer; anything else has no integer field. */
  function IntArg(v: Value): (r: Result<int, EvalError>)
    ensures r.Ok? <==> v.Integer?
    ensures r.Ok? ==> v == Integer(r.value)
  {
    if v.Integer? then Ok(v.int_val) else Err(NotAnInteger)
  }

  /** The second element of an argument list. */
  function Second(args: Value): Result<Value, EvalError>
  {
    var d :- CdrOf(args);
    CarOf(d)
  }

  /**
   * Object identity for `=` on non-integers. It is known exactly when one
   * side is a symbol, a singleton or a primitive, and when the two values
   * differ (different values are different objects). Two equal strings,
   * pairs or closures may or may not be one object, and the model does not
   * guess.
   */
  function Identical(a: Value, b: Value): (r: Result<bool, EvalError>)
    ensures r.Ok? ==> (r.value <==> a == b)
    ensures r.Err? <==> a == b && !IsIdentityKind(a)
    ensures r.Err? ==> r.error == IdentityUnknown
  {
    if IsIdentityKind(a) || IsIdentityKind(b) || a != b then Ok(a == b)
    else Err(IdentityUnknown)
  }

  /** The integer each arithmetic primitive computes; integers are unbounded in this model. */
  function ArithValue(op: PrimOp, x: int, y: int): int
    requires op == Add || op == Sub || op == Mul
  {
    match op
    case Add => x + y
    case Sub => x - y
    case _ => x * y
  }

  /** The comparison each ordering primitive makes. */
  predicate Holds(op: PrimOp, x: int, y: int)
    requires op == Lt || op == Gt || op == Le || op == Ge
  {
    match op
    case Lt => x < y
    case Gt => x > y
    case Le => x <= y
    case _ => x >= y
  }

  /**
   * The primitives other than `apply`: each computes a value from its
   * argument list alone. Extra arguments are ignored; a missing argument
   * fails when the list runs out; the arithmetic and comparison primitives
   * read their first operand before they look for the second. The
   * primitives that print, read files, stop the program or divide are not
   * modelled.
   */
  function PrimValue(op: PrimOp, args: Value): (r: Result<Value, EvalError>)
    requires op != Apply
  {
    match op
    case Lt | Gt | Le | Ge =>
      var a :- CarOf(args);
      var x :- IntArg(a);
      var b :- Second(args);
      var y :- IntArg(b);
      Ok(Boolean(Holds(op, x, y)))
    case Eq =>
      var a :- CarOf(args);
      var b :- Second(args);
      if a.Integer? && b.Integer? then Ok(Boolean(a.int_val == b.int_val))
      else
        var same :- Identical(a, b);
        Ok(Boolean(same))
    case CarOp =>
      var a :- CarOf(args);
      CarOf(a)
    case CdrOp =>
      var a :- CarOf(args);
      CdrOf(a)
    case ConsOp =>
      var a :- CarOf(args);
      var b :- Second(args);
      Ok(Cons(a, b))
    case NilQ =>
      var a :- CarOf(args);
      Ok(Boolean(a == Nil))
    case ConsQ =>
      var a :- CarOf(args);
      Ok(Boolean(a.Cons?))
    case SymbolQ =>
      var a :- CarOf(args);
      Ok(Boolean(a.Symbol?))
    case Inc =>
      var a :- CarOf(args);
      var x :- IntArg(a);
      Ok(Integer(x + 1))
    case Dec =>
      var a :- CarOf(args);
      var x :- IntArg(a);
      Ok(Integer(x - 1))
    case Add | Sub | Mul =>
      var a :- CarOf(args);
      var x :- IntArg(a);
      var b :- Second(args);
      var y :- IntArg(b);
      Ok(Integer(ArithValue(op, x, y)))
    case VarArg =>
      var a :- CarOf(args);
      Ok(Fn(VarArgLambda(a)))
    case Println | LoadFile | Div | Die | ReadFile =>
      Err(Unsupported)
  }

  /**
   * Fn.invoke for every kind of function object. A primitive returns its
   * value and leaves the stack alone; `apply` invokes its first argument on
   * its second; a closure binds its formals and pushes its body; the vararg
   * wrapper passes all its arguments as one list. Calling anything that is
   * not a function fails.
   */
  function Invoke(f: Value, args: Value, stack: Stack): (r: Result<(Value, Stack), EvalError>)
    decreases Size(f) + Size(args)
  {
    match f
    case Fn(Prim(op)) =>
      if op == Apply then
        var g :- CarOf(args);
        var rest :- CdrOf(args);
        var a :- CarOf(rest);
        assert Size(args) == 1 + Size(g) + Size(rest) && Size(rest) > Size(a);
        Invoke(g, a, stack)
      else
        var v :- PrimValue(op, args);
        Ok((v, stack))
    case Fn(Lambda(env, formals, body)) =>
      var newEnv :- Bind(env, formals, args);
      Ok((Nil, Push(EvalExpr(newEnv, body), stack)))
    case Fn(VarArgLambda(g)) =>
      assert Size(Cons(args, Nil)) == 2 + Size(args);
      Invoke(g, Cons(args, Nil), stack)
    case _ => Err(NotCallable)
  }

  // ---------------------------------------------------------------------
  // Argument collection
  // ---------------------------------------------------------------------

  /** Pops `n` parked values, consing each onto the front of `args`. */
  function PopVals(args: Value, stack: Stack, n: nat): (r: Result<(Value, Stack), EvalError>)
    decreases n
  {
    if n == 0 then Ok((args, stack))
    else match stack
      case Push(Val(v), prev) => PopVals(Cons(v, args), prev, n - 1)
      case _ => Err(NotAValueFrame)
  }

  /**
   * The argument collection of EvalApply once every argument is evaluated:
   * the last value starts the list, `count - 2` parked values are consed on
   * in front of it, and the next parked value is the function.
   */
  function PopArgs(val: Value, stack: Stack, count: nat): (r: Result<(Value, Value, Stack), EvalError>)
  {
    var p :- PopVals(Cons(val, Nil), stack, if count >= 2 then count - 2 else 0);
    match p.1
    case Push(Val(f), prev) => Ok((f, p.0, prev))
    case _ => Err(NotAValueFrame)
  }

  /**
   * The for loop of EvalApply's argument collection, as the source writes
   * it. ApplyStep uses PopArgs, which this loop is proved equal to; nothing
   * calls the method itself.
   */
  method CollectArgs(val: Value, stack: Stack, count: nat) returns (r: Result<(Value, Value, Stack), EvalError>)
    ensures r == PopArgs(val, stack, count)
  {
    var args := Cons(val, Nil);
    var s := stack;
    var n := if count >= 2 then count - 2 else 0;
    for x := 0 to n
      invariant PopVals(args, s, n - x) == PopVals(Cons(val, Nil), stack, n)
    {
      if !(s.Push? && s.top.Val?) {
        return Err(NotAValueFrame);
      }
      args := Cons(s.top.v, args);
      s := s.prev;
    }
    if !(s.Push? && s.top.Val?) {
      return Err(NotAValueFrame);
    }
    r := Ok((s.top.v, args, s.prev));
  }

  // ---------------------------------------------------------------------
  // Evaluation of one expression and the special forms
  // ---------------------------------------------------------------------

  /**
   * eval_sexpr: a form whose head is a symbol. The special forms are
   * recognised by the identity of the head symbol; anything else is an
   * application whose head is evaluated first.
   */
  function EvalSexpr(env: Value, sym: Value, args: Value, stack: Stack): (r: Result<(Value, Stack), EvalError>)
    requires sym.Symbol?
  {
    if sym.id == IfId then
      var tail :- CdrOf(args);
      var thenExpr :- CarOf(tail);
      var tail2 :- CdrOf(tail);
      var elseExpr :- CarOf(tail2);
      var test :- CarOf(args);
      Ok((Nil, Push(EvalExpr(env, test), Push(IfFrame(env, thenExpr, elseExpr), stack))))
    else if sym.id == DoId then
      Ok((Nil, Push(DoFrame(env, args), stack)))
    else if sym.id == DefId then
      var key :- CarOf(args);
      var tail :- CdrOf(args);
      var e :- CarOf(tail);
      Ok((Nil, Push(EvalExpr(env, e), Push(DefFrame(key), stack))))
    else if sym.id == QuoteId then
      var quoted :- CarOf(args);
      Ok((quoted, stack))
    else if sym.id == CondId then
      var rest :- CdrOf(args);
      var test :- CarOf(args);
      Ok((Nil, Push(EvalExpr(env, test), Push(CondFrame(env, rest), stack))))
    else if sym.id == ResolveId then
      var e :- CarOf(args);
      Ok((Nil, Push(EvalExpr(env, e), Push(ResolveFrame, stack))))
    else if sym.id == LetId then
      var binds :- CarOf(args);
      var body :- CdrOf(args);
      var first :- CarOf(binds);
      var tail :- CdrOf(binds);
      var more :- CdrOf(tail);
      var e :- CarOf(tail);
      Ok((Nil, Push(EvalExpr(env, e), Push(LetFrame(env, first, more, body), stack))))
    else if sym.id == FnId then
      var formals :- CarOf(args);
      var body :- CdrOf(args);
      Ok((Fn(Lambda(env, formals, Cons(Symbol(DoId), body))), stack))
    else
      Ok((Nil, Push(EvalExpr(env, sym), Push(EvalApply(env, args, 1), stack))))
  }

  /**
   * eval_one: forms headed by a symbol go to eval_sexpr; other pairs are
   * applications; a symbol is looked up; everything else evaluates to itself.
   */
  function EvalOne(env: Value, expr: Value, stack: Stack, g: map<Value, Value>): (r: Result<(Value, Stack), EvalError>)
  {
    if expr.Cons? then
      if expr.car.Symbol? then EvalSexpr(env, expr.car, expr.cdr, stack)
      else Ok((Nil, Push(EvalExpr(env, expr.car), Push(EvalApply(env, expr.cdr, 1), stack))))
    else if expr.Symbol? then
      var v :- LookupEnv(env, expr, g);
      Ok((v, stack))
    else Ok((expr, stack))
  }

  /**
   * EvalApply's continuation: with arguments left, park the incoming value
   * and evaluate the next argument; with none left, collect the parked
   * values and invoke the function.
   */
  function ApplyStep(env: Value, exprs: Value, count: nat, val: Value, stack: Stack): (r: Result<(Value, Stack), EvalError>)
  {
    if exprs == Nil then
      if count == 1 then Invoke(val, Nil, stack)
      else
        var p :- PopArgs(val, stack, count);
        Invoke(p.0, p.1, p.2)
    else
      var rest :- CdrOf(exprs);
      var e :- CarOf(exprs);
      Ok((Nil, Push(EvalExpr(env, e), Push(EvalApply(env, rest, count + 1), Push(Val(val), stack)))))
  }

  /** A continuation result that makes no global binding. */
  function Plain(r: Result<(Value, Stack), EvalError>): Result<Moved, EvalError>
  {
    var p :- r;
    Ok(Moved(p.0, p.1, None))
  }

  /** call_continuation for each kind of frame. */
  function Step(k: Frame, val: Value, stack: Stack, g: map<Value, Value>): (r: Result<Moved, EvalError>)
  {
    match k
    case EvalExpr(env, expr) => Plain(EvalOne(env, expr, stack, g))
    case EvalApply(env, exprs, count) => Plain(ApplyStep(env, exprs, count, val, stack))
    case Val(_) => Ok(Moved(val, stack, None))
    case DoFrame(env, body) =>
      var rest :- CdrOf(body);
      var e :- CarOf(body);
      if rest == Nil then Ok(Moved(Nil, Push(EvalExpr(env, e), stack), None))
      else Ok(Moved(Nil, Push(EvalExpr(env, e), Push(DoFrame(env, rest), stack)), None))
    case DefFrame(key) => Ok(Moved(val, stack, Some((key, val))))
    case IfFrame(env, thenExpr, elseExpr) =>
      Ok(Moved(Nil, Push(EvalExpr(env, if IsFalsy(val) then elseExpr else thenExpr), stack), None))
    case CondFrame(env, exprs) =>
      if !IsFalsy(val) then
        var e :- CarOf(exprs);
        Ok(Moved(Nil, Push(EvalExpr(env, e), stack), None))
      else
        var rest :- CdrOf(exprs);
        if rest == Nil then Ok(Moved(Nil, stack, None))
        else
          var more :- CdrOf(rest);
          var test :- CarOf(rest);
          Ok(Moved(Nil, Push(EvalExpr(env, test), Push(CondFrame(env, more), stack)), None))
    case LetFrame(env, sym, binds, body) =>
      var newEnv := Cons(Cons(sym, val), env);
      if binds == Nil then Ok(Moved(Nil, Push(DoFrame(newEnv, body), stack), None))
      else
        var next :- CarOf(binds);
        var tail :- CdrOf(binds);
        var more :- CdrOf(tail);
        var e :- CarOf(tail);
        Ok(Moved(Nil, Push(EvalExpr(newEnv, e), Push(LetFrame(newEnv, next, more, body), stack)), None))
    case ResolveFrame =>
      var v :- GetGlobal(g, val);
      Ok(Moved(v, stack, None))
  }

  /** The global table after a continuation call. */
  function Defined(g: map<Value, Value>, m: Moved): map<Value, Value>
  {
    match m.defined
    case Some(kv) => g[kv.0 := kv.1]
    case None => g
  }

  // ---------------------------------------------------------------------
  // The driver
  // ---------------------------------------------------------------------

  /**
   * The driver loop with a step budget: pop a frame, call it, repeat until
   * the stack is empty. Each continuation call costs one unit of fuel.
   */
  function Run(c: Config, fuel: nat): (f: Final)
    ensures f.fuelLeft <= fuel
    decreases fuel, 0
  {
    if c.stack == Tos then Final(Ok(c.val), c.globals, fuel)
    else if fuel == 0 then Final(Err(OutOfFuel), c.globals, 0)
    else Continue(Step(c.stack.top, c.val, c.stack.prev, c.globals), c.globals, fuel - 1)
  }

  /** The driver after one continuation call: stop on a failure, otherwise go on running. */
  function Continue(r: Result<Moved, EvalError>, g: map<Value, Value>, fuel: nat): (f: Final)
    ensures f.fuelLeft <= fuel
    decreases fuel, 1
  {
    match r
    case Err(e) => Final(Err(e), g, fuel)
    case Ok(m) => Run(Config(m.val, m.stack, Defined(g, m)), fuel)
  }

  /** eval_all: evaluate `expr` in the empty environment, then run the stack down. */
  function Evaluate(expr: Value, g: map<Value, Value>, fuel: nat): Final
  {
    match EvalOne(Nil, expr, Tos, g)
    case Err(e) => Final(Err(e), g, fuel)
    case Ok(p) => Run(Config(p.0, p.1, g), fuel)
  }

  /**
   * eval_all as the source writes it: a loop that pops and calls frames and
   * applies each global definition to the registry object.
   */
  method EvalAll(expr: Value, g: Globals, fuel: nat) returns (r: Result<Value, EvalError>)
    modifies g
    ensures r == Evaluate(expr, old(g.table), fuel).result
    ensures g.table == Evaluate(expr, old(g.table), fuel).globals
  {
    var first := EvalOne(Nil, expr, Tos, g.table);
    if first.Err? {
      return Err(first.error);
    }
    var val := first.value.0;
    var stack := first.value.1;
    var left := fuel;
    while stack != Tos
      invariant Run(Config(val, stack, g.table), left).result == Evaluate(expr, old(g.table), fuel).result
      invariant Run(Config(val, stack, g.table), left).globals == Evaluate(expr, old(g.table), fuel).globals
      decreases left
    {
      if left == 0 {
        return Err(OutOfFuel);
      }
      var k := stack.top;
      stack := stack.prev;
      var moved := Step(k, val, stack, g.table);
      if moved.Err? {
        return Err(moved.error);
      }
      if moved.value.defined.Some? {
        g.DefGlobal(moved.value.defined.value.0, moved.value.defined.value.1);
      }
      val := moved.value.val;
      stack := moved.value.stack;
      left := left - 1;
    }
    r := Ok(val);
  }
}
