/**
 * The value model of the interpreter: every runtime datum is one immutable
 * tagged variant. Symbols are represented by the identity the symbol
 * registry gave them, so the interpreter's identity comparisons on symbols
 * become comparisons of ids.
 */
module Values {

  datatype Option<T> = None | Some(value: T)

  /** The success-or-failure type used for every operation that can raise. */
  datatype Result<T, E> = Ok(value: T) | Err(error: E) {
    predicate IsFailure() { Err? }

    function PropagateFailure<U>(): Result<U, E>
      requires Err?
    {
      Err(error)
    }

    function Extract(): T
      requires Ok?
    {
      value
    }
  }

  /**
   * The primitive functions, in the order in which the source registers
   * them in its table of global functions.
   */
  datatype PrimOp =
    | Println | LoadFile | Lt | Gt | Le | Ge | Eq | CarOp | CdrOp | ConsOp
    | NilQ | ConsQ | SymbolQ | Inc | Dec | Add | Sub | Mul | Div
    | VarArg | Apply | Die | ReadFile

  datatype Value =
    | Integer(int_val: int)
    | Str(str_val: string)
    | Symbol(id: nat)
    | Nil
    | Boolean(is_true: bool)
    | Cons(car: Value, cdr: Value)
    | Fn(f: Func)

  /** The two kinds of function object: primitives and closures, plus the wrapper made by `vararg`. */
  datatype Func =
    | Prim(op: PrimOp)
    | Lambda(env: Value, formals: Value, body: Value)
    | VarArgLambda(target: Value)

  /** The failures the evaluator can raise (each aborts the whole evaluation). */
  datatype EvalError =
    | MalformedForm      // car or cdr of something that is not a pair
    | UnboundSymbol      // a key missing from the global table
    | NotCallable        // invoke on a value that is not a function
    | NotAnInteger       // an arithmetic or comparison primitive given a non-integer
    | NotAValueFrame     // argument collection popped a frame that holds no value
    | Unsupported        // a primitive whose behaviour is input/output and is not modelled
    | IdentityUnknown    // object identity of two equal strings, pairs or closures
    | OutOfFuel          // the driver's step budget ran out

  /** `nil` and `false` are the only falsy values; zero, the empty string and every pair are truthy. */
  predicate IsFalsy(v: Value) {
    v == Nil || v == Boolean(false)
  }

  /**
   * Values whose object identity coincides with equality of the model's
   * values: symbols (interned), the `nil`, `true` and `false` singletons,
   * and the primitive function objects (one instance each).
   */
  predicate IsIdentityKind(v: Value) {
    v.Symbol? || v.Nil? || v.Boolean? || (v.Fn? && v.f.Prim?)
  }

  /** The `car` of a pair; any other value fails. */
  function CarOf(v: Value): (r: Result<Value, EvalError>)
    ensures r.Ok? <==> v.Cons?
    ensures r.Ok? ==> v == Cons(r.value, v.cdr)
    ensures r.Err? ==> r.error == MalformedForm
  {
    if v.Cons? then Ok(v.car) else Err(MalformedForm)
  }

  /** The `cdr` of a pair; any other value fails. */
  function CdrOf(v: Value): (r: Result<Value, EvalError>)
    ensures r.Ok? <==> v.Cons?
    ensures r.Ok? ==> v == Cons(v.car, r.value)
    ensures r.Err? ==> r.error == MalformedForm
  {
    if v.Cons? then Ok(v.cdr) else Err(MalformedForm)
  }

  /** The list whose elements are `xs`, terminated by `nil`. */
  function FromList(xs: seq<Value>): Value
  {
    if xs == [] then Nil else Cons(xs[0], FromList(xs[1..]))
  }

  /** The elements of a proper (nil-terminated) list, or None for anything else. */
  function Elements(v: Value): Option<seq<Value>>
  {
    match v
    case Nil => Some([])
    case Cons(a, d) =>
      (match Elements(d)
       case Some(rest) => Some([a] + rest)
       case None => None)
    case _ => None
  }

  /** The two-element list. */
  lemma FromListPair(a: Value, b: Value)
    ensures FromList([a, b]) == Cons(a, Cons(b, Nil))
  {
    assert [a, b][1..] == [b] && [b][1..] == [];
    assert FromList([b]) == Cons(b, FromList([]));
  }

  /** Building a list from a sequence and reading its elements back gives the sequence. */
  lemma {:induction false} ElementsFromList(xs: seq<Value>)
    ensures Elements(FromList(xs)) == Some(xs)
  {
    if xs != [] {
      ElementsFromList(xs[1..]);
      assert [xs[0]] + xs[1..] == xs;
    }
  }

  /** A proper list is rebuilt exactly from its elements. */
  lemma {:induction false} FromListElements(v: Value)
    requires Elements(v).Some?
    ensures FromList(Elements(v).value) == v
  {
    if v.Cons? {
      FromListElements(v.cdr);
      var rest := Elements(v.cdr).value;
      assert ([v.car] + rest)[1..] == rest;
    }
  }

  /**
   * Cons.from_list: walks the sequence from its end, consing each element
   * onto the list built so far.
   */
  method ConsFromList(lst: seq<Value>) returns (acc: Value)
    ensures acc == FromList(lst)
    ensures Elements(acc) == Some(lst)
  {
    acc := Nil;
    var i := |lst|;
    while i > 0
      invariant 0 <= i <= |lst|
      invariant acc == FromList(lst[i..])
    {
      i := i - 1;
      assert lst[i..][1..] == lst[i + 1..];
      acc := Cons(lst[i], acc);
    }
    assert lst[0..] == lst;
    ElementsFromList(lst);
  }

  /**
   * A size measure under which every nested invocation the primitives
   * perform (`apply` and the `vararg` wrapper) is smaller than its caller.
   */
  function Size(v: Value): nat
  {
    match v
    case Cons(a, d) => 1 + Size(a) + Size(d)
    case Fn(f) => (match f case VarArgLambda(g) => 3 + Size(g) case _ => 1)
    case _ => 1
  }
}
