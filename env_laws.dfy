/**
 * Laws of environments. An environment is an association list of
 * (symbol . value) pairs, innermost first, in front of an outer
 * environment; lookup finds the innermost pair for a symbol and falls back
 * to the global table. Binding a closure's formals to its arguments pairs
 * them up in order and puts the last argument innermost.
 */
module EnvLaws {
  import opened Values
  import opened GlobalTable
  import opened Machine

  /** The environment whose innermost bindings are `ps`, in order, in front of `outer`. */
  function Prepend(ps: seq<(Value, Value)>, outer: Value): Value
  {
    if ps == [] then outer else Cons(Cons(ps[0].0, ps[0].1), Prepend(ps[1..], outer))
  }

  /** Lookup finds the innermost binding of the symbol: the first pair with that key. */
  lemma {:induction false} LookupFound(ps: seq<(Value, Value)>, outer: Value, k: Value, g: map<Value, Value>, i: nat)
    requires k.Symbol? && i < |ps| && ps[i].0 == k
    requires forall j :: 0 <= j < i ==> ps[j].0 != k
    ensures LookupEnv(Prepend(ps, outer), k, g) == Ok(ps[i].1)
  {
    if i > 0 {
      assert ps[0].0 != k;
      LookupFound(ps[1..], outer, k, g, i - 1);
    }
  }

  /** A symbol bound nowhere in `ps` is looked up in the outer environment. */
  lemma {:induction false} LookupSkips(ps: seq<(Value, Value)>, outer: Value, k: Value, g: map<Value, Value>)
    requires k.Symbol?
    requires forall j :: 0 <= j < |ps| ==> ps[j].0 != k
    ensures LookupEnv(Prepend(ps, outer), k, g) == LookupEnv(outer, k, g)
  {
    if ps != [] {
      assert ps[0].0 != k;
      LookupSkips(ps[1..], outer, k, g);
    }
  }

  /** In the empty environment every symbol is a global. */
  lemma LookupGlobal(k: Value, g: map<Value, Value>)
    requires k.Symbol?
    ensures LookupEnv(Nil, k, g) == GetGlobal(g, k)
    ensures LookupEnv(Nil, k, g).Ok? <==> k in g
  {
  }

  /** An environment that is not an association list makes lookup fail. */
  lemma LookupMalformed(env: Value, k: Value, g: map<Value, Value>)
    requires k.Symbol? && env != Nil && !(env.Cons? && env.car.Cons?)
    ensures LookupEnv(env, k, g) == Err(MalformedForm)
  {
  }

  /** The formals paired with the arguments, last pair first. */
  function Pairing(fs: seq<Value>, xs: seq<Value>): (ps: seq<(Value, Value)>)
    requires |xs| <= |fs|
    ensures |ps| == |xs|
    ensures forall i :: 0 <= i < |xs| ==> ps[|xs| - 1 - i] == (fs[i], xs[i])
  {
    if xs == [] then [] else Pairing(fs[1..], xs[1..]) + [(fs[0], xs[0])]
  }

  /**
   * Binding: when there are at most as many arguments as formals, each
   * argument is paired with the formal in its position, the last one
   * innermost, in front of the closure's environment; formals left over
   * stay unbound. More arguments than formals is an error.
   */
  lemma {:induction false} BindSpec(env: Value, fs: seq<Value>, xs: seq<Value>)
    ensures |xs| <= |fs| ==> Bind(env, FromList(fs), FromList(xs)) == Ok(Prepend(Pairing(fs, xs), env))
    ensures |xs| > |fs| ==> Bind(env, FromList(fs), FromList(xs)) == Err(MalformedForm)
    decreases |xs|
  {
    if xs != [] {
      if fs == [] {
        assert FromList(fs) == Nil;
      } else {
        var inner := Cons(Cons(fs[0], xs[0]), env);
        BindSpec(inner, fs[1..], xs[1..]);
        if |xs| <= |fs| {
          PrependSnoc(Pairing(fs[1..], xs[1..]), (fs[0], xs[0]), env);
        }
      }
    }
  }

  /** Adding a pair at the outer end of the bindings is consing it onto the outer environment. */
  lemma {:induction false} PrependSnoc(ps: seq<(Value, Value)>, p: (Value, Value), outer: Value)
    ensures Prepend(ps + [p], outer) == Prepend(ps, Cons(Cons(p.0, p.1), outer))
  {
    if ps != [] {
      assert (ps + [p])[1..] == ps[1..] + [p];
      PrependSnoc(ps[1..], p, outer);
    } else {
      assert ps + [p] == [p];
    }
  }

  /**
   * Inside a closure called with arguments `xs` for distinct formals `fs`,
   * each supplied formal denotes its own argument, and a formal with no
   * argument is looked up in the closure's environment instead.
   */
  lemma BindLookup(env: Value, fs: seq<Value>, xs: seq<Value>, g: map<Value, Value>, i: nat)
    requires |xs| <= |fs| && i < |fs| && fs[i].Symbol?
    requires forall a, b :: 0 <= a < b < |fs| ==> fs[a] != fs[b]
    ensures Bind(env, FromList(fs), FromList(xs)).Ok?
    ensures i < |xs| ==> LookupEnv(Bind(env, FromList(fs), FromList(xs)).value, fs[i], g) == Ok(xs[i])
    ensures i >= |xs| ==> LookupEnv(Bind(env, FromList(fs), FromList(xs)).value, fs[i], g) == LookupEnv(env, fs[i], g)
  {
    BindSpec(env, fs, xs);
    var ps := Pairing(fs, xs);
    if i < |xs| {
      var j := |xs| - 1 - i;
      assert ps[j] == (fs[i], xs[i]);
      forall m | 0 <= m < j
        ensures ps[m].0 != fs[i]
      {
        assert ps[m] == (fs[|xs| - 1 - m], xs[|xs| - 1 - m]);
      }
      LookupFound(ps, env, fs[i], g, j);
    } else {
      forall m | 0 <= m < |ps|
        ensures ps[m].0 != fs[i]
      {
        assert ps[m] == (fs[|xs| - 1 - m], xs[|xs| - 1 - m]);
      }
      LookupSkips(ps, env, fs[i], g);
    }
  }

  /** A `let` binding shadows every outer binding of the same symbol. */
  lemma LetShadows(x: Value, v: Value, env: Value, g: map<Value, Value>)
    requires x.Symbol?
    ensures LookupEnv(Cons(Cons(x, v), env), x, g) == Ok(v)
  {
  }
}
