/**
 * The global table: a mutable dictionary from keys to values, filled at
 * start-up with the primitive functions under their interned names. The
 * dictionary hashes its keys by object identity, so a key is found only
 * when the very object used to define it is presented again.
 */
module GlobalTable {
  import opened Values
  import opened Symbols

  /** The primitives in registration order; the i-th is registered under PrimNames[i]. */
  const PrimOps: seq<PrimOp> := [
    Println, LoadFile, Lt, Gt, Le, Ge, Eq, CarOp, CdrOp, ConsOp,
    NilQ, ConsQ, SymbolQ, Inc, Dec, Add, Sub, Mul, Div, VarArg,
    Apply, Die, ReadFile]

  /**
   * get_global: a key is found only when it is an object whose identity the
   * model knows (a symbol, a singleton or a primitive) and it has an entry.
   * Strings, integers, pairs and closures are distinct objects from any key
   * defined elsewhere in the program, so looking them up misses.
   */
  function GetGlobal(table: map<Value, Value>, k: Value): (r: Result<Value, EvalError>)
    ensures r.Ok? <==> IsIdentityKind(k) && k in table
    ensures r.Ok? ==> r.value == table[k]
    ensures r.Err? ==> r.error == UnboundSymbol
  {
    if IsIdentityKind(k) && k in table then Ok(table[k]) else Err(UnboundSymbol)
  }

  /** The registration order of global_fns: each primitive's symbol with its function object. */
  function PrimEntries(): (es: seq<(Value, Value)>)
    ensures |es| == PrimCount
  {
    seq(|PrimOps|, i requires 0 <= i < |PrimOps| => (Symbol(i), Fn(Prim(PrimOps[i]))))
  }

  /** The first `n` primitives, each under the symbol whose id is its position. */
  function PrimTableUpTo(n: nat): map<Value, Value>
    requires n <= |PrimOps|
  {
    if n == 0 then map[]
    else PrimTableUpTo(n - 1)[Symbol(n - 1) := Fn(Prim(PrimOps[n - 1]))]
  }

  /** The table reset_globals produces. */
  function PrimTable(): map<Value, Value>
  {
    PrimTableUpTo(|PrimOps|)
  }

  /** The first `n` primitives are bound under their ids, and nothing else is. */
  lemma {:induction false} PrimTableUpToSpec(n: nat, k: Value)
    requires n <= |PrimOps|
    ensures k in PrimTableUpTo(n) <==> k.Symbol? && k.id < n
    ensures k in PrimTableUpTo(n) ==> PrimTableUpTo(n)[k] == Fn(Prim(PrimOps[k.id]))
  {
    if n > 0 {
      PrimTableUpToSpec(n - 1, k);
    }
  }

  /**
   * After loading, the name of primitive i is interned as the symbol with id
   * i, and that symbol is bound to primitive i.
   */
  lemma PrimTableBoot(i: nat)
    requires i < PrimCount
    ensures PrimNames[i] in Boot().ids && Boot().ids[PrimNames[i]] == i
    ensures GetGlobal(PrimTable(), Symbol(i)) == Ok(Fn(Prim(PrimOps[i])))
  {
    BootTable();
    assert BootNames[i] == PrimNames[i];
    PrimTableUpToSpec(|PrimOps|, Symbol(i));
  }

  /** Only the primitives' symbols are bound after a reset; every other key misses. */
  lemma PrimTableKeys(k: Value)
    ensures GetGlobal(PrimTable(), k).Ok? <==> k.Symbol? && k.id < PrimCount
  {
    PrimTableUpToSpec(|PrimOps|, k);
  }

  /** The global registry object. */
  class Globals {
    var table: map<Value, Value>

    constructor ()
      ensures table == map[]
    {
      table := map[];
    }

    /** def_global: binds or rebinds `k`. */
    method DefGlobal(k: Value, v: Value)
      modifies this
      ensures table == old(table)[k := v]
    {
      table := table[k := v];
    }

    /** get_global over the object's current table. */
    method Get(k: Value) returns (r: Result<Value, EvalError>)
      ensures r == GetGlobal(table, k)
    {
      if IsIdentityKind(k) && k in table {
        r := Ok(table[k]);
      } else {
        r := Err(UnboundSymbol);
      }
    }

    /** clear: removes every binding. */
    method Clear()
      modifies this
      ensures table == map[]
    {
      table := map[];
    }
  }

  /** reset_globals: clears the table, then defines each primitive in registration order. */
  method ResetGlobals(g: Globals)
    modifies g
    ensures g.table == PrimTable()
  {
    g.Clear();
    var entries := PrimEntries();
    for n := 0 to |entries|
      invariant g.table == PrimTableUpTo(n)
    {
      g.DefGlobal(entries[n].0, entries[n].1);
    }
  }
}
