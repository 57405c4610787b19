/**
 * Symbol interning. The registry maps symbol text to the one Symbol object
 * made for it; a Symbol is identified by the id it received when its text
 * was first interned. A fresh id is the registry's allocation counter, which
 * stands for the identity of a newly allocated object.
 */
module Symbols {

  /** The registry's state: the text-to-id map and the next unused id. */
  datatype Table = Table(ids: map<string, nat>, next: nat)

  const EmptyTable: Table := Table(map[], 0)

  /** Every id is below the allocation counter, and distinct texts have distinct ids. */
  ghost predicate WellFormed(t: Table) {
    (forall s :: s in t.ids ==> t.ids[s] < t.next) &&
    (forall s, u :: s in t.ids && u in t.ids && s != u ==> t.ids[s] != t.ids[u])
  }

  /**
   * SymbolRegistry.intern as a function of the registry state: the id
   * already recorded for `text`, or a fresh id recorded for it now.
   */
  function InternIn(t: Table, text: string): (r: (Table, nat))
    ensures text in r.0.ids && r.0.ids[text] == r.1
    ensures t.ids.Keys <= r.0.ids.Keys && r.0.ids.Keys == t.ids.Keys + {text}
    ensures forall s :: s in t.ids ==> r.0.ids[s] == t.ids[s]
    ensures text in t.ids ==> r.0 == t
    ensures WellFormed(t) && text !in t.ids ==> forall s :: s in t.ids ==> t.ids[s] != r.1
    ensures WellFormed(t) ==> WellFormed(r.0)
  {
    if text in t.ids then (t, t.ids[text])
    else (Table(t.ids[text := t.next], t.next + 1), t.next)
  }

  /** Interns each text of `names` in order. */
  function InternAll(t: Table, names: seq<string>): Table
    decreases |names|
  {
    if names == [] then t else InternAll(InternIn(t, names[0]).0, names[1..])
  }

  /**
   * The texts the interpreter interns while it loads, in load order: the
   * names of the primitives as they are registered, then the reserved
   * symbols of the evaluator.
   */
  const BootNames: seq<string> := PrimNames + SpecialNames

  /** The names of the primitives, in the order the global table registers them. */
  const PrimNames: seq<string> := PrimNamesA + PrimNamesB + PrimNamesC

  const PrimNamesA: seq<string> := ["println", "load-file", "<", ">", "<=", ">=", "=", "car"]
  const PrimNamesB: seq<string> := ["cdr", "cons", "nil?", "cons?", "symbol?", "inc", "dec", "+"]
  const PrimNamesC: seq<string> := ["-", "*", "/", "vararg", "apply", "die", "read-file"]

  /** The reserved symbols the evaluator compares against. */
  const SpecialNames: seq<string> := ["quote", "do", "def", "if", "fn", "cond", "resolve", "let"]

  /** Number of primitive names at the head of BootNames. */
  const PrimCount: nat := 23

  const QuoteId: nat := 23
  const DoId: nat := 24
  const DefId: nat := 25
  const IfId: nat := 26
  const FnId: nat := 27
  const CondId: nat := 28
  const ResolveId: nat := 29
  const LetId: nat := 30

  /** The registry after the interpreter has loaded. */
  function Boot(): Table {
    InternAll(EmptyTable, BootNames)
  }

  /** A table whose ids are exactly the positions of `names`, starting at `base`. */
  ghost predicate NumbersFrom(t: Table, names: seq<string>, base: nat) {
    t.next == base + |names| &&
    t.ids.Keys == (set i | 0 <= i < |names| :: names[i]) &&
    forall i :: 0 <= i < |names| ==> t.ids[names[i]] == base + i
  }

  ghost predicate Distinct(names: seq<string>) {
    forall i, j :: 0 <= i < j < |names| ==> names[i] != names[j]
  }

  /**
   * Interning distinct new texts in order gives them consecutive fresh ids
   * and leaves every earlier entry as it was.
   */
  lemma {:induction false} InternAllDistinct(t: Table, names: seq<string>)
    requires Distinct(names)
    requires forall i :: 0 <= i < |names| ==> names[i] !in t.ids
    ensures InternAll(t, names).next == t.next + |names|
    ensures InternAll(t, names).ids.Keys == t.ids.Keys + (set i | 0 <= i < |names| :: names[i])
    ensures forall s :: s in t.ids ==> InternAll(t, names).ids[s] == t.ids[s]
    ensures forall i :: 0 <= i < |names| ==> InternAll(t, names).ids[names[i]] == t.next + i
    decreases |names|
  {
    if names != [] {
      var t1 := InternIn(t, names[0]).0;
      var tail := names[1..];
      assert forall i :: 0 <= i < |tail| ==> tail[i] == names[i + 1];
      InternAllDistinct(t1, tail);
      var r := InternAll(t, names);
      assert r == InternAll(t1, tail);
      var all := set i | 0 <= i < |names| :: names[i];
      assert all == {names[0]} + (set i | 0 <= i < |tail| :: tail[i]) by {
        forall x | x in all
          ensures x in {names[0]} + (set i | 0 <= i < |tail| :: tail[i])
        {
          var i :| 0 <= i < |names| && names[i] == x;
          if i > 0 { assert tail[i - 1] == x; }
        }
      }
      forall i | 0 <= i < |names|
        ensures r.ids[names[i]] == t.next + i
      {
        if i > 0 { assert names[i] == tail[i - 1]; }
      }
    }
  }

  /** No name of `a` occurs in `b`. */
  ghost predicate Disjoint(a: seq<string>, b: seq<string>) {
    forall i, j :: 0 <= i < |a| && 0 <= j < |b| ==> a[i] != b[j]
  }

  /** Two sequences of distinct names with no name in common concatenate to distinct names. */
  lemma DistinctAppend(a: seq<string>, b: seq<string>)
    requires Distinct(a) && Distinct(b) && Disjoint(a, b)
    ensures Distinct(a + b)
  {
    forall i, j | 0 <= i < j < |a + b|
      ensures (a + b)[i] != (a + b)[j]
    {
      if i >= |a| {
        assert (a + b)[i] == b[i - |a|] && (a + b)[j] == b[j - |a|];
      } else if j >= |a| {
        assert (a + b)[i] == a[i] && (a + b)[j] == b[j - |a|];
      }
    }
  }

  lemma DisjointAppend(a: seq<string>, b: seq<string>, c: seq<string>)
    requires Disjoint(a, c) && Disjoint(b, c)
    ensures Disjoint(a + b, c)
  {
    forall i, j | 0 <= i < |a + b| && 0 <= j < |c|
      ensures (a + b)[i] != c[j]
    {
      if i >= |a| {
        assert (a + b)[i] == b[i - |a|];
      }
    }
  }

  lemma ChunksDistinct()
    ensures Distinct(PrimNamesA) && Distinct(PrimNamesB)
    ensures Distinct(PrimNamesC) && Distinct(SpecialNames)
  {
  }

  lemma ChunksDisjointA()
    ensures Disjoint(PrimNamesA, PrimNamesB) && Disjoint(PrimNamesA, PrimNamesC)
  {
  }

  lemma ChunksDisjointB()
    ensures Disjoint(PrimNamesB, PrimNamesC)
  {
  }

  lemma ChunksDisjointSpecial()
    ensures Disjoint(PrimNamesA, SpecialNames) && Disjoint(PrimNamesB, SpecialNames)
    ensures Disjoint(PrimNamesC, SpecialNames)
  {
  }

  lemma BootNamesDistinct()
    ensures Distinct(BootNames)
  {
    ChunksDistinct();
    ChunksDisjointA();
    ChunksDisjointB();
    ChunksDisjointSpecial();
    DistinctAppend(PrimNamesA, PrimNamesB);
    DisjointAppend(PrimNamesA, PrimNamesB, PrimNamesC);
    DistinctAppend(PrimNamesA + PrimNamesB, PrimNamesC);
    DisjointAppend(PrimNamesA, PrimNamesB, SpecialNames);
    DisjointAppend(PrimNamesA + PrimNamesB, PrimNamesC, SpecialNames);
    DistinctAppend(PrimNames, SpecialNames);
  }

  /** After loading, the i-th boot name has id i and nothing else is interned. */
  lemma BootTable()
    ensures NumbersFrom(Boot(), BootNames, 0)
    ensures WellFormed(Boot())
  {
    BootNamesDistinct();
    NumberedFromEmpty(BootNames);
    InternAllWellFormed(EmptyTable, BootNames);
  }

  /** Interning distinct texts into the empty registry numbers them by position. */
  lemma NumberedFromEmpty(names: seq<string>)
    requires Distinct(names)
    ensures NumbersFrom(InternAll(EmptyTable, names), names, 0)
  {
    InternAllDistinct(EmptyTable, names);
  }

  /** Interning keeps a well-formed table well-formed. */
  lemma {:induction false} InternAllWellFormed(t: Table, names: seq<string>)
    requires WellFormed(t)
    ensures WellFormed(InternAll(t, names))
    decreases |names|
  {
    if names != [] {
      InternAllWellFormed(InternIn(t, names[0]).0, names[1..]);
    }
  }

  /** `u` keeps every entry of `t`, with the same id. */
  ghost predicate Extends(t: Table, u: Table) {
    forall s :: s in t.ids ==> s in u.ids && u.ids[s] == t.ids[s]
  }

  /** `u` is `t` with entries possibly added: nothing of `t` is lost or renumbered, and well-formedness is kept. */
  ghost predicate Grows(t: Table, u: Table) {
    Extends(t, u) && (WellFormed(t) ==> WellFormed(u))
  }

  /**
   * A registry as the reader meets it: well-formed and holding every boot
   * name under its boot id, as the interpreter's registry does once loaded.
   */
  ghost predicate ExtendsBoot(t: Table) {
    WellFormed(t) && Extends(Boot(), t)
  }

  /** Interning only ever adds an entry. */
  lemma InternGrows(t: Table, text: string)
    ensures Grows(t, InternIn(t, text).0)
  {
  }

  /** Growing twice is growing. */
  lemma GrowsTrans(t: Table, u: Table, v: Table)
    requires Grows(t, u) && Grows(u, v)
    ensures Grows(t, v)
  {
  }

  /** A table that has grown from one holding the boot names still holds them. */
  lemma GrowsKeepsBoot(t: Table, u: Table)
    requires ExtendsBoot(t) && Grows(t, u)
    ensures ExtendsBoot(u)
  {
  }

  /** The loaded registry holds the boot names. */
  lemma BootExtendsBoot()
    ensures ExtendsBoot(Boot())
  {
    BootTable();
  }

  /** Interning one more text after a sequence is interning the longer sequence. */
  lemma {:induction false} InternAllSnoc(t: Table, names: seq<string>, text: string)
    ensures InternAll(t, names + [text]) == InternIn(InternAll(t, names), text).0
    decreases |names|
  {
    if names == [] {
      assert names + [text] == [text];
      assert [text][1..] == [];
    } else {
      assert (names + [text])[0] == names[0];
      assert (names + [text])[1..] == names[1..] + [text];
      InternAllSnoc(InternIn(t, names[0]).0, names[1..], text);
    }
  }

  /** The registry object: a mutable dictionary from text to Symbol. */
  class SymbolRegistry {
    var registry: map<string, nat>
    var next: nat

    function State(): Table
      reads this
    {
      Table(registry, next)
    }

    constructor ()
      ensures State() == EmptyTable
    {
      registry := map[];
      next := 0;
    }

    /**
     * SymbolRegistry.intern: looks the text up; on a miss, makes a new
     * Symbol and records it.
     */
    method Intern(text: string) returns (id: nat)
      modifies this
      ensures (State(), id) == InternIn(old(State()), text)
      ensures old(text in registry) ==> id == old(registry[text]) && registry == old(registry)
      ensures old(text !in registry) ==> registry == old(registry)[text := id] && id == old(next)
    {
      if text in registry {
        id := registry[text];
      } else {
        id := next;
        registry := registry[text := id];
        next := next + 1;
      }
    }

    /**
     * The interning done while the interpreter loads: each primitive's name
     * as it is registered, then the reserved symbols of the evaluator.
     */
    method LoadBootNames()
      modifies this
      ensures State() == InternAll(old(State()), BootNames)
    {
      InternEach(BootNames);
    }

    /** Interns the names one after the other, in order. */
    method InternEach(names: seq<string>)
      modifies this
      ensures State() == InternAll(old(State()), names)
    {
      for i := 0 to |names|
        invariant State() == InternAll(old(State()), names[..i])
      {
        InternAllSnoc(old(State()), names[..i], names[i]);
        assert names[..i + 1] == names[..i] + [names[i]];
        var id := Intern(names[i]);
      }
      assert names[..|names|] == names;
    }
  }
}
