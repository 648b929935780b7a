/** The chain of symbol tables of one function or of the global scope (compiler/symbol_table.go). */
module SymbolTables {
  import opened Language
  import opened Codegen

  /** `t` is element `i` of a chain of tables: all but the last are block-scoped. */
  ghost predicate Linked(chain: seq<SymbolTable>, i: nat)
    requires i < |chain|
    reads chain
  {
    && chain[i].chain == chain[i..]
    && chain[i].isBlockScoped == (i + 1 < |chain|)
    && chain[i].Outer == if i + 1 < |chain| then chain[i + 1] else null
  }

  ghost predicate Chained(chain: seq<SymbolTable>)
    reads chain
  {
    && |chain| > 0
    && (forall i, j :: 0 <= i < j < |chain| ==> chain[i] != chain[j])
    && (forall i {:trigger Linked(chain, i)} :: 0 <= i < |chain| ==> Linked(chain, i))
  }

  /** The first `k` tables have the definition count `n`. */
  ghost predicate Counted(chain: seq<SymbolTable>, k: nat, n: nat)
    requires k <= |chain|
    reads chain
  {
    forall i :: 0 <= i < k ==> chain[i].numDefinitions == n
  }

  ghost function Stores(chain: seq<SymbolTable>): (s: Scopes)
    reads chain
    ensures |s| == |chain| && forall i :: 0 <= i < |chain| ==> s[i] == chain[i].store
  {
    seq(|chain|, i requires 0 <= i < |chain| reads chain => chain[i].store)
  }

  lemma ChainTail(chain: seq<SymbolTable>)
    requires Chained(chain) && |chain| > 1
    ensures Chained(chain[1..]) && Stores(chain[1..]) == Stores(chain)[1..]
  {
    var c := chain[1..];
    forall i | 0 <= i < |c| ensures Linked(c, i) {
      assert Linked(chain, i + 1);
    }
  }

  class SymbolTable {
    var Outer: SymbolTable?
    var store: map<string, Symbol>
    var numDefinitions: nat
    var isBlockScoped: bool

    /** This table and the ones around it, innermost first. */
    ghost var chain: seq<SymbolTable>

    /** All tables of the chain share one definition count. */
    ghost predicate Valid()
      reads this, chain
    {
      Chained(chain) && chain[0] == this && Counted(chain, |chain|, numDefinitions)
    }

    ghost function Context(): Ctx
      reads this, chain
    {
      Ctx(Stores(chain), numDefinitions, true)
    }

    constructor ()
      ensures Valid() && chain == [this] && Context() == Ctx([map[]], 0, true)
      ensures fresh(this)
    {
      Outer, store, numDefinitions, isBlockScoped := null, map[], 0, false;
      chain := [this];
      new;
      assert Linked(chain, 0);
    }

    /** NewBlockScopedSymbolTable */
    constructor Block(outer: SymbolTable)
      requires outer.Valid()
      ensures Valid() && chain == [this] + outer.chain && Outer == outer
      ensures Context() == Push(outer.Context())
    {
      Outer, store, numDefinitions, isBlockScoped := outer, map[], outer.numDefinitions, true;
      chain := [this] + outer.chain;
      new;
      assert chain[1..] == outer.chain;
      forall i | 0 <= i < |chain| ensures Linked(chain, i) {
        if i > 0 { assert Linked(outer.chain, i - 1); }
      }
      assert Stores(chain) == [map[]] + Stores(outer.chain);
    }

    /** DefineMutable and DefineImmutable: the count is pushed up the chain of block scopes. */
    method Define(name: string, constant: bool) returns (symbol: Symbol)
      requires Valid()
      modifies chain
      ensures Valid() && chain == old(chain)
      ensures symbol == Symbol(old(numDefinitions), constant)
      ensures Context() == Codegen.Define(old(Context()), name, constant)
    {
      hide Resolve;
      symbol := Symbol(numDefinitions, constant);
      ghost var all := chain;
      ghost var before := Stores(chain);
      store := store[name := symbol];
      numDefinitions := numDefinitions + 1;
      assert Stores(all) == [store] + before[1..];
      ghost var i := 0;
      var outer := this;
      assert Chained(all) by { assert forall j :: 0 <= j < |all| && old(Linked(all, j)) ==> Linked(all, j); }
      while outer.isBlockScoped && outer.Outer != null
        invariant i < |all| && outer == all[i] && Chained(all) && all[0] == this
        invariant Counted(all, i + 1, numDefinitions)
        invariant numDefinitions == old(numDefinitions) + 1 && Stores(all) == [old(store)[name := symbol]] + before[1..]
        decreases |all| - i
      {
        i := PushCount(all, i, outer);
        outer := outer.Outer;
      }
      assert Linked(all, i);
      assert Linked(all, 0);
    }

    /** One step of the loop that pushes the definition count up. */
    static method PushCount(ghost all: seq<SymbolTable>, ghost i: nat, outer: SymbolTable) returns (ghost i': nat)
      requires i < |all| && outer == all[i] && Chained(all) && outer.isBlockScoped
      requires Counted(all, i + 1, all[0].numDefinitions)
      modifies all
      ensures i' == i + 1 < |all| && outer.Outer == all[i'] && Chained(all)
      ensures all[0].numDefinitions == old(all[0].numDefinitions) && Counted(all, i' + 1, all[0].numDefinitions)
      ensures Stores(all) == old(Stores(all))
    {
      assert Linked(all, i);
      outer.Outer.numDefinitions := outer.numDefinitions;
      i' := i + 1;
      assert forall j :: 0 <= j < |all| && old(Linked(all, j)) ==> Linked(all, j);
      assert Stores(all) == old(Stores(all));
    }

    /** Resolve, within one function: the innermost table that knows the name. */
    method Find(name: string) returns (r: Option<Symbol>, fromOuter: bool)
      requires Valid()
      ensures r == Resolve(Stores(chain), name)
      ensures r.Some? ==> (!fromOuter <==> name in Stores(chain)[0])
      decreases |chain|
    {
      assert Linked(chain, 0);
      if name in store { return Some(store[name]), false; }
      if Outer != null {
        ChainTail(chain);
        assert Linked(chain, 1);
        var inner;
        r, inner := Outer.Find(name);
        return r, true;
      }
      assert Stores(chain)[1..] == [];
      return None, false;
    }
  }
}
