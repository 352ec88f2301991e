/** The data of the bytecode compiler and its symbol table: a chain of scopes, each
    allocating slot indices to the names defined in it, searched innermost first. */
module CodeGen {
  import opened Wrappers
  import opened Primitives

  // ---------------------------------------------------------------------------
  // Bytecode data (declared by the compiler; nothing emits it yet)

  /** One bytecode instruction; operands are constant-pool, jump-target and slot indices. */
  datatype Instruction =
    | LoadConstant(constant: nat)
    | Add | Sub | Mul | Div | Mod
    | Equal | NotEqual | LessThan | GreaterThan
    | And | Or | Not
    | Jump(target: nat)
    | JumpNotTruthy(target: nat)
    | SetGlobal(global: nat)
    | GetGlobal(global: nat)
    | SetLocal(local: nat)
    | GetLocal(local: nat)
    | Call(arity: nat)
    | Return

  /** A compiled function body with its frame layout. */
  datatype CompiledFunction = CompiledFunction(instructions: seq<Instruction>, numLocals: nat, numParameters: nat)

  /** A run-time value: the constant pool holds these. */
  datatype Object =
    | Integer(integer: i64)
    | Boolean(boolean: bool)
    | String(text: string)
    | Array(elements: seq<Object>)
    | Function(code: CompiledFunction)
    | Null

  // ---------------------------------------------------------------------------
  // Symbols

  datatype SymbolScope = Global | Local | Function

  /** A name bound to slot `index` of its scope. */
  datatype Symbol = Symbol(name: string, scope: SymbolScope, index: nat)

  /** The scope `define` gives every symbol of a table: `Global` at the top level,
      `Local` in an enclosed table. */
  function ScopeFor(enclosed: bool): (scope: SymbolScope)
    ensures scope == Global <==> !enclosed
    ensures !scope.Function?
  {
    if enclosed then Local else Global
  }

  /** What `define` keeps true of one table: `definitions` lists every symbol in the
      order defined, the i-th with index i and the table's scope, and `store` maps each
      defined name to the last of its definitions. */
  ghost predicate Consistent(store: map<string, Symbol>, definitions: seq<Symbol>, scope: SymbolScope) {
    && (forall i :: 0 <= i < |definitions| ==> definitions[i].index == i && definitions[i].scope == scope)
    && (forall n :: n in store ==> store[n].name == n && store[n].index < |definitions|
                                   && definitions[store[n].index] == store[n])
    && (forall i :: 0 <= i < |definitions| ==>
          definitions[i].name in store && i <= store[definitions[i].name].index)
  }

  /** One `define` step on the values of a table. */
  function DefineIn(store: map<string, Symbol>, definitions: seq<Symbol>, scope: SymbolScope, name: string)
    : (r: (map<string, Symbol>, seq<Symbol>, Symbol))
  {
    var s := Symbol(name, scope, |definitions|);
    (store[name := s], definitions + [s], s)
  }

  /** `define` keeps a table consistent, and a redefined name gets an index larger
      than that of the definition it hides. */
  lemma DefinePreservesConsistent(store: map<string, Symbol>, definitions: seq<Symbol>, scope: SymbolScope, name: string)
    requires Consistent(store, definitions, scope)
    ensures var (store', definitions', s) := DefineIn(store, definitions, scope, name);
            && Consistent(store', definitions', scope)
            && s.index == |definitions| && s.scope == scope
            && (name in store ==> store[name].index < s.index)
  {
    var (store', definitions', s) := DefineIn(store, definitions, scope, name);
    forall i | 0 <= i < |definitions'|
      ensures definitions'[i].name in store' && i <= store'[definitions'[i].name].index
    {
      if i < |definitions| {
        assert definitions'[i] == definitions[i];
      }
    }
  }

  /** Whatever sequence of names is defined in a fresh table, the indices handed out
      are 0, 1, 2, ... and the table stays consistent. */
  function DefineAll(scope: SymbolScope, names: seq<string>): (r: (map<string, Symbol>, seq<Symbol>))
    ensures Consistent(r.0, r.1, scope)
    ensures |r.1| == |names|
    ensures forall i :: 0 <= i < |names| ==> r.1[i] == Symbol(names[i], scope, i)
  {
    if names == [] then (map[], [])
    else
      var (store, definitions) := DefineAll(scope, names[..|names| - 1]);
      DefinePreservesConsistent(store, definitions, scope, names[|names| - 1]);
      var (store', definitions', _) := DefineIn(store, definitions, scope, names[|names| - 1]);
      (store', definitions')
  }

  // ---------------------------------------------------------------------------
  // Lookup through a chain of scopes

  /** The binding of `name` in the first (innermost) of `scopes` that has one. */
  function LookupIn(scopes: seq<map<string, Symbol>>, name: string): (r: Option<Symbol>)
    ensures r.None? <==> forall i :: 0 <= i < |scopes| ==> name !in scopes[i]
    ensures r.Some? ==> exists i :: 0 <= i < |scopes| && name in scopes[i] && r.value == scopes[i][name]
                                    && forall j :: 0 <= j < i ==> name !in scopes[j]
  {
    if scopes == [] then None
    else if name in scopes[0] then Some(scopes[0][name])
    else
      var r := LookupIn(scopes[1..], name);
      assert forall i :: 1 <= i < |scopes| ==> scopes[i] == scopes[1..][i - 1];
      r
  }

  /** A binding in the innermost scope hides every outer binding of the same name. */
  lemma InnermostShadows(scopes: seq<map<string, Symbol>>, name: string, s: Symbol)
    requires |scopes| > 0 && name in scopes[0] && scopes[0][name] == s
    ensures LookupIn(scopes, name) == Some(s)
  {
  }

  /** An empty innermost scope passes every lookup through to the scopes around it. */
  lemma EmptyScopeIsTransparent(scopes: seq<map<string, Symbol>>, name: string)
    ensures LookupIn([map[]] + scopes, name) == LookupIn(scopes, name)
  {
    assert ([map[]] + scopes)[1..] == scopes;
  }

  /** Rebinding `name` in the innermost scope changes the lookup of `name` and of
      nothing else. */
  lemma LookupAfterBind(scopes: seq<map<string, Symbol>>, name: string, s: Symbol, other: string)
    requires |scopes| > 0
    ensures var scopes' := [scopes[0][name := s]] + scopes[1..];
            && LookupIn(scopes', name) == Some(s)
            && (other != name ==> LookupIn(scopes', other) == LookupIn(scopes, other))
  {
    var scopes' := [scopes[0][name := s]] + scopes[1..];
    assert scopes'[1..] == scopes[1..];
  }

  // ---------------------------------------------------------------------------
  // The table

  /** `SymbolTable`: this scope's bindings, and the table it is enclosed in, if any. */
  class SymbolTable {
    /** Each name's current binding in this scope. */
    var store: map<string, Symbol>
    /** Every symbol defined in this scope, in order. */
    var definitions: seq<Symbol>
    var scopeIndex: nat
    /** The enclosing table, owned by this one. */
    const outer: SymbolTable?
    ghost const Repr: set<object>

    /** The chain of tables is finite and acyclic, and every table in it is consistent. */
    ghost predicate Valid()
      reads this, Repr
      decreases Repr
    {
      && this in Repr
      && (outer == null ==> Repr == {this})
      && (outer != null ==> outer in Repr && outer.Repr <= Repr && this !in outer.Repr && outer.Valid())
      && Consistent(store, definitions, ScopeFor(outer != null))
    }

    /** The bindings of every table in the chain, innermost first. */
    ghost function Scopes(): (scopes: seq<map<string, Symbol>>)
      requires Valid()
      reads this, Repr
      decreases Repr
      ensures |scopes| > 0 && scopes[0] == store
    {
      [store] + (if outer == null then [] else outer.Scopes())
    }

    /** `SymbolTable::new`: an empty top-level table. */
    constructor ()
      ensures Valid() && fresh(Repr)
      ensures store == map[] && definitions == [] && scopeIndex == 0 && outer == null
      ensures Scopes() == [map[]]
    {
      store, definitions, scopeIndex := map[], [], 0;
      outer := null;
      Repr := {this};
    }

    /** `SymbolTable::new_enclosed`: an empty table inside `outer`. */
    constructor NewEnclosed(outer: SymbolTable)
      requires outer.Valid()
      ensures Valid() && fresh(Repr - outer.Repr)
      ensures store == map[] && definitions == [] && scopeIndex == 0 && this.outer == outer
      ensures Scopes() == [map[]] + outer.Scopes()
    {
      store, definitions, scopeIndex := map[], [], 0;
      this.outer := outer;
      Repr := {this} + outer.Repr;
    }

    /** `define`: binds `name` in this table to a symbol with the next free index. */
    method Define(name: string) returns (s: Symbol)
      requires Valid()
      modifies this
      ensures Valid()
      ensures s == Symbol(name, ScopeFor(outer != null), |old(definitions)|)
      ensures store == old(store)[name := s] && definitions == old(definitions) + [s]
      ensures scopeIndex == old(scopeIndex)
      ensures Scopes() == [store] + old(Scopes())[1..]
      ensures name in old(store) ==> old(store)[name].index < s.index
      ensures Resolve(name) == Some(s)
      ensures forall other :: other != name ==> Resolve(other) == old(Resolve(other))
    {
      DefinePreservesConsistent(store, definitions, ScopeFor(outer != null), name);
      ghost var before := Scopes();
      forall other {
        LookupAfterBind(before, name, Symbol(name, ScopeFor(outer != null), |definitions|), other);
      }
      var scope := if outer == null then Global else Local;
      s := Symbol(name, scope, |definitions|);
      store := store[name := s];
      definitions := definitions + [s];
    }

    /** `resolve`: this table's binding of `name`, or else the enclosing table's. */
    function Resolve(name: string): (r: Option<Symbol>)
      requires Valid()
      reads this, Repr
      decreases Repr
      ensures r == LookupIn(Scopes(), name)
    {
      if name in store then Some(store[name])
      else if outer == null then None
      else outer.Resolve(name)
    }
  }

  // ---------------------------------------------------------------------------
  // The compiler

  /** `CodeGen`: the instructions and constants emitted so far and the global table. */
  class CodeGen {
    var instructions: seq<Instruction>
    var constants: seq<Object>
    var symbolTable: SymbolTable

    /** `CodeGen::new`: nothing emitted, and a fresh top-level table. */
    constructor ()
      ensures instructions == [] && constants == []
      ensures fresh(symbolTable) && symbolTable.Valid() && fresh(symbolTable.Repr)
      ensures symbolTable.outer == null && symbolTable.Scopes() == [map[]]
    {
      instructions := [];
      constants := [];
      symbolTable := new SymbolTable();
    }
  }
}
