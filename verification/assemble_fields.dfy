/** What stands in each field of an assembled symbol, packages/ir/src/assemble.ts. */
module AssembleFields {
  import opened Strings
  import opened Assemble
  import opened AssembleGraph

  // ---------- Where a supplied symbol is staged ----------

  /** The number of symbols supplied before module `m`. */
  function SuppliedBefore(modules: seq<RawModule>, m: nat): nat
    requires m <= |modules|
  {
    if m == 0 then 0 else SuppliedBefore(modules, m - 1) + |modules[m - 1].symbols|
  }

  lemma {:induction false} StagedCount(modules: seq<RawModule>, n: nat, moduleId: string -> string, symbolId: SymbolKey -> string)
    requires n <= |modules|
    ensures |StageAll(modules, n, moduleId, symbolId)| == SuppliedBefore(modules, n)
  {
    if n == 0 {
    } else {
      StagedCount(modules, n - 1, moduleId, symbolId);
    }
  }

  /** Symbols are staged in the order supplied, module after module, each under the id made of its module's key,
      language, kind, qualified name and overload. */
  lemma {:induction false} StagedAt(
    modules: seq<RawModule>, n: nat, m: nat, k: nat, moduleId: string -> string, symbolId: SymbolKey -> string)
    requires m < n <= |modules| && k < |modules[m].symbols|
    ensures var staged, at, raw, key :=
      StageAll(modules, n, moduleId, symbolId), SuppliedBefore(modules, m) + k, modules[m].symbols[k], modules[m].key;
      && at < |staged|
      && staged[at] == Staged(
           moduleId(key), key, modules[m].packageName, raw,
           symbolId(SymbolKey(key, raw.language, raw.kind, raw.qualifiedName, raw.overload)))
  {
    hide StageModule;
    StagedCount(modules, n - 1, moduleId, symbolId);
    if m < n - 1 { StagedAt(modules, n - 1, m, k, moduleId, symbolId); }
  }

  /** Position `i` is that of symbol `k` of module `m`. */
  predicate IsAt(modules: seq<RawModule>, i: nat, m: nat, k: nat) {
    m < |modules| && k < |modules[m].symbols| && i == SuppliedBefore(modules, m) + k
  }

  lemma {:induction false} StagedFrom(modules: seq<RawModule>, n: nat, i: nat)
    requires n <= |modules| && i < SuppliedBefore(modules, n)
    ensures exists m: nat, k: nat :: IsAt(modules, i, m, k)
  {
    if i < SuppliedBefore(modules, n - 1) {
      StagedFrom(modules, n - 1, i);
    } else {
      var k := i - SuppliedBefore(modules, n - 1);
      assert IsAt(modules, i, n - 1, k);
    }
  }

  // ---------- Names and what they resolve to ----------

  /** The id of a name, if it has one; an empty id counts as none. */
  function IdOf(index: map<string, string>, moduleId: string, name: string): seq<string> {
    match Resolve(index, moduleId, name)
    case None => []
    case Some(id) => if id == "" then [] else [id]
  }

  /** A report of a name that has none. */
  function ReportOf(index: map<string, string>, moduleId: string, name: string, kind: RefKind, hint: string): seq<Unresolved> {
    if IdOf(index, moduleId, name) == [] then [Unresolved(name, kind, hint)] else []
  }

  /** The ids of the names, in the order of the names. */
  function Found(index: map<string, string>, moduleId: string, names: seq<string>): seq<string> {
    if names == [] then [] else IdOf(index, moduleId, names[0]) + Found(index, moduleId, names[1..])
  }

  function Unfound(index: map<string, string>, moduleId: string, names: seq<string>, kind: RefKind, hint: string): seq<Unresolved> {
    if names == [] then [] else ReportOf(index, moduleId, names[0], kind, hint) + Unfound(index, moduleId, names[1..], kind, hint)
  }

  lemma {:induction false} FoundLast(index: map<string, string>, moduleId: string, front: seq<string>, name: string)
    ensures Found(index, moduleId, front + [name]) == Found(index, moduleId, front) + Found(index, moduleId, [name])
  {
    hide IdOf;
    if front == [] {
      assert front + [name] == [name];
    } else {
      assert (front + [name])[1..] == front[1..] + [name];
      FoundLast(index, moduleId, front[1..], name);
    }
  }

  lemma {:induction false} UnfoundLast(
    index: map<string, string>, moduleId: string, front: seq<string>, name: string, kind: RefKind, hint: string)
    ensures Unfound(index, moduleId, front + [name], kind, hint)
         == Unfound(index, moduleId, front, kind, hint) + Unfound(index, moduleId, [name], kind, hint)
  {
    hide ReportOf;
    if front == [] {
      assert front + [name] == [name];
    } else {
      assert (front + [name])[1..] == front[1..] + [name];
      UnfoundLast(index, moduleId, front[1..], name, kind, hint);
    }
  }

  lemma {:induction false} OneFound(index: map<string, string>, moduleId: string, name: string, kind: RefKind, hint: string)
    ensures Found(index, moduleId, [name]) == if Resolves(index, moduleId, name) then [Resolve(index, moduleId, name).value] else []
    ensures Unfound(index, moduleId, [name], kind, hint) == if Resolves(index, moduleId, name) then [] else [Unresolved(name, kind, hint)]
  {
    hide Resolve;
    assert Found(index, moduleId, []) == [] && Unfound(index, moduleId, [], kind, hint) == [];
  }

  lemma {:induction false} NoneFound(index: map<string, string>, moduleId: string, kind: RefKind, hint: string)
    ensures Found(index, moduleId, []) == [] && Unfound(index, moduleId, [], kind, hint) == []
  {
  }

  lemma {:induction false} FoundAre(
    index: map<string, string>, moduleId: string, hint: string, names: seq<string>, kind: RefKind, n: nat)
    requires n <= |names|
    ensures ResolvedIds(index, moduleId, names, n) == Found(index, moduleId, names[..n])
    ensures Missing(index, moduleId, hint, names, kind, n) == Unfound(index, moduleId, names[..n], kind, hint)
  {
    hide Resolve, Found, Unfound;
    if n == 0 {
      NoneFound(index, moduleId, kind, hint);
    } else {
      assert names[..n] == names[..n - 1] + [names[n - 1]];
      FoundAre(index, moduleId, hint, names, kind, n - 1);
      FoundLast(index, moduleId, names[..n - 1], names[n - 1]);
      UnfoundLast(index, moduleId, names[..n - 1], names[n - 1], kind, hint);
      OneFound(index, moduleId, names[n - 1], kind, hint);
    }
  }

  // ---------- The fields ----------

  /** `s` is the symbol that `raw` of a module becomes. */
  predicate Becomes(s: IrSymbol, raw: RawSymbol, moduleId: string, hint: string, index: map<string, string>) {
    && s.moduleId == moduleId && s.qualifiedName == raw.qualifiedName && s.language == raw.language && s.depth == raw.depth
    && s.calls == Found(index, moduleId, raw.calls)
    && s.implemented == Found(index, moduleId, raw.implemented)
    && s.extended == Found(index, moduleId, raw.extended)
    && s.references == Found(index, moduleId, raw.references)
    && s.unresolved == raw.unresolved
         + Unfound(index, moduleId, raw.calls, CallRef, hint) + Unfound(index, moduleId, raw.implemented, ImplementsRef, hint)
         + Unfound(index, moduleId, raw.extended, ExtendsRef, hint) + Unfound(index, moduleId, raw.references, TypeRef, hint)
    && s.parentId == if raw.parentName == "" then None else Resolve(index, moduleId, raw.parentName)
  }

  lemma {:induction false} EntryBecomes(index: map<string, string>, e: Staged)
    ensures IrOf(index, e).id == e.id && Becomes(IrOf(index, e), e.raw, e.moduleId, e.packageName, index)
  {
    hide Resolve, ResolvedIds, Missing, Found, Unfound;
    ListFound(index, e, e.raw.calls, CallRef);
    ListFound(index, e, e.raw.implemented, ImplementsRef);
    ListFound(index, e, e.raw.extended, ExtendsRef);
    ListFound(index, e, e.raw.references, TypeRef);
    MissingJoined(index, e);
  }

  lemma {:induction false} ListFound(index: map<string, string>, e: Staged, names: seq<string>, kind: RefKind)
    ensures ResolvedIds(index, e.moduleId, names, |names|) == Found(index, e.moduleId, names)
    ensures Missing(index, e.moduleId, e.packageName, names, kind, |names|) == Unfound(index, e.moduleId, names, kind, e.packageName)
  {
    hide Resolve, ResolvedIds, Missing, Found, Unfound;
    FoundAre(index, e.moduleId, e.packageName, names, kind, |names|);
    assert names[..|names|] == names;
  }

  /** Each symbol of the graph is a supplied symbol, with every field in its place. */
  lemma {:induction false} SymbolIs(
    modules: seq<RawModule>, moduleId: string -> string, symbolId: SymbolKey -> string, s: IrSymbol)
    requires s in Kept(modules, moduleId, symbolId)
    ensures var staged := StageAll(modules, |modules|, moduleId, symbolId);
      exists m: nat, k: nat :: m < |modules| && k < |modules[m].symbols| &&
        var raw, key := modules[m].symbols[k], modules[m].key;
        && s.id == symbolId(SymbolKey(key, raw.language, raw.kind, raw.qualifiedName, raw.overload))
        && Becomes(s, raw, moduleId(key), modules[m].packageName, Index(staged, |staged|))
  {
    hide StageAll, Index, IrOf, Becomes, SuppliedBefore;
    var staged := StageAll(modules, |modules|, moduleId, symbolId);
    var index := Index(staged, |staged|);
    KeptIsStaged(staged, s);
    var i :| 0 <= i < |staged| && s == IrOf(index, staged[i]);
    EntryBecomes(index, staged[i]);
    StagedCount(modules, |modules|, moduleId, symbolId);
    StagedFrom(modules, |modules|, i);
    var m: nat, k: nat :| IsAt(modules, i, m, k);
    StagedAt(modules, |modules|, m, k, moduleId, symbolId);
  }

  // ---------- The count of names without an id ----------

  function AlreadyReported(staged: seq<Staged>, n: nat): nat
    requires n <= |staged|
  {
    if n == 0 then 0 else AlreadyReported(staged, n - 1) + |staged[n - 1].raw.unresolved|
  }

  function NowReported(symbols: seq<IrSymbol>, n: nat): nat
    requires n <= |symbols|
  {
    if n == 0 then 0 else NowReported(symbols, n - 1) + |symbols[n - 1].unresolved|
  }

  /** The count is what the symbols report beyond what they were supplied with. */
  lemma {:induction false} CountIs(index: map<string, string>, staged: seq<Staged>, n: nat)
    requires n <= |staged|
    ensures MissingTotal(index, staged, n) + AlreadyReported(staged, n) == NowReported(IrAll(index, staged, |staged|), n)
  {
    hide AllMissing, IrAll;
    if n == 0 {
    } else {
      CountIs(index, staged, n - 1);
    }
  }
}
