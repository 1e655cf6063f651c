/** Assembly of a repository's symbol graph, packages/ir/src/assemble.ts. Ids are minted by two
    functions given from outside: one of a module's key, one of a symbol's identifying fields. */
module Assemble {
  import opened Strings

  datatype Depth = Shallow | Semantic | Artifact

  datatype RefKind = CallRef | TypeRef | ExtendsRef | ImplementsRef

  datatype Unresolved = Unresolved(name: string, kind: RefKind, hint: string)

  datatype RawSymbol = RawSymbol(
    language: string, kind: string, qualifiedName: string, overload: string, depth: Depth,
    parentName: string, calls: seq<string>, implemented: seq<string>, extended: seq<string>,
    references: seq<string>, unresolved: seq<Unresolved>)

  datatype RawModule = RawModule(key: string, packageName: string, symbols: seq<RawSymbol>, notes: seq<Note>)

  /** A note on a module's analysis; the second kind records how many symbols were dropped. */
  datatype Note = Told(text: string) | Dropped(count: nat)

  /** What a symbol's identity is made of. */
  datatype SymbolKey = SymbolKey(
    moduleKey: string, language: string, kind: string, qualifiedName: string, overload: string)

  datatype Staged = Staged(moduleId: string, moduleKey: string, packageName: string, raw: RawSymbol, id: string)

  datatype IrSymbol = IrSymbol(
    id: string, moduleId: string, qualifiedName: string, language: string, depth: Depth,
    calls: seq<string>, implemented: seq<string>, extended: seq<string>, references: seq<string>,
    usedBy: seq<string>, unresolved: seq<Unresolved>, parentId: Option<string>)

  datatype IrModule = IrModule(
    id: string, key: string, symbolCount: nat, depth: Depth, languages: seq<string>, notes: seq<Note>)

  // ---------- Pass 1: staging and the name index ----------

  function QualifiedKey(moduleId: string, name: string): string { moduleId + "::" + name }

  function KeyOf(m: RawModule, raw: RawSymbol): SymbolKey {
    SymbolKey(m.key, raw.language, raw.kind, raw.qualifiedName, raw.overload)
  }

  function Stage(m: RawModule, raw: RawSymbol, moduleId: string -> string, symbolId: SymbolKey -> string): Staged {
    Staged(moduleId(m.key), m.key, m.packageName, raw, symbolId(KeyOf(m, raw)))
  }

  /** The first `k` symbols of a module. */
  function StageModule(m: RawModule, k: nat, moduleId: string -> string, symbolId: SymbolKey -> string): (r: seq<Staged>)
    requires k <= |m.symbols|
    ensures |r| == k
    ensures forall i :: 0 <= i < k ==> r[i] == Stage(m, m.symbols[i], moduleId, symbolId)
  {
    if k == 0 then [] else
      StageModule(m, k - 1, moduleId, symbolId) + [Stage(m, m.symbols[k - 1], moduleId, symbolId)]
  }

  /** The symbols of the first `n` modules. */
  function StageAll(modules: seq<RawModule>, n: nat, moduleId: string -> string, symbolId: SymbolKey -> string): seq<Staged>
    requires n <= |modules|
  {
    if n == 0 then []
    else
      StageAll(modules, n - 1, moduleId, symbolId)
      + StageModule(modules[n - 1], |modules[n - 1].symbols|, moduleId, symbolId)
  }

  /** The last symbol to claim a qualified key has it; a bare name stays with the first. */
  function AddName(index: map<string, string>, e: Staged): map<string, string> {
    var own := index[QualifiedKey(e.moduleId, e.raw.qualifiedName) := e.id];
    if e.raw.qualifiedName in own then own else own[e.raw.qualifiedName := e.id]
  }

  function Index(staged: seq<Staged>, n: nat): map<string, string>
    requires n <= |staged|
  {
    if n == 0 then map[] else AddName(Index(staged, n - 1), staged[n - 1])
  }

  lemma {:induction false} IndexPrefix(a: seq<Staged>, b: seq<Staged>, n: nat)
    requires n <= |a| && a <= b
    ensures Index(a, n) == Index(b, n)
  {
    if n == 0 {
    } else {
      IndexPrefix(a, b, n - 1);
    }
  }

  lemma {:induction false} IndexAppend(staged: seq<Staged>, e: Staged)
    ensures Index(staged + [e], |staged| + 1) == AddName(Index(staged, |staged|), e)
  {
    hide AddName;
    IndexPrefix(staged, staged + [e], |staged|);
  }

  method StageAndIndex(modules: seq<RawModule>, moduleId: string -> string, symbolId: SymbolKey -> string)
    returns (staged: seq<Staged>, nameIndex: map<string, string>)
    ensures staged == StageAll(modules, |modules|, moduleId, symbolId)
    ensures nameIndex == Index(staged, |staged|)
  {
    hide Index, AddName, StageModule;
    staged, nameIndex := [], map[];
    assert nameIndex == Index(staged, 0) by { EmptyIndex(staged); }
    for n := 0 to |modules|
      invariant staged == StageAll(modules, n, moduleId, symbolId)
      invariant nameIndex == Index(staged, |staged|)
    {
      var m := modules[n];
      ghost var before := staged;
      StageStart(m, before, moduleId, symbolId);
      for k := 0 to |m.symbols|
        invariant staged == before + StageModule(m, k, moduleId, symbolId)
        invariant nameIndex == Index(staged, |staged|)
      {
        var e := Stage(m, m.symbols[k], moduleId, symbolId);
        var name := e.raw.qualifiedName;
        StageNext(m, k, before, moduleId, symbolId);
        IndexAppend(staged, e);
        AddNameIs(nameIndex, e);
        staged := staged + [e];
        nameIndex := nameIndex[QualifiedKey(e.moduleId, name) := e.id];
        if name !in nameIndex { nameIndex := nameIndex[name := e.id]; }
      }
    }
  }

  lemma {:induction false} EmptyIndex(staged: seq<Staged>)
    ensures Index(staged, 0) == map[]
  {
  }

  lemma {:induction false} AddNameIs(index: map<string, string>, e: Staged)
    ensures var own := index[QualifiedKey(e.moduleId, e.raw.qualifiedName) := e.id];
      AddName(index, e) == if e.raw.qualifiedName in own then own else own[e.raw.qualifiedName := e.id]
  {
  }

  lemma {:induction false} StageStart(m: RawModule, before: seq<Staged>, moduleId: string -> string, symbolId: SymbolKey -> string)
    ensures before + StageModule(m, 0, moduleId, symbolId) == before
  {
  }

  lemma {:induction false} StageNext(
    m: RawModule, k: nat, before: seq<Staged>, moduleId: string -> string, symbolId: SymbolKey -> string)
    requires k < |m.symbols|
    ensures before + StageModule(m, k, moduleId, symbolId) + [Stage(m, m.symbols[k], moduleId, symbolId)]
         == before + StageModule(m, k + 1, moduleId, symbolId)
  {
  }

  // ---------- Pass 2: names to ids ----------

  function Resolve(index: map<string, string>, moduleId: string, name: string): Option<string> {
    if QualifiedKey(moduleId, name) in index then Some(index[QualifiedKey(moduleId, name)])
    else if name in index then Some(index[name])
    else None
  }

  /** The empty string counts as no id. */
  predicate Resolves(index: map<string, string>, moduleId: string, name: string) {
    Resolve(index, moduleId, name).Some? && Resolve(index, moduleId, name).value != ""
  }

  function ResolvedIds(index: map<string, string>, moduleId: string, names: seq<string>, n: nat): (ids: seq<string>)
    requires n <= |names|
    ensures forall x :: x in ids <==>
              exists i :: 0 <= i < n && Resolves(index, moduleId, names[i]) && Resolve(index, moduleId, names[i]) == Some(x)
  {
    if n == 0 then []
    else
      var front := ResolvedIds(index, moduleId, names, n - 1);
      if Resolves(index, moduleId, names[n - 1]) then front + [Resolve(index, moduleId, names[n - 1]).value] else front
  }

  function Missing(
    index: map<string, string>, moduleId: string, hint: string, names: seq<string>, kind: RefKind, n: nat): seq<Unresolved>
    requires n <= |names|
  {
    if n == 0 then []
    else
      var front := Missing(index, moduleId, hint, names, kind, n - 1);
      if Resolves(index, moduleId, names[n - 1]) then front else front + [Unresolved(names[n - 1], kind, hint)]
  }

  /** Every name of the list is either resolved or reported. */
  lemma {:induction false} NamesAccounted(
    index: map<string, string>, moduleId: string, hint: string, names: seq<string>, kind: RefKind, n: nat)
    requires n <= |names|
    ensures |ResolvedIds(index, moduleId, names, n)| + |Missing(index, moduleId, hint, names, kind, n)| == n
  {
    hide Resolves, Resolve;
    if n == 0 {
    } else {
      NamesAccounted(index, moduleId, hint, names, kind, n - 1);
    }
  }

  method ResolveList(
    nameIndex: map<string, string>, e: Staged, names: seq<string>, kind: RefKind,
    unresolvedBefore: seq<Unresolved>, countBefore: nat)
    returns (ids: seq<string>, unresolved: seq<Unresolved>, unresolvedCount: nat)
    ensures ids == ResolvedIds(nameIndex, e.moduleId, names, |names|)
    ensures unresolved == unresolvedBefore + Missing(nameIndex, e.moduleId, e.packageName, names, kind, |names|)
    ensures unresolvedCount == countBefore + |Missing(nameIndex, e.moduleId, e.packageName, names, kind, |names|)|
  {
    hide Resolve;
    ids, unresolved, unresolvedCount := [], unresolvedBefore, countBefore;
    for i := 0 to |names|
      invariant ids == ResolvedIds(nameIndex, e.moduleId, names, i)
      invariant unresolved == unresolvedBefore + Missing(nameIndex, e.moduleId, e.packageName, names, kind, i)
      invariant unresolvedCount == countBefore + |Missing(nameIndex, e.moduleId, e.packageName, names, kind, i)|
    {
      var resolved := Resolve(nameIndex, e.moduleId, names[i]);
      if resolved.Some? && resolved.value != "" {
        ids := ids + [resolved.value];
      } else {
        unresolved := unresolved + [Unresolved(names[i], kind, e.packageName)];
        unresolvedCount := unresolvedCount + 1;
      }
    }
  }

  function AllMissing(index: map<string, string>, e: Staged): seq<Unresolved> {
    Missing(index, e.moduleId, e.packageName, e.raw.calls, CallRef, |e.raw.calls|)
    + Missing(index, e.moduleId, e.packageName, e.raw.implemented, ImplementsRef, |e.raw.implemented|)
    + Missing(index, e.moduleId, e.packageName, e.raw.extended, ExtendsRef, |e.raw.extended|)
    + Missing(index, e.moduleId, e.packageName, e.raw.references, TypeRef, |e.raw.references|)
  }

  function ParentOf(index: map<string, string>, e: Staged): Option<string> {
    if e.raw.parentName != "" then Resolve(index, e.moduleId, e.raw.parentName) else None
  }

  function IrOf(index: map<string, string>, e: Staged): IrSymbol {
    IrSymbol(
      e.id, e.moduleId, e.raw.qualifiedName, e.raw.language, e.raw.depth,
      ResolvedIds(index, e.moduleId, e.raw.calls, |e.raw.calls|),
      ResolvedIds(index, e.moduleId, e.raw.implemented, |e.raw.implemented|),
      ResolvedIds(index, e.moduleId, e.raw.extended, |e.raw.extended|),
      ResolvedIds(index, e.moduleId, e.raw.references, |e.raw.references|),
      [], e.raw.unresolved + AllMissing(index, e), ParentOf(index, e))
  }

  function IrAll(index: map<string, string>, staged: seq<Staged>, n: nat): (r: seq<IrSymbol>)
    requires n <= |staged|
    ensures |r| == n && forall i :: 0 <= i < n ==> r[i] == IrOf(index, staged[i])
  {
    if n == 0 then [] else IrAll(index, staged, n - 1) + [IrOf(index, staged[n - 1])]
  }

  function MissingTotal(index: map<string, string>, staged: seq<Staged>, n: nat): nat
    requires n <= |staged|
  {
    if n == 0 then 0 else MissingTotal(index, staged, n - 1) + |AllMissing(index, staged[n - 1])|
  }

  method ResolveAll(nameIndex: map<string, string>, staged: seq<Staged>)
    returns (symbols: seq<IrSymbol>, unresolvedCount: nat)
    ensures symbols == IrAll(nameIndex, staged, |staged|)
    ensures unresolvedCount == MissingTotal(nameIndex, staged, |staged|)
  {
    hide Missing, ResolvedIds, ParentOf;
    symbols, unresolvedCount := [], 0;
    for i := 0 to |staged|
      invariant symbols == IrAll(nameIndex, staged, i)
      invariant unresolvedCount == MissingTotal(nameIndex, staged, i)
    {
      var e := staged[i];
      var calls, implemented, extended, references;
      var unresolved := e.raw.unresolved;
      calls, unresolved, unresolvedCount :=
        ResolveList(nameIndex, e, e.raw.calls, CallRef, unresolved, unresolvedCount);
      implemented, unresolved, unresolvedCount :=
        ResolveList(nameIndex, e, e.raw.implemented, ImplementsRef, unresolved, unresolvedCount);
      extended, unresolved, unresolvedCount :=
        ResolveList(nameIndex, e, e.raw.extended, ExtendsRef, unresolved, unresolvedCount);
      references, unresolved, unresolvedCount :=
        ResolveList(nameIndex, e, e.raw.references, TypeRef, unresolved, unresolvedCount);
      MissingJoined(nameIndex, e);
      symbols := symbols + [IrSymbol(
        e.id, e.moduleId, e.raw.qualifiedName, e.raw.language, e.raw.depth, calls, implemented,
        extended, references, [], unresolved, ParentOf(nameIndex, e))];
    }
  }

  lemma {:induction false} MissingJoined(index: map<string, string>, e: Staged)
    ensures var a := Missing(index, e.moduleId, e.packageName, e.raw.calls, CallRef, |e.raw.calls|);
      var b := Missing(index, e.moduleId, e.packageName, e.raw.implemented, ImplementsRef, |e.raw.implemented|);
      var c := Missing(index, e.moduleId, e.packageName, e.raw.extended, ExtendsRef, |e.raw.extended|);
      var d := Missing(index, e.moduleId, e.packageName, e.raw.references, TypeRef, |e.raw.references|);
      e.raw.unresolved + a + b + c + d == e.raw.unresolved + AllMissing(index, e)
  {
    hide Missing;
  }

  // ---------- One symbol per id ----------

  predicate HasId(symbols: seq<IrSymbol>, n: nat, id: string)
    requires n <= |symbols|
  {
    exists i :: 0 <= i < n && symbols[i].id == id
  }

  /** The first symbol with each id. */
  function Retained(symbols: seq<IrSymbol>, n: nat): seq<IrSymbol>
    requires n <= |symbols|
  {
    if n == 0 then []
    else if HasId(symbols, n - 1, symbols[n - 1].id) then Retained(symbols, n - 1)
    else Retained(symbols, n - 1) + [symbols[n - 1]]
  }

  function DroppedFrom(symbols: seq<IrSymbol>, moduleId: string, n: nat): nat
    requires n <= |symbols|
  {
    if n == 0 then 0
    else
      DroppedFrom(symbols, moduleId, n - 1)
      + if HasId(symbols, n - 1, symbols[n - 1].id) && symbols[n - 1].moduleId == moduleId then 1 else 0
  }

  function DropCount(drops: map<string, nat>, moduleId: string): nat {
    if moduleId in drops then drops[moduleId] else 0
  }

  method Deduplicate(symbols: seq<IrSymbol>) returns (deduplicated: seq<IrSymbol>, droppedByModule: map<string, nat>)
    ensures deduplicated == Retained(symbols, |symbols|)
    ensures forall m :: DropCount(droppedByModule, m) == DroppedFrom(symbols, m, |symbols|)
  {
    var seenIds: set<string> := {};
    deduplicated, droppedByModule := [], map[];
    for i := 0 to |symbols|
      invariant deduplicated == Retained(symbols, i)
      invariant forall id :: id in seenIds <==> HasId(symbols, i, id)
      invariant forall m :: DropCount(droppedByModule, m) == DroppedFrom(symbols, m, i)
    {
      var symbol := symbols[i];
      HasIdNext(symbols, i);
      if symbol.id in seenIds {
        droppedByModule := droppedByModule[symbol.moduleId := DropCount(droppedByModule, symbol.moduleId) + 1];
        continue;
      }
      seenIds := seenIds + {symbol.id};
      deduplicated := deduplicated + [symbol];
    }
  }

  lemma {:induction false} HasIdNext(symbols: seq<IrSymbol>, n: nat)
    requires n < |symbols|
    ensures forall id :: HasId(symbols, n + 1, id) <==> HasId(symbols, n, id) || id == symbols[n].id
  {
    forall id ensures HasId(symbols, n + 1, id) <==> HasId(symbols, n, id) || id == symbols[n].id {
      if HasId(symbols, n, id) {
        var i :| 0 <= i < n && symbols[i].id == id;
        assert HasId(symbols, n + 1, id);
      }
    }
  }

  // ---------- Reverse edges ----------

  function Targets(s: IrSymbol): seq<string> { s.calls + s.references }

  predicate UniqueSymbols(symbols: seq<IrSymbol>) {
    forall i, j :: 0 <= i < j < |symbols| ==> symbols[i].id != symbols[j].id
  }

  /** One of the first `n` symbols, named `user`, calls or references `id`. */
  predicate Uses(symbols: seq<IrSymbol>, n: nat, user: string, id: string)
    requires n <= |symbols|
  {
    exists j :: 0 <= j < n && symbols[j].id == user && id in Targets(symbols[j])
  }

  /** The first `n` symbols, and the first `k` targets of the next one, have been turned around. */
  ghost predicate Linked(symbols: seq<IrSymbol>, kept: seq<IrSymbol>, n: nat, k: nat)
    requires n <= |kept| && (n < |kept| ==> k <= |Targets(kept[n])|) && |symbols| == |kept|
  {
    forall t, x :: 0 <= t < |kept| ==>
      (x in symbols[t].usedBy <==>
        Uses(kept, n, x, kept[t].id) || (n < |kept| && x == kept[n].id && kept[t].id in Targets(kept[n])[..k]))
  }

  ghost predicate SameButUsedBy(symbols: seq<IrSymbol>, kept: seq<IrSymbol>) {
    |symbols| == |kept| && forall i :: 0 <= i < |kept| ==> symbols[i].(usedBy := []) == kept[i].(usedBy := [])
  }

  /** `usedBy` lists exactly the symbols that call or reference this one, once each, in order. */
  ghost predicate IsUsedBy(usedBy: seq<string>, symbols: seq<IrSymbol>, id: string) {
    IsSorted(usedBy) && Distinct(usedBy) && forall x :: x in usedBy <==> Uses(symbols, |symbols|, x, id)
  }

  ghost predicate ArePositions(byId: map<string, nat>, kept: seq<IrSymbol>) {
    && (forall id :: id in byId ==> byId[id] < |kept| && kept[byId[id]].id == id)
    && (forall i :: 0 <= i < |kept| ==> kept[i].id in byId)
  }

  function Positions(kept: seq<IrSymbol>): (byId: map<string, nat>)
    requires UniqueSymbols(kept)
    ensures ArePositions(byId, kept)
  {
    map i | 0 <= i < |kept| :: kept[i].id := i
  }

  /** One symbol's calls and references, turned around in place. */
  method LinkTargets(kept: seq<IrSymbol>, byId: map<string, nat>, n: nat, linked: seq<IrSymbol>)
    returns (symbols: seq<IrSymbol>)
    requires n < |kept| && UniqueSymbols(kept) && ArePositions(byId, kept)
    requires SameButUsedBy(linked, kept) && Linked(linked, kept, n, 0)
    ensures SameButUsedBy(symbols, kept) && Linked(symbols, kept, n + 1, 0)
  {
    hide Linked, Targets;
    symbols := linked;
    var targets := Targets(kept[n]);
    for k := 0 to |targets|
      invariant SameButUsedBy(symbols, kept) && Linked(symbols, kept, n, k)
    {
      ghost var before := symbols;
      if targets[k] in byId {
        var at := byId[targets[k]];
        symbols := symbols[at := symbols[at].(usedBy := symbols[at].usedBy + [kept[n].id])];
      }
      LinkOne(before, symbols, kept, n, k);
    }
    LinkNext(symbols, kept, n);
  }

  method SortUsedBy(kept: seq<IrSymbol>, linked: seq<IrSymbol>) returns (symbols: seq<IrSymbol>)
    requires SameButUsedBy(linked, kept) && Linked(linked, kept, |kept|, 0)
    ensures SameButUsedBy(symbols, kept)
    ensures forall i :: 0 <= i < |kept| ==> IsUsedBy(symbols[i].usedBy, kept, kept[i].id)
  {
    hide Linked, IsUsedBy, Sort, Unique;
    symbols := linked;
    for n := 0 to |symbols|
      invariant SameButUsedBy(symbols, kept)
      invariant forall i :: n <= i < |kept| ==> symbols[i] == linked[i]
      invariant forall i :: 0 <= i < n ==> IsUsedBy(symbols[i].usedBy, kept, kept[i].id)
    {
      LinkSorted(linked, kept, n);
      symbols := symbols[n := symbols[n].(usedBy := Sort(Unique(symbols[n].usedBy)))];
    }
  }

  method LinkUsedBy(kept: seq<IrSymbol>) returns (symbols: seq<IrSymbol>)
    requires UniqueSymbols(kept) && forall i :: 0 <= i < |kept| ==> kept[i].usedBy == []
    ensures SameButUsedBy(symbols, kept)
    ensures forall i :: 0 <= i < |kept| ==> IsUsedBy(symbols[i].usedBy, kept, kept[i].id)
  {
    hide Linked, IsUsedBy, Uses, Targets;
    symbols := kept;
    LinkStart(kept);
    var byId := Positions(kept);
    for n := 0 to |kept|
      invariant SameButUsedBy(symbols, kept) && Linked(symbols, kept, n, 0)
    {
      symbols := LinkTargets(kept, byId, n, symbols);
    }
    symbols := SortUsedBy(kept, symbols);
  }

  lemma {:induction false} LinkStart(kept: seq<IrSymbol>)
    requires forall i :: 0 <= i < |kept| ==> kept[i].usedBy == []
    ensures Linked(kept, kept, 0, 0)
  {
    hide Targets;
  }

  lemma {:induction false} LinkSorted(linked: seq<IrSymbol>, kept: seq<IrSymbol>, i: nat)
    requires i < |kept| == |linked| && Linked(linked, kept, |kept|, 0)
    ensures IsUsedBy(Sort(Unique(linked[i].usedBy)), kept, kept[i].id)
  {
    hide Uses;
    SortedSet(linked[i].usedBy);
  }

  lemma {:induction false} LinkOne(before: seq<IrSymbol>, after: seq<IrSymbol>, kept: seq<IrSymbol>, n: nat, k: nat)
    requires n < |kept| && k < |Targets(kept[n])| && UniqueSymbols(kept)
    requires |before| == |after| == |kept| && Linked(before, kept, n, k)
    requires forall t :: 0 <= t < |kept| ==>
      after[t].usedBy == if kept[t].id == Targets(kept[n])[k] then before[t].usedBy + [kept[n].id] else before[t].usedBy
    ensures Linked(after, kept, n, k + 1)
  {
    hide Uses, Targets;
    var targets := Targets(kept[n]);
    assert targets[..k + 1] == targets[..k] + [targets[k]];
  }

  lemma {:induction false} LinkNext(symbols: seq<IrSymbol>, kept: seq<IrSymbol>, n: nat)
    requires n < |kept| && |symbols| == |kept| && Linked(symbols, kept, n, |Targets(kept[n])|)
    ensures Linked(symbols, kept, n + 1, 0)
  {
    hide Targets;
    var targets := Targets(kept[n]);
    assert targets[..|targets|] == targets;
    forall x, id ensures Uses(kept, n + 1, x, id) <==> Uses(kept, n, x, id) || (x == kept[n].id && id in targets) {
      UsesNext(kept, n, x, id);
    }
  }

  lemma {:induction false} UsesNext(kept: seq<IrSymbol>, n: nat, x: string, id: string)
    requires n < |kept|
    ensures Uses(kept, n + 1, x, id) <==> Uses(kept, n, x, id) || (x == kept[n].id && id in Targets(kept[n]))
  {
    hide Targets;
  }
}
