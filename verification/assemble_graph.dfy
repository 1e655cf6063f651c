/** What assembly promises of the graph it returns, packages/ir/src/assemble.ts. */
module AssembleGraph {
  import opened Strings
  import opened Assemble

  // ---------- Module totals ----------

  /** A module is only as deep as its shallowest symbol. */
  function WeakestDepth(depths: seq<Depth>): (d: Depth)
    ensures depths != [] ==> d in depths
    ensures forall x :: x in depths ==> Rank(d) <= Rank(x)
    ensures d == Shallow <==> depths == [] || Shallow in depths
    ensures d == Artifact <==> depths != [] && forall x :: x in depths ==> x == Artifact
  {
    if depths == [] then Shallow
    else if Shallow in depths then Shallow
    else if Semantic in depths then Semantic
    else
      assert depths[0].Artifact?;
      Artifact
  }

  function Rank(d: Depth): nat {
    match d
    case Shallow => 0
    case Semantic => 1
    case Artifact => 2
  }

  function Own(symbols: seq<IrSymbol>, moduleId: string, n: nat): (own: seq<IrSymbol>)
    requires n <= |symbols|
  {
    if n == 0 then []
    else Own(symbols, moduleId, n - 1) + if symbols[n - 1].moduleId == moduleId then [symbols[n - 1]] else []
  }

  function Depths(symbols: seq<IrSymbol>): (r: seq<Depth>)
    ensures |r| == |symbols| && forall i :: 0 <= i < |r| ==> r[i] == symbols[i].depth
  {
    seq(|symbols|, i requires 0 <= i < |symbols| => symbols[i].depth)
  }

  function Languages(symbols: seq<IrSymbol>): (r: seq<string>)
    ensures |r| == |symbols| && forall i :: 0 <= i < |r| ==> r[i] == symbols[i].language
  {
    seq(|symbols|, i requires 0 <= i < |symbols| => symbols[i].language)
  }

  function DropNote(dropped: nat): seq<Note> { if dropped > 0 then [Dropped(dropped)] else [] }

  function Finish(m: RawModule, id: string, own: seq<IrSymbol>, dropped: nat): IrModule {
    IrModule(id, m.key, |own|, WeakestDepth(Depths(own)), Unique(Languages(own)), m.notes + DropNote(dropped))
  }

  method FinishModules(
    modules: seq<RawModule>, moduleId: string -> string, symbols: seq<IrSymbol>, droppedByModule: map<string, nat>)
    returns (finished: seq<IrModule>)
    ensures |finished| == |modules|
    ensures forall i :: 0 <= i < |modules| ==>
      var id := moduleId(modules[i].key);
      finished[i] == Finish(modules[i], id, Own(symbols, id, |symbols|), DropCount(droppedByModule, id))
  {
    hide DropCount, Own, WeakestDepth, Depths, Languages, Unique;
    finished := [];
    for i := 0 to |modules|
      invariant |finished| == i
      invariant forall k :: 0 <= k < i ==>
        var id := moduleId(modules[k].key);
        finished[k] == Finish(modules[k], id, Own(symbols, id, |symbols|), DropCount(droppedByModule, id))
    {
      var id := moduleId(modules[i].key);
      var own := Own(symbols, id, |symbols|);
      var notes := modules[i].notes;
      var dropped := DropCount(droppedByModule, id);
      if dropped > 0 { notes := notes + [Dropped(dropped)]; }
      finished := finished + [IrModule(
        id, modules[i].key, |own|, WeakestDepth(Depths(own)), Unique(Languages(own)), notes)];
    }
  }

  // ---------- Identity ----------

  ghost predicate StagedId(staged: seq<Staged>, n: nat, id: string)
    requires n <= |staged|
  {
    exists i :: 0 <= i < n && staged[i].id == id
  }

  lemma {:induction false} IndexHoldsIds(staged: seq<Staged>, n: nat, name: string)
    requires n <= |staged| && name in Index(staged, n)
    ensures StagedId(staged, n, Index(staged, n)[name])
  {
    hide QualifiedKey;
    if n == 0 {
    } else {
      var id := Index(staged, n)[name];
      if id == staged[n - 1].id {
        assert StagedId(staged, n, id);
      } else {
        IndexHoldsIds(staged, n - 1, name);
        var i :| 0 <= i < n - 1 && staged[i].id == id;
        assert StagedId(staged, n, id);
      }
    }
  }

  /** The retained symbols have distinct ids, and every id that was supplied is among them. */
  lemma {:induction false} OneSymbolPerId(symbols: seq<IrSymbol>, n: nat)
    requires n <= |symbols|
    ensures var kept := Retained(symbols, n);
      UniqueSymbols(kept) && forall id :: HasId(kept, |kept|, id) <==> HasId(symbols, n, id)
  {
    hide HasId, UniqueSymbols;
    if n == 0 {
      NoSymbols(symbols);
    } else {
      OneSymbolPerId(symbols, n - 1);
      HasIdNext(symbols, n - 1);
      var front, last := Retained(symbols, n - 1), symbols[n - 1];
      if !HasId(symbols, n - 1, last.id) {
        RetainedGrows(front, last);
      }
    }
  }

  lemma {:induction false} NoSymbols(symbols: seq<IrSymbol>)
    ensures UniqueSymbols(Retained(symbols, 0))
    ensures forall id :: !HasId(Retained(symbols, 0), 0, id) && !HasId(symbols, 0, id)
  {
  }

  lemma {:induction false} RetainedGrows(front: seq<IrSymbol>, last: IrSymbol)
    requires UniqueSymbols(front) && !HasId(front, |front|, last.id)
    ensures UniqueSymbols(front + [last])
    ensures forall id :: HasId(front + [last], |front + [last]|, id) <==> HasId(front, |front|, id) || id == last.id
  {
    var kept := front + [last];
    forall i, j | 0 <= i < j < |kept| ensures kept[i].id != kept[j].id {
      assert kept[i] == front[i];
    }
    forall id ensures HasId(kept, |kept|, id) <==> HasId(front, |front|, id) || id == last.id {
      if HasId(front, |front|, id) {
        var i :| 0 <= i < |front| && front[i].id == id;
        assert kept[i].id == id;
      }
      assert kept[|front|] == last;
      assert forall i :: 0 <= i < |front| ==> kept[i] == front[i];
    }
  }

  /** The first symbol with an id wins: what is retained stands first among its namesakes. */
  lemma {:induction false} FirstWins(symbols: seq<IrSymbol>, n: nat, s: IrSymbol)
    requires n <= |symbols| && s in Retained(symbols, n)
    ensures exists i :: 0 <= i < n && symbols[i] == s && !HasId(symbols, i, s.id)
  {
    if n == 0 {
    } else {
      if s in Retained(symbols, n - 1) {
        FirstWins(symbols, n - 1, s);
      } else {
        assert symbols[n - 1] == s && !HasId(symbols, n - 1, s.id);
      }
    }
  }

  ghost predicate Injective(symbolId: SymbolKey -> string) {
    forall a, b :: symbolId(a) == symbolId(b) ==> a == b
  }

  predicate SameIdentity(a: Staged, b: Staged) {
    && a.moduleKey == b.moduleKey && a.raw.language == b.raw.language && a.raw.kind == b.raw.kind
    && a.raw.qualifiedName == b.raw.qualifiedName && a.raw.overload == b.raw.overload
  }

  lemma {:induction false} StagedAs(
    modules: seq<RawModule>, n: nat, i: nat, moduleId: string -> string, symbolId: SymbolKey -> string)
    requires n <= |modules| && i < |StageAll(modules, n, moduleId, symbolId)|
    ensures var e := StageAll(modules, n, moduleId, symbolId)[i];
      e.id == symbolId(SymbolKey(e.moduleKey, e.raw.language, e.raw.kind, e.raw.qualifiedName, e.raw.overload))
  {
    hide StageModule;
    if n > 0 && i < |StageAll(modules, n - 1, moduleId, symbolId)| {
      StagedAs(modules, n - 1, i, moduleId, symbolId);
    }
  }

  /** A symbol is dropped exactly when an earlier one of the same module has its language, kind,
      qualified name and overload; never because of another module's symbol. */
  lemma {:induction false} DroppedIffTwin(
    modules: seq<RawModule>, i: nat, moduleId: string -> string, symbolId: SymbolKey -> string)
    requires Injective(symbolId) && i < |StageAll(modules, |modules|, moduleId, symbolId)|
    ensures var staged := StageAll(modules, |modules|, moduleId, symbolId);
      var all := IrAll(Index(staged, |staged|), staged, |staged|);
      HasId(all, i, all[i].id) <==> exists j :: 0 <= j < i && SameIdentity(staged[j], staged[i])
  {
    hide StageAll, Index, IrAll;
    var staged := StageAll(modules, |modules|, moduleId, symbolId);
    var all := IrAll(Index(staged, |staged|), staged, |staged|);
    forall j | 0 <= j <= i ensures all[j].id == staged[i].id <==> SameIdentity(staged[j], staged[i]) {
      StagedAs(modules, |modules|, j, moduleId, symbolId);
      StagedAs(modules, |modules|, i, moduleId, symbolId);
    }
    if HasId(all, i, all[i].id) {
      var j :| 0 <= j < i && all[j].id == all[i].id;
      assert SameIdentity(staged[j], staged[i]);
    }
  }

  // ---------- What a name resolves to ----------

  function LastOwn(staged: seq<Staged>, moduleId: string, name: string, n: nat): Option<string>
    requires n <= |staged|
  {
    if n == 0 then None
    else if staged[n - 1].moduleId == moduleId && staged[n - 1].raw.qualifiedName == name then Some(staged[n - 1].id)
    else LastOwn(staged, moduleId, name, n - 1)
  }

  function FirstNamed(staged: seq<Staged>, name: string, n: nat): Option<string>
    requires n <= |staged|
  {
    if n == 0 then None
    else if FirstNamed(staged, name, n - 1).Some? then FirstNamed(staged, name, n - 1)
    else if staged[n - 1].raw.qualifiedName == name then Some(staged[n - 1].id)
    else None
  }

  /** The name does not itself start with a module id and the key's two colons. */
  predicate Plain(staged: seq<Staged>, name: string) {
    forall i :: 0 <= i < |staged| ==> !(staged[i].moduleId + "::" <= name)
  }

  /** Module ids have one length, and no symbol's name looks like a qualified key. */
  predicate PlainNames(staged: seq<Staged>, width: nat) {
    forall i :: 0 <= i < |staged| ==> |staged[i].moduleId| == width && Plain(staged, staged[i].raw.qualifiedName)
  }

  lemma {:induction false} KeyInjective(a: string, x: string, b: string, y: string)
    requires |a| == |b|
    ensures QualifiedKey(a, x) == QualifiedKey(b, y) <==> a == b && x == y
  {
    if QualifiedKey(a, x) == QualifiedKey(b, y) {
      var k := QualifiedKey(a, x);
      assert k[..|a|] == a && k[..|b|] == b;
      assert k[|a| + 2..] == x && k[|b| + 2..] == y;
    }
  }

  lemma {:induction false} PlainIsNoKey(staged: seq<Staged>, name: string, i: nat, other: string)
    requires Plain(staged, name) && i < |staged|
    ensures name != QualifiedKey(staged[i].moduleId, other)
  {
    var k := QualifiedKey(staged[i].moduleId, other);
    assert k[..|staged[i].moduleId| + 2] == QualifiedKey(staged[i].moduleId, "");
  }

  function Get(index: map<string, string>, key: string): Option<string> {
    if key in index then Some(index[key]) else None
  }

  lemma {:induction false} OwnLookup(staged: seq<Staged>, width: nat, at: nat, name: string, n: nat)
    requires n <= |staged| && at < |staged| && PlainNames(staged, width)
    ensures Get(Index(staged, n), QualifiedKey(staged[at].moduleId, name)) == LastOwn(staged, staged[at].moduleId, name, n)
  {
    hide QualifiedKey, Plain;
    if n == 0 {
    } else {
      var e, moduleId := staged[n - 1], staged[at].moduleId;
      OwnLookup(staged, width, at, name, n - 1);
      KeyInjective(moduleId, name, e.moduleId, e.raw.qualifiedName);
      PlainIsNoKey(staged, e.raw.qualifiedName, at, name);
    }
  }

  lemma {:induction false} BareLookup(staged: seq<Staged>, name: string, n: nat)
    requires n <= |staged| && Plain(staged, name)
    ensures Get(Index(staged, n), name) == FirstNamed(staged, name, n)
  {
    hide QualifiedKey, Plain;
    if n == 0 {
    } else {
      BareLookup(staged, name, n - 1);
      PlainIsNoKey(staged, name, n - 1, staged[n - 1].raw.qualifiedName);
    }
  }

  /** A name means the last symbol its own module declares under it, and failing that the first
      symbol any module declares under it. */
  lemma {:induction false} ResolveMeans(staged: seq<Staged>, width: nat, at: nat, name: string)
    requires at < |staged| && PlainNames(staged, width) && Plain(staged, name)
    ensures var own := LastOwn(staged, staged[at].moduleId, name, |staged|);
      Resolve(Index(staged, |staged|), staged[at].moduleId, name)
      == if own.Some? then own else FirstNamed(staged, name, |staged|)
  {
    hide Index, QualifiedKey, Plain, LastOwn, FirstNamed;
    OwnLookup(staged, width, at, name, |staged|);
    BareLookup(staged, name, |staged|);
  }

  // ---------- The closed graph ----------

  ghost predicate AllIn(ids: seq<string>, symbols: seq<IrSymbol>) {
    forall x :: x in ids ==> HasId(symbols, |symbols|, x)
  }

  ghost predicate ClosedAt(s: IrSymbol, symbols: seq<IrSymbol>) {
    && AllIn(s.calls, symbols) && AllIn(s.implemented, symbols)
    && AllIn(s.extended, symbols) && AllIn(s.references, symbols)
    && (s.parentId.Some? ==> HasId(symbols, |symbols|, s.parentId.value))
  }

  /** Every resolved edge and every parent names a symbol of the graph. */
  ghost predicate Closed(symbols: seq<IrSymbol>) {
    forall i :: 0 <= i < |symbols| ==> ClosedAt(symbols[i], symbols)
  }

  lemma {:induction false} NameIsKept(staged: seq<Staged>, moduleId: string, name: string)
    requires var index := Index(staged, |staged|); Resolve(index, moduleId, name).Some?
    ensures var index := Index(staged, |staged|);
      var kept := Retained(IrAll(index, staged, |staged|), |staged|);
      HasId(kept, |kept|, Resolve(index, moduleId, name).value)
  {
    hide Index, Retained, QualifiedKey;
    var index := Index(staged, |staged|);
    var all := IrAll(index, staged, |staged|);
    var found := if QualifiedKey(moduleId, name) in index then QualifiedKey(moduleId, name) else name;
    IndexHoldsIds(staged, |staged|, found);
    var i :| 0 <= i < |staged| && staged[i].id == index[found];
    assert all[i].id == index[found];
    assert HasId(all, |staged|, index[found]);
    OneSymbolPerId(all, |staged|);
  }

  lemma {:induction false} IdsAreKept(staged: seq<Staged>, moduleId: string, names: seq<string>)
    ensures var index := Index(staged, |staged|);
      AllIn(ResolvedIds(index, moduleId, names, |names|), Retained(IrAll(index, staged, |staged|), |staged|))
  {
    hide Index, Retained, IrAll, Resolve, HasId;
    var index := Index(staged, |staged|);
    var ids := ResolvedIds(index, moduleId, names, |names|);
    var kept := Retained(IrAll(index, staged, |staged|), |staged|);
    forall x | x in ids ensures HasId(kept, |kept|, x) {
      var i :| 0 <= i < |names| && Resolves(index, moduleId, names[i]) && Resolve(index, moduleId, names[i]) == Some(x);
      NameIsKept(staged, moduleId, names[i]);
    }
  }

  lemma {:induction false} KeptIsStaged(staged: seq<Staged>, s: IrSymbol)
    requires var index := Index(staged, |staged|); s in Retained(IrAll(index, staged, |staged|), |staged|)
    ensures exists i :: 0 <= i < |staged| && s == IrOf(Index(staged, |staged|), staged[i])
  {
    hide Index, IrOf;
    var all := IrAll(Index(staged, |staged|), staged, |staged|);
    FirstWins(all, |staged|, s);
    var i :| 0 <= i < |staged| && all[i] == s && !HasId(all, i, s.id);
    assert all[i] == IrOf(Index(staged, |staged|), staged[i]);
  }

  lemma {:induction false} KeptIsClosed(staged: seq<Staged>)
    ensures Closed(Retained(IrAll(Index(staged, |staged|), staged, |staged|), |staged|))
  {
    hide Index, IrAll, Retained, ResolvedIds, Resolve, AllMissing, HasId;
    var index := Index(staged, |staged|);
    var kept := Retained(IrAll(index, staged, |staged|), |staged|);
    forall i | 0 <= i < |kept| ensures ClosedAt(kept[i], kept) {
      KeptIsStaged(staged, kept[i]);
      var k :| 0 <= k < |staged| && kept[i] == IrOf(index, staged[k]);
      EntryIsClosed(staged, staged[k]);
    }
  }

  lemma {:induction false} EntryIsClosed(staged: seq<Staged>, e: Staged)
    ensures var index := Index(staged, |staged|);
      ClosedAt(IrOf(index, e), Retained(IrAll(index, staged, |staged|), |staged|))
  {
    hide Index, IrAll, Retained, ResolvedIds, Resolve, AllMissing, HasId, AllIn;
    IdsAreKept(staged, e.moduleId, e.raw.calls);
    IdsAreKept(staged, e.moduleId, e.raw.implemented);
    IdsAreKept(staged, e.moduleId, e.raw.extended);
    IdsAreKept(staged, e.moduleId, e.raw.references);
    if ParentOf(Index(staged, |staged|), e).Some? {
      NameIsKept(staged, e.moduleId, e.raw.parentName);
    }
  }

  lemma {:induction false} SameHasId(symbols: seq<IrSymbol>, kept: seq<IrSymbol>, id: string)
    requires SameButUsedBy(symbols, kept)
    ensures HasId(symbols, |symbols|, id) <==> HasId(kept, |kept|, id)
  {
    assert forall i :: 0 <= i < |kept| ==> symbols[i].id == kept[i].id by {
      forall i | 0 <= i < |kept| ensures symbols[i].id == kept[i].id {
        assert symbols[i].(usedBy := []) == kept[i].(usedBy := []);
      }
    }
    if HasId(kept, |kept|, id) {
      var i :| 0 <= i < |kept| && kept[i].id == id;
      assert symbols[i].id == id;
    }
  }

  lemma {:induction false} SameUses(symbols: seq<IrSymbol>, kept: seq<IrSymbol>, user: string, id: string)
    requires SameButUsedBy(symbols, kept)
    ensures Uses(symbols, |symbols|, user, id) <==> Uses(kept, |kept|, user, id)
  {
    forall i | 0 <= i < |kept| ensures symbols[i].id == kept[i].id && Targets(symbols[i]) == Targets(kept[i]) {
      assert symbols[i].(usedBy := []) == kept[i].(usedBy := []);
    }
    if Uses(kept, |kept|, user, id) {
      var j :| 0 <= j < |kept| && kept[j].id == user && id in Targets(kept[j]);
      assert symbols[j].id == user && id in Targets(symbols[j]);
    }
    if Uses(symbols, |symbols|, user, id) {
      var j :| 0 <= j < |symbols| && symbols[j].id == user && id in Targets(symbols[j]);
      assert kept[j].id == user && id in Targets(kept[j]);
    }
  }

  /** Filling in `usedBy` changes neither what is closed nor who uses whom. */
  lemma {:induction false} LinkedGraph(symbols: seq<IrSymbol>, kept: seq<IrSymbol>)
    requires SameButUsedBy(symbols, kept) && Closed(kept) && UniqueSymbols(kept)
    requires forall i :: 0 <= i < |kept| ==> IsUsedBy(symbols[i].usedBy, kept, kept[i].id)
    ensures Closed(symbols) && UniqueSymbols(symbols)
    ensures forall i :: 0 <= i < |symbols| ==> IsUsedBy(symbols[i].usedBy, symbols, symbols[i].id)
  {
    hide HasId, Uses, IsSorted, Distinct;
    forall id ensures HasId(symbols, |symbols|, id) <==> HasId(kept, |kept|, id) { SameHasId(symbols, kept, id); }
    forall user, id ensures Uses(symbols, |symbols|, user, id) <==> Uses(kept, |kept|, user, id) {
      SameUses(symbols, kept, user, id);
    }
    forall i | 0 <= i < |kept|
      ensures symbols[i].id == kept[i].id && ClosedAt(symbols[i], symbols)
      ensures IsUsedBy(symbols[i].usedBy, symbols, symbols[i].id)
    {
      assert symbols[i].(usedBy := []) == kept[i].(usedBy := []);
      assert ClosedAt(kept[i], kept);
    }
  }

  // ---------- Conservation ----------

  predicate DistinctModules(modules: seq<RawModule>, moduleId: string -> string) {
    forall i, j :: 0 <= i < j < |modules| ==> moduleId(modules[i].key) != moduleId(modules[j].key)
  }

  lemma {:induction false} OwnAppend(symbols: seq<IrSymbol>, last: IrSymbol, moduleId: string, n: nat)
    requires n <= |symbols|
    ensures Own(symbols + [last], moduleId, n) == Own(symbols, moduleId, n)
  {
    if n == 0 {
    } else {
      OwnAppend(symbols, last, moduleId, n - 1);
    }
  }

  /** Of any module's symbols, what is not retained is counted as dropped. */
  lemma {:induction false} RetainedPlusDropped(symbols: seq<IrSymbol>, moduleId: string, n: nat)
    requires n <= |symbols|
    ensures var kept := Retained(symbols, n);
      |Own(kept, moduleId, |kept|)| + DroppedFrom(symbols, moduleId, n) == |Own(symbols, moduleId, n)|
  {
    hide HasId;
    if n == 0 {
    } else {
      RetainedPlusDropped(symbols, moduleId, n - 1);
      var front := Retained(symbols, n - 1);
      OwnAppend(front, symbols[n - 1], moduleId, |front|);
    }
  }

  function OwnStaged(staged: seq<Staged>, moduleId: string, n: nat): nat
    requires n <= |staged|
  {
    if n == 0 then 0
    else OwnStaged(staged, moduleId, n - 1) + if staged[n - 1].moduleId == moduleId then 1 else 0
  }

  lemma {:induction false} OwnIsStaged(index: map<string, string>, staged: seq<Staged>, moduleId: string, n: nat)
    requires n <= |staged|
    ensures |Own(IrAll(index, staged, |staged|), moduleId, n)| == OwnStaged(staged, moduleId, n)
  {
    hide IrAll;
    if n == 0 {
    } else {
      OwnIsStaged(index, staged, moduleId, n - 1);
    }
  }

  lemma {:induction false} OwnStagedAppend(a: seq<Staged>, b: seq<Staged>, run: string, moduleId: string, n: nat)
    requires n <= |b| && forall i :: 0 <= i < |b| ==> b[i].moduleId == run
    ensures OwnStaged(a + b, moduleId, |a| + n) == OwnStaged(a, moduleId, |a|) + if run == moduleId then n else 0
  {
    if n == 0 {
      OwnStagedPrefix(a, b, moduleId, |a|);
    } else {
      OwnStagedAppend(a, b, run, moduleId, n - 1);
      assert (a + b)[|a| + n - 1] == b[n - 1];
    }
  }

  lemma {:induction false} OwnStagedPrefix(a: seq<Staged>, b: seq<Staged>, moduleId: string, n: nat)
    requires n <= |a|
    ensures OwnStaged(a + b, moduleId, n) == OwnStaged(a, moduleId, n)
  {
    if n == 0 {
    } else {
      OwnStagedPrefix(a, b, moduleId, n - 1);
    }
  }

  lemma {:induction false} StagedOfModule(
    modules: seq<RawModule>, n: nat, k: nat, moduleId: string -> string, symbolId: SymbolKey -> string)
    requires n <= |modules| && k < |modules| && DistinctModules(modules, moduleId)
    ensures var staged := StageAll(modules, n, moduleId, symbolId);
      OwnStaged(staged, moduleId(modules[k].key), |staged|) == if k < n then |modules[k].symbols| else 0
  {
    hide OwnStaged;
    if n == 0 {
      NoneStaged(moduleId(modules[k].key));
    } else {
      StagedOfModule(modules, n - 1, k, moduleId, symbolId);
      var m := modules[n - 1];
      var last := StageModule(m, |m.symbols|, moduleId, symbolId);
      OwnStagedAppend(
        StageAll(modules, n - 1, moduleId, symbolId), last, moduleId(m.key), moduleId(modules[k].key), |last|);
    }
  }

  lemma {:induction false} NoneStaged(moduleId: string)
    ensures OwnStaged([], moduleId, 0) == 0
  {
  }

  // ---------- Assembly ----------

  /** The symbols that assembly keeps, before the reverse edges. */
  function Kept(modules: seq<RawModule>, moduleId: string -> string, symbolId: SymbolKey -> string): seq<IrSymbol> {
    var staged := StageAll(modules, |modules|, moduleId, symbolId);
    Retained(IrAll(Index(staged, |staged|), staged, |staged|), |staged|)
  }

  lemma {:induction false} OwnSame(symbols: seq<IrSymbol>, kept: seq<IrSymbol>, moduleId: string, n: nat)
    requires SameButUsedBy(symbols, kept) && n <= |kept|
    ensures |Own(symbols, moduleId, n)| == |Own(kept, moduleId, n)|
  {
    if n == 0 {
    } else {
      OwnSame(symbols, kept, moduleId, n - 1);
      assert symbols[n - 1].(usedBy := []) == kept[n - 1].(usedBy := []);
    }
  }

  lemma {:induction false} ModuleTotal(
    modules: seq<RawModule>, k: nat, moduleId: string -> string, symbolId: SymbolKey -> string)
    requires k < |modules| && DistinctModules(modules, moduleId)
    ensures var staged := StageAll(modules, |modules|, moduleId, symbolId);
      var all, kept, id := IrAll(Index(staged, |staged|), staged, |staged|), Kept(modules, moduleId, symbolId), moduleId(modules[k].key);
      |Own(kept, id, |kept|)| + DroppedFrom(all, id, |staged|) == |modules[k].symbols|
  {
    hide StageAll, Index, IrAll, Retained, Own, OwnStaged, DroppedFrom;
    var staged := StageAll(modules, |modules|, moduleId, symbolId);
    var index, id := Index(staged, |staged|), moduleId(modules[k].key);
    RetainedPlusDropped(IrAll(index, staged, |staged|), id, |staged|);
    OwnIsStaged(index, staged, id, |staged|);
    StagedOfModule(modules, |modules|, k, moduleId, symbolId);
  }

  lemma {:induction false} NoUsersYet(staged: seq<Staged>)
    ensures var kept := Retained(IrAll(Index(staged, |staged|), staged, |staged|), |staged|);
      forall i :: 0 <= i < |kept| ==> kept[i].usedBy == []
  {
    hide Index, IrAll, Retained;
    var kept := Retained(IrAll(Index(staged, |staged|), staged, |staged|), |staged|);
    forall i | 0 <= i < |kept| ensures kept[i].usedBy == [] { KeptIsStaged(staged, kept[i]); }
  }

  /** Ids are unique, edges and parents stay inside the graph, `usedBy` is the sorted inverse of
      calls and references, and each module says how many of its symbols it lost. */
  method AssembleRepository(modules: seq<RawModule>, moduleId: string -> string, symbolId: SymbolKey -> string)
    returns (irModules: seq<IrModule>, symbols: seq<IrSymbol>, unresolvedCount: nat)
    ensures SameButUsedBy(symbols, Kept(modules, moduleId, symbolId))
    ensures UniqueSymbols(symbols) && Closed(symbols)
    ensures forall i :: 0 <= i < |symbols| ==> IsUsedBy(symbols[i].usedBy, symbols, symbols[i].id)
    ensures |irModules| == |modules|
    ensures forall i :: 0 <= i < |modules| ==>
      var own := Own(symbols, irModules[i].id, |symbols|);
      && irModules[i].id == moduleId(modules[i].key) && irModules[i].key == modules[i].key
      && irModules[i].symbolCount == |own|
      && irModules[i].depth == WeakestDepth(Depths(own))
      && irModules[i].languages == Unique(Languages(own))
    ensures DistinctModules(modules, moduleId) ==>
      forall i :: 0 <= i < |modules| ==>
        var dropped := |modules[i].symbols| - irModules[i].symbolCount;
        && dropped >= 0
        && irModules[i].notes == modules[i].notes + if dropped == 0 then [] else [Dropped(dropped)]
    ensures var staged := StageAll(modules, |modules|, moduleId, symbolId);
      unresolvedCount == MissingTotal(Index(staged, |staged|), staged, |staged|)
  {
    hide StageAll, Index, IrAll, Retained, Own, DroppedFrom, MissingTotal, Closed, IsUsedBy, UniqueSymbols,
      SameButUsedBy,
      WeakestDepth, Depths, Languages, Unique, DropCount;
    var staged, nameIndex := StageAndIndex(modules, moduleId, symbolId);
    var all;
    all, unresolvedCount := ResolveAll(nameIndex, staged);
    var kept, droppedByModule := Deduplicate(all);
    OneSymbolPerId(all, |staged|);
    NoUsersYet(staged);
    symbols := LinkUsedBy(kept);
    KeptIsClosed(staged);
    LinkedGraph(symbols, kept);
    irModules := FinishModules(modules, moduleId, symbols, droppedByModule);
    forall i | 0 <= i < |modules| && DistinctModules(modules, moduleId)
      ensures irModules[i].symbolCount <= |modules[i].symbols|
      ensures irModules[i].notes == modules[i].notes + DropNote(|modules[i].symbols| - irModules[i].symbolCount)
    {
      ModuleTotal(modules, i, moduleId, symbolId);
      SameLength(symbols, kept);
      OwnSame(symbols, kept, moduleId(modules[i].key), |kept|);
    }
  }

  lemma {:induction false} SameLength(symbols: seq<IrSymbol>, kept: seq<IrSymbol>)
    requires SameButUsedBy(symbols, kept)
    ensures |symbols| == |kept|
  {
  }
}
