/** `stableStringify` is a complete invariant of its values. */
module JsonComplete {
  import opened Strings
  import opened StableJson
  import opened JsonText

  /** `JSON.stringify(sortDeep(value))`, which is not a text for the value undefined. */
  function StableStringify(v: Json): Option<string> {
    if v == Undefined then None else Some(Text(SortDeep(v)))
  }

  /** The key reads as a value that reaches the text. */
  predicate Shown(fields: seq<Field>, key: string) {
    Lookup(fields, key) != Undefined && key != PROTO
  }

  /** Structural equality: key order and undefined-valued keys do not matter, nor does the key
      `__proto__`; an undefined array element counts as null. */
  ghost predicate Alike(v: Json, w: Json)
    decreases v
  {
    match v
    case Undefined => w.Undefined? || w.Null?
    case Null => w.Undefined? || w.Null?
    case Arr(items) =>
      w.Arr? && |items| == |w.items| && forall i :: 0 <= i < |items| ==> Alike(items[i], w.items[i])
    case Obj(fields) =>
      && w.Obj?
      && (forall key :: Shown(fields, key) <==> Shown(w.fields, key))
      && (forall key :: Shown(fields, key) ==> Alike(Lookup(fields, key), Lookup(w.fields, key)))
    case _ => v == w
  }

  // ---------- Looking up in what Put and Fill build ----------

  lemma {:induction false} LookupAbsent(fields: seq<Field>, key: string)
    requires key !in Keys(fields)
    ensures Lookup(fields, key) == Undefined
  {
    if fields == [] {
    } else {
      assert key != Keys(fields)[0] && Keys(fields)[1..] == Keys(fields[1..]);
      LookupAbsent(fields[1..], key);
    }
  }

  lemma {:induction false} LookupInserted(fields: seq<Field>, i: nat, f: Field, key: string)
    requires i <= |fields| && f.key !in Keys(fields)
    ensures Lookup(fields[..i] + [f] + fields[i..], key)
         == if key == f.key then f.value else Lookup(fields, key)
  {
    if i == 0 {
      InsertHead(fields, f);
    } else {
      var rest := fields[1..];
      assert f.key != Keys(fields)[0] && Keys(fields)[1..] == Keys(rest);
      LookupInserted(rest, i - 1, f, key);
      InsertTail(fields, i, f);
    }
  }

  lemma {:induction false} PutLookup(out: seq<Field>, key: string, value: Json, k: string)
    requires key !in Keys(out)
    ensures Lookup(Put(out, key, value), k) == if k == key && key != PROTO then value else Lookup(out, k)
    ensures k in Keys(Put(out, key, value)) ==> k == key || k in Keys(out)
  {
    if key != PROTO {
      var i := Slot(Keys(out), key);
      LookupInserted(out, i, Field(key, value), k);
      KeysPlaced(out, i, Field(key, value));
    }
  }

  predicate NoRepeats(keys: seq<string>) {
    keys == [] || (keys[0] !in keys[1..] && NoRepeats(keys[1..]))
  }

  lemma {:induction false} FillLookup(fields: seq<Field>, keys: seq<string>, out: seq<Field>, k: string)
    requires NoRepeats(keys) && (forall i :: 0 <= i < |keys| ==> keys[i] !in Keys(out))
    ensures Lookup(Fill(fields, keys, out), k)
         == if k in keys && Shown(fields, k) then SortDeep(Lookup(fields, k)) else Lookup(out, k)
    decreases |keys|
  {
    if keys == [] {
    } else {
      var key, value := keys[0], Lookup(fields, keys[0]);
      var next := if value == Undefined then out else Put(out, key, SortDeep(value));
      forall i | 0 <= i < |keys[1..]| ensures keys[1..][i] !in Keys(next) {
        assert keys[1..][i] == keys[i + 1] && keys[1..][i] in keys[1..];
        PutLookup(out, key, SortDeep(value), keys[i + 1]);
      }
      FillLookup(fields, keys[1..], next, k);
      PutLookup(out, key, SortDeep(value), k);
      if k == key { LookupAbsent(out, key); }
    }
  }

  predicate Defined(fields: seq<Field>) {
    fields == [] || (fields[0].value != Undefined && Defined(fields[1..]))
  }

  lemma {:induction false} DefinedInserted(fields: seq<Field>, i: nat, f: Field)
    requires i <= |fields| && Defined(fields) && f.value != Undefined
    ensures Defined(fields[..i] + [f] + fields[i..])
  {
    if i == 0 {
      InsertHead(fields, f);
    } else {
      DefinedInserted(fields[1..], i - 1, f);
      InsertTail(fields, i, f);
    }
  }

  lemma {:induction false} FillDefined(fields: seq<Field>, keys: seq<string>, out: seq<Field>)
    requires Defined(out)
    ensures Defined(Fill(fields, keys, out))
    decreases |keys|
  {
    if keys == [] {
    } else {
      var value := Lookup(fields, keys[0]);
      if value == Undefined {
        FillDefined(fields, keys[1..], out);
      } else {
        DefinedInserted(out, Slot(Keys(out), keys[0]), Field(keys[0], SortDeep(value)));
        FillDefined(fields, keys[1..], Put(out, keys[0], SortDeep(value)));
      }
    }
  }

  lemma {:induction false} SameLookup(fs: seq<Field>, gs: seq<Field>, key: string)
    requires SameMembers(fs, gs) && Defined(fs) && Defined(gs)
    ensures Lookup(fs, key) == Undefined <==> Lookup(gs, key) == Undefined
    ensures SameText(Lookup(fs, key), Lookup(gs, key))
  {
    if fs != [] && fs[0].key != key { SameLookup(fs[1..], gs[1..], key); }
  }

  // ---------- The keys of an object, sorted ----------

  lemma {:induction false} NoRepeatsCount(keys: seq<string>)
    ensures NoRepeats(keys) <==> forall k :: multiset(keys)[k] <= 1
  {
    if keys == [] {
    } else {
      assert keys == [keys[0]] + keys[1..];
      NoRepeatsCount(keys[1..]);
      if NoRepeats(keys) {
        forall k ensures multiset(keys)[k] <= 1 {
          assert keys[0] !in multiset(keys[1..]);
          assert multiset(keys)[k] == multiset(keys[1..])[k] + (if k == keys[0] then 1 else 0);
        }
      }
      if forall k :: multiset(keys)[k] <= 1 {
        assert multiset(keys)[keys[0]] == multiset(keys[1..])[keys[0]] + 1;
        forall k ensures multiset(keys[1..])[k] <= 1 {
          assert multiset(keys)[k] <= 1;
        }
      }
    }
  }

  lemma {:induction false} DistinctNoRepeats(fields: seq<Field>)
    requires DistinctKeys(fields)
    ensures NoRepeats(Keys(fields))
  {
    if fields == [] {
    } else {
      assert Keys(fields)[1..] == Keys(fields[1..]);
      DistinctNoRepeats(fields[1..]);
    }
  }

  lemma {:induction false} SortedKeys(fields: seq<Field>)
    requires DistinctKeys(fields)
    ensures NoRepeats(Sort(Keys(fields)))
    ensures forall k :: k in Sort(Keys(fields)) <==> k in Keys(fields)
  {
    DistinctNoRepeats(fields);
    NoRepeatsCount(Keys(fields));
    NoRepeatsCount(Sort(Keys(fields)));
    forall k ensures k in Sort(Keys(fields)) <==> k in Keys(fields) {
      assert k in multiset(Sort(Keys(fields))) <==> k in multiset(Keys(fields));
    }
  }

  /** Reading a sorted object at any key gives the sorted value, when the key is shown. */
  lemma {:induction false} SortedLookup(fields: seq<Field>, k: string)
    requires DistinctKeys(fields)
    ensures Lookup(SortDeep(Obj(fields)).fields, k)
         == if Shown(fields, k) then SortDeep(Lookup(fields, k)) else Undefined
  {
    SortedKeys(fields);
    FillLookup(fields, Sort(Keys(fields)), [], k);
    if k !in Keys(fields) { LookupAbsent(fields, k); }
  }

  // ---------- Alike values sort to the same object ----------

  /** The keys the loop does not skip. */
  function Kept(fields: seq<Field>, keys: seq<string>): seq<string> {
    if keys == [] then []
    else if Shown(fields, keys[0]) then [keys[0]] + Kept(fields, keys[1..])
    else Kept(fields, keys[1..])
  }

  lemma {:induction false} FillKept(fields: seq<Field>, keys: seq<string>, out: seq<Field>)
    ensures Fill(fields, keys, out) == Fill(fields, Kept(fields, keys), out)
    decreases |keys|
  {
    if keys == [] {
    } else {
      var value := Lookup(fields, keys[0]);
      if Shown(fields, keys[0]) {
        FillKept(fields, keys[1..], Put(out, keys[0], SortDeep(value)));
        assert Kept(fields, keys)[1..] == Kept(fields, keys[1..]);
      } else {
        FillKept(fields, keys[1..], out);
      }
    }
  }

  lemma {:induction false} KeptCount(fields: seq<Field>, keys: seq<string>, k: string)
    ensures multiset(Kept(fields, keys))[k] == if Shown(fields, k) then multiset(keys)[k] else 0
  {
    if keys == [] {
    } else {
      assert keys == [keys[0]] + keys[1..];
      KeptCount(fields, keys[1..], k);
    }
  }

  lemma {:induction false} KeptSorted(fields: seq<Field>, keys: seq<string>)
    requires IsSorted(keys)
    ensures IsSorted(Kept(fields, keys))
    ensures Kept(fields, keys) != [] ==> Leq(keys[0], Kept(fields, keys)[0])
  {
    if keys == [] {
    } else {
      KeptSorted(fields, keys[1..]);
      var rest := Kept(fields, keys[1..]);
      if rest != [] { LeqTransitive(keys[0], keys[1], rest[0]); }
      if Shown(fields, keys[0]) {
        LeqTotal(keys[0], keys[0]);
        assert Kept(fields, keys)[1..] == rest;
      }
    }
  }

  lemma {:induction false} ShownIsKey(fields: seq<Field>, k: string)
    requires DistinctKeys(fields) && Shown(fields, k)
    ensures multiset(Sort(Keys(fields)))[k] == 1
  {
    if k !in Keys(fields) { LookupAbsent(fields, k); }
    SortedKeys(fields);
    NoRepeatsCount(Sort(Keys(fields)));
    assert k in multiset(Sort(Keys(fields)));
  }

  /** The keys kept depend only on which keys are shown. */
  lemma {:induction false} KeptAgree(fs: seq<Field>, gs: seq<Field>)
    requires DistinctKeys(fs) && DistinctKeys(gs)
    requires forall key :: Shown(fs, key) <==> Shown(gs, key)
    ensures Kept(fs, Sort(Keys(fs))) == Kept(gs, Sort(Keys(gs)))
  {
    var xs, ys := Kept(fs, Sort(Keys(fs))), Kept(gs, Sort(Keys(gs)));
    forall k ensures multiset(xs)[k] == multiset(ys)[k] {
      KeptCount(fs, Sort(Keys(fs)), k);
      KeptCount(gs, Sort(Keys(gs)), k);
      if Shown(fs, k) {
        ShownIsKey(fs, k);
        ShownIsKey(gs, k);
      }
    }
    KeptSorted(fs, Sort(Keys(fs)));
    KeptSorted(gs, Sort(Keys(gs)));
    assert multiset(xs) == multiset(ys);
    SortedUnique(xs, ys);
  }

  lemma {:induction false} SameKeys(fs: seq<Field>, gs: seq<Field>)
    requires SameMembers(fs, gs)
    ensures Keys(fs) == Keys(gs)
  {
    if fs == [] {
    } else {
      SameKeys(fs[1..], gs[1..]);
    }
  }

  lemma {:induction false} SameInserted(fs: seq<Field>, gs: seq<Field>, i: nat, key: string, v: Json, w: Json)
    requires SameMembers(fs, gs) && SameText(v, w) && i <= |fs|
    ensures SameMembers(fs[..i] + [Field(key, v)] + fs[i..], gs[..i] + [Field(key, w)] + gs[i..])
  {
    var fs', gs' := fs[..i] + [Field(key, v)] + fs[i..], gs[..i] + [Field(key, w)] + gs[i..];
    if i == 0 {
      assert fs'[1..] == fs && gs'[1..] == gs;
    } else {
      SameInserted(fs[1..], gs[1..], i - 1, key, v, w);
      assert fs'[1..] == fs[1..][..i - 1] + [Field(key, v)] + fs[1..][i - 1..];
      assert gs'[1..] == gs[1..][..i - 1] + [Field(key, w)] + gs[1..][i - 1..];
    }
  }

  lemma {:induction false} FillSame(fs: seq<Field>, gs: seq<Field>, keys: seq<string>, out: seq<Field>, out': seq<Field>)
    requires SameMembers(out, out')
    requires forall i :: 0 <= i < |keys| ==>
      && Shown(fs, keys[i]) && Shown(gs, keys[i])
      && SameText(SortDeep(Lookup(fs, keys[i])), SortDeep(Lookup(gs, keys[i])))
    ensures SameMembers(Fill(fs, keys, out), Fill(gs, keys, out'))
    decreases |keys|
  {
    if keys == [] {
    } else {
      var v, w := SortDeep(Lookup(fs, keys[0])), SortDeep(Lookup(gs, keys[0]));
      SameKeys(out, out');
      SameInserted(out, out', Slot(Keys(out), keys[0]), keys[0], v, w);
      FillSame(fs, gs, keys[1..], Put(out, keys[0], v), Put(out', keys[0], w));
    }
  }

  lemma {:induction false} KeptShown(fields: seq<Field>, keys: seq<string>)
    ensures forall i :: 0 <= i < |Kept(fields, keys)| ==> Shown(fields, Kept(fields, keys)[i])
  {
    if keys == [] {
    } else {
      KeptShown(fields, keys[1..]);
    }
  }

  lemma {:induction false} SortAllSame(vs: seq<Json>, ws: seq<Json>)
    requires |vs| == |ws| && forall i :: 0 <= i < |vs| ==> SameText(vs[i], ws[i])
    ensures SameElements(vs, ws)
  {
    if vs == [] {
    } else {
      SortAllSame(vs[1..], ws[1..]);
    }
  }

  lemma {:induction false} SameElementsAt(vs: seq<Json>, ws: seq<Json>, i: nat)
    requires SameElements(vs, ws) && i < |vs|
    ensures SameText(vs[i], ws[i])
  {
    if i == 0 {
    } else {
      SameElementsAt(vs[1..], ws[1..], i - 1);
    }
  }

  lemma {:induction false} ProperLookup(fields: seq<Field>, key: string)
    requires Proper(Obj(fields))
    ensures Proper(Lookup(fields, key))
  {
  }

  lemma {:induction false} AlikeSorts(v: Json, w: Json)
    requires Proper(v) && Proper(w) && Alike(v, w)
    ensures SameText(SortDeep(v), SortDeep(w))
    decreases v
  {
    match v
    case Arr(items) =>
      forall i | 0 <= i < |items| ensures SameText(SortAll(items)[i], SortAll(w.items)[i]) {
        AlikeSorts(items[i], w.items[i]);
      }
      SortAllSame(SortAll(items), SortAll(w.items));
    case Obj(fields) =>
      var keys := Kept(fields, Sort(Keys(fields)));
      KeptAgree(fields, w.fields);
      FillKept(fields, Sort(Keys(fields)), []);
      FillKept(w.fields, Sort(Keys(w.fields)), []);
      KeptShown(fields, Sort(Keys(fields)));
      forall i | 0 <= i < |keys|
        ensures SameText(SortDeep(Lookup(fields, keys[i])), SortDeep(Lookup(w.fields, keys[i])))
      {
        ProperLookup(fields, keys[i]);
        ProperLookup(w.fields, keys[i]);
        AlikeSorts(Lookup(fields, keys[i]), Lookup(w.fields, keys[i]));
      }
      FillSame(fields, w.fields, keys, [], []);
    case _ =>
  }

  // ---------- And only alike values do ----------

  lemma {:induction false} SortsAlike(v: Json, w: Json)
    requires Proper(v) && Proper(w) && SameText(SortDeep(v), SortDeep(w))
    ensures Alike(v, w)
    decreases v
  {
    match v
    case Arr(items) =>
      forall i | 0 <= i < |items| ensures Alike(items[i], w.items[i]) {
        SameElementsAt(SortAll(items), SortAll(w.items), i);
        SortsAlike(items[i], w.items[i]);
      }
    case Obj(fields) =>
      forall key
        ensures Shown(fields, key) <==> Shown(w.fields, key)
        ensures Shown(fields, key) ==> SameText(SortDeep(Lookup(fields, key)), SortDeep(Lookup(w.fields, key)))
      {
        SortedAgree(fields, w.fields, key);
      }
      forall key | Shown(fields, key) ensures Alike(Lookup(fields, key), Lookup(w.fields, key)) {
        ProperLookup(fields, key);
        ProperLookup(w.fields, key);
        SortsAlike(Lookup(fields, key), Lookup(w.fields, key));
      }
    case _ =>
  }

  lemma {:induction false} SortedIsFilled(fs: seq<Field>)
    ensures SortDeep(Obj(fs)) == Obj(Fill(fs, Sort(Keys(fs)), []))
  {
    hide Fill, Sort, Keys;
  }

  lemma {:induction false} StaysDefined(v: Json)
    ensures SortDeep(v) == Undefined <==> v == Undefined
  {
    hide Fill, Sort, Keys;
  }

  /** Objects that sort to the same text show the same keys, with values that do too. */
  lemma {:induction false} SortedAgree(fs: seq<Field>, gs: seq<Field>, key: string)
    requires DistinctKeys(fs) && DistinctKeys(gs)
    requires SameMembers(SortDeep(Obj(fs)).fields, SortDeep(Obj(gs)).fields)
    ensures Shown(fs, key) <==> Shown(gs, key)
    ensures Shown(fs, key) ==> SameText(SortDeep(Lookup(fs, key)), SortDeep(Lookup(gs, key)))
  {
    hide SortDeep, Fill, Sort, Keys, Lookup, SameMembers, DistinctKeys, SameText;
    SortedIsFilled(fs);
    SortedIsFilled(gs);
    FillDefined(fs, Sort(Keys(fs)), []);
    FillDefined(gs, Sort(Keys(gs)), []);
    SortedLookup(fs, key);
    SortedLookup(gs, key);
    StaysDefined(Lookup(fs, key));
    StaysDefined(Lookup(gs, key));
    SameLookup(SortDeep(Obj(fs)).fields, SortDeep(Obj(gs)).fields, key);
  }

  /** Two values have the same text exactly when they are structurally equal. */
  lemma {:induction false} CompleteInvariant(v: Json, w: Json)
    requires Proper(v) && Proper(w)
    ensures StableStringify(v) == StableStringify(w) <==> Alike(v, w) && (v == Undefined <==> w == Undefined)
  {
    TextInjective(SortDeep(v), SortDeep(w));
    if Alike(v, w) { AlikeSorts(v, w); }
    if SameText(SortDeep(v), SortDeep(w)) { SortsAlike(v, w); }
  }

  /** The documented promise, "undefined dropped" and nothing else, fails on the key `__proto__`:
      its value never reaches the text, so different objects share one hash. */
  lemma {:induction false} ProtoIsLost(value: Json)
    requires Proper(value)
    ensures StableStringify(Obj([Field(PROTO, value)])) == StableStringify(Obj([]))
  {
    var v := Obj([Field(PROTO, value)]);
    forall key ensures !Shown(v.fields, key) && !Shown([], key) {
      if key != PROTO { LookupAbsent(v.fields, key); }
    }
    CompleteInvariant(v, Obj([]));
  }
}
