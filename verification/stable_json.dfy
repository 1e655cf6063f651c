/** Canonical JSON of packages/ir/src/hash.ts: `stableStringify` and `sortDeep`. */
module StableJson {
  import opened Strings
  import opened Numbers

  // ---------- Values ----------

  /** A JSON-like value; an object is the list of its own properties in enumeration order. */
  datatype Json =
    | Undefined
    | Null
    | Bool(b: bool)
    | Num(n: int)
    | Str(s: string)
    | Arr(items: seq<Json>)
    | Obj(fields: seq<Field>)

  datatype Field = Field(key: string, value: Json)

  function Keys(fields: seq<Field>): (r: seq<string>)
    ensures |r| == |fields| && forall i :: 0 <= i < |r| ==> r[i] == fields[i].key
  {
    if fields == [] then [] else [fields[0].key] + Keys(fields[1..])
  }

  ghost predicate DistinctKeys(fields: seq<Field>) {
    forall i, j :: 0 <= i < j < |fields| ==> fields[i].key != fields[j].key
  }

  /** No object of the tree has one key twice. */
  ghost predicate Proper(v: Json) {
    match v
    case Arr(items) => forall i :: 0 <= i < |items| ==> Proper(items[i])
    case Obj(fields) => DistinctKeys(fields) && forall i :: 0 <= i < |fields| ==> Proper(fields[i].value)
    case _ => true
  }

  // ---------- Filling an object ----------

  /** Array-index keys, which a JavaScript object enumerates first and in ascending order. */
  predicate IsIndex(key: string) {
    && key != "" && AllDigits(key)
    && (key[0] == '0' ==> |key| == 1)
    && Value(key) < 4294967295
  }

  /** Where a new own property goes in the enumeration order. */
  function Slot(keys: seq<string>, key: string): (i: nat)
    ensures i <= |keys|
  {
    if keys == [] then 0
    else if IsIndex(key) && (!IsIndex(keys[0]) || Value(key) < Value(keys[0])) then 0
    else 1 + Slot(keys[1..], key)
  }

  const PROTO := "__proto__"

  /** `out[key] = value` for a key not yet there. Assigning to `__proto__` sets the prototype of the
      object, not a property of it. */
  function Put(out: seq<Field>, key: string, value: Json): seq<Field> {
    if key == PROTO then out
    else
      var i := Slot(Keys(out), key);
      out[..i] + [Field(key, value)] + out[i..]
  }

  /** `src[key]`: undefined when there is no such property. */
  function Lookup(fields: seq<Field>, key: string): (v: Json)
    ensures v == Undefined || exists i :: 0 <= i < |fields| && fields[i].key == key && fields[i].value == v
  {
    if fields == [] then Undefined
    else if fields[0].key == key then fields[0].value
    else Lookup(fields[1..], key)
  }

  // ---------- sortDeep ----------

  function SortDeep(v: Json): Json
    decreases v, 0
  {
    match v
    case Arr(items) => Arr(SortAll(items))
    case Obj(fields) => Obj(Fill(fields, Sort(Keys(fields)), []))
    case _ => v
  }

  function SortAll(items: seq<Json>): (r: seq<Json>)
    ensures |r| == |items| && forall i :: 0 <= i < |r| ==> r[i] == SortDeep(items[i])
    decreases items, 0
  {
    if items == [] then [] else [SortDeep(items[0])] + SortAll(items[1..])
  }

  /** The loop over the sorted keys; keys whose value is undefined are skipped. */
  function Fill(fields: seq<Field>, keys: seq<string>, out: seq<Field>): seq<Field>
    decreases fields, |keys|
  {
    if keys == [] then out
    else
      var value := Lookup(fields, keys[0]);
      if value == Undefined then Fill(fields, keys[1..], out)
      else Fill(fields, keys[1..], Put(out, keys[0], SortDeep(value)))
  }

  /** The source's loop that fills the sorted object key by key. */
  method SortObject(fields: seq<Field>) returns (out: seq<Field>)
    ensures Obj(out) == SortDeep(Obj(fields))
  {
    var keys := Sort(Keys(fields));
    out := [];
    for i := 0 to |keys|
      invariant Fill(fields, keys[i..], out) == Fill(fields, keys, [])
    {
      var value := Lookup(fields, keys[i]);
      assert keys[i..][1..] == keys[i + 1..];
      if value == Undefined { continue; }
      out := Put(out, keys[i], SortDeep(value));
    }
  }

  // ---------- Enumeration order ----------

  predicate Before(a: string, b: string) {
    if IsIndex(a) then IsIndex(b) ==> Value(a) <= Value(b) else !IsIndex(b)
  }

  /** Array indices first, ascending; the other keys after them. */
  predicate Enumerated(keys: seq<string>) {
    |keys| <= 1 || (Before(keys[0], keys[1]) && Enumerated(keys[1..]))
  }

  lemma {:induction false} SlotEnumerates(keys: seq<string>, key: string)
    requires Enumerated(keys)
    ensures Enumerated(keys[..Slot(keys, key)] + [key] + keys[Slot(keys, key)..])
  {
    var i := Slot(keys, key);
    if i == 0 {
      InsertHead(keys, key);
    } else {
      SlotEnumerates(keys[1..], key);
      InsertTail(keys, i, key);
      var rest := keys[1..][..i - 1] + [key] + keys[1..][i - 1..];
      assert rest[0] == if i == 1 then key else keys[1];
    }
  }

  lemma {:induction false} KeysPlaced(out: seq<Field>, i: nat, f: Field)
    requires i <= |out|
    ensures Keys(out[..i] + [f] + out[i..]) == Keys(out)[..i] + [f.key] + Keys(out)[i..]
  {
    if i == 0 {
      InsertHead(out, f);
      InsertHead(Keys(out), f.key);
    } else {
      KeysPlaced(out[1..], i - 1, f);
      InsertTail(out, i, f);
      InsertTail(Keys(out), i, f.key);
    }
  }

  lemma {:induction false} PutEnumerates(out: seq<Field>, key: string, value: Json)
    requires Enumerated(Keys(out))
    ensures Enumerated(Keys(Put(out, key, value)))
  {
    hide Enumerated, Keys, Slot;
    if key == PROTO {
    } else {
      var i := Slot(Keys(out), key);
      SlotEnumerates(Keys(out), key);
      KeysPlaced(out, i, Field(key, value));
    }
  }

  /** Own properties of the sorted object are listed in the order a JavaScript object lists them. */
  lemma {:induction false} FillEnumerates(fields: seq<Field>, keys: seq<string>, out: seq<Field>)
    requires Enumerated(Keys(out))
    ensures Enumerated(Keys(Fill(fields, keys, out)))
    decreases |keys|
  {
    hide Enumerated, Keys, Put, Lookup, SortDeep;
    if keys == [] {
    } else {
      var value := Lookup(fields, keys[0]);
      if value == Undefined {
        FillEnumerates(fields, keys[1..], out);
      } else {
        PutEnumerates(out, keys[0], SortDeep(value));
        FillEnumerates(fields, keys[1..], Put(out, keys[0], SortDeep(value)));
      }
    }
  }
}
