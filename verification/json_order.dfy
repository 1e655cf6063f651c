/** In which order the sorted object of packages/ir/src/hash.ts lists its keys, and which keys it has. */
module JsonOrder {
  import opened Strings
  import opened Numbers
  import opened StableJson

  // ---------- Array indices ----------

  /** The decimal numeral of a number below 2^32 - 1. */
  ghost predicate IsArrayIndex(key: string) { exists n: nat :: n < 0xFFFF_FFFF && key == Decimal(n) }

  lemma {:induction false} NoLeadingZero(n: nat)
    ensures Decimal(n)[0] == '0' <==> n == 0
    ensures n == 0 ==> Decimal(n) == "0"
  {
    if n >= 10 { NoLeadingZero(n / 10); }
  }

  lemma {:induction false} ZeroValue(digits: string)
    requires AllDigits(digits) && digits != "" && digits[0] != '0'
    ensures Value(digits) > 0
  {
    if |digits| > 1 { ZeroValue(digits[..|digits| - 1]); }
  }

  /** A numeral without a superfluous zero in front is that of its value. */
  lemma {:induction false} DecimalOfValue(digits: string)
    requires AllDigits(digits) && digits != "" && (digits[0] == '0' ==> |digits| == 1)
    ensures Decimal(Value(digits)) == digits
  {
    var front, last := digits[..|digits| - 1], digits[|digits| - 1];
    assert Digit(DigitValue(last)) == last;
    if |digits| == 1 {
      assert front == "" && Value(front) == 0;
    } else {
      ZeroValue(front);
      DecimalOfValue(front);
      assert Value(digits) / 10 == Value(front) && Value(digits) % 10 == DigitValue(last);
      assert digits == front + [last];
    }
  }

  lemma {:induction false} IndexIs(key: string)
    ensures IsIndex(key) <==> IsArrayIndex(key)
  {
    if IsIndex(key) { DecimalOfValue(key); }
    if IsArrayIndex(key) {
      var n: nat :| n < 0xFFFF_FFFF && key == Decimal(n);
      NoLeadingZero(n);
    }
  }

  lemma {:induction false} SameIndex(a: string, b: string)
    requires IsIndex(a) && IsIndex(b)
    ensures Value(a) == Value(b) ==> a == b
  {
    DecimalOfValue(a);
    DecimalOfValue(b);
  }

  // ---------- The order ----------

  /** Array indices first, by their number; the other keys after them, by code units. */
  ghost predicate InOrder(a: string, b: string) {
    if IsArrayIndex(a) then IsArrayIndex(b) ==> Value(a) < Value(b)
    else !IsArrayIndex(b) && a != b && Leq(a, b)
  }

  ghost predicate AllInOrder(keys: seq<string>) { forall i, j :: 0 <= i < j < |keys| ==> InOrder(keys[i], keys[j]) }

  /** The key is not an index, and comes after those that are none either. */
  ghost predicate Last(keys: seq<string>, key: string) {
    !IsIndex(key) ==> forall k :: k in keys && !IsIndex(k) ==> k != key && Leq(k, key)
  }

  lemma {:induction false} SlotSplits(keys: seq<string>, key: string, k: nat)
    requires AllInOrder(keys) && key !in keys && Last(keys, key) && k < |keys|
    ensures k < Slot(keys, key) ==> InOrder(keys[k], key)
    ensures k >= Slot(keys, key) ==> InOrder(key, keys[k])
  {
    IndexIs(key);
    IndexIs(keys[k]);
    IndexIs(keys[0]);
    assert keys[0] in keys && keys[k] in keys;
    if IsIndex(key) && IsIndex(keys[0]) { SameIndex(key, keys[0]); }
    if IsIndex(key) && (!IsIndex(keys[0]) || Value(key) < Value(keys[0])) {
      if k > 0 { assert InOrder(keys[0], keys[k]); }
    } else if k > 0 {
      TailInOrder(keys, key);
      SlotSplits(keys[1..], key, k - 1);
    }
  }

  lemma {:induction false} TailInOrder(keys: seq<string>, key: string)
    requires AllInOrder(keys) && key !in keys && Last(keys, key) && keys != []
    ensures AllInOrder(keys[1..]) && key !in keys[1..] && Last(keys[1..], key)
  {
    hide InOrder;
  }

  lemma {:induction false} Placed(keys: seq<string>, key: string)
    requires AllInOrder(keys) && key !in keys && Last(keys, key)
    ensures AllInOrder(keys[..Slot(keys, key)] + [key] + keys[Slot(keys, key)..])
  {
    hide InOrder, Slot, Last;
    var s := Slot(keys, key);
    var r := keys[..s] + [key] + keys[s..];
    forall i, j | 0 <= i < j < |r| ensures InOrder(r[i], r[j]) {
      if i == s {
        assert r[j] == keys[j - 1];
        SlotSplits(keys, key, j - 1);
      } else if j == s {
        SlotSplits(keys, key, i);
      } else {
        assert r[i] == keys[if i < s then i else i - 1] && r[j] == keys[if j < s then j else j - 1];
      }
    }
  }

  // ---------- Which keys, and with which values ----------

  /** A key that the sorted object has: one with a value, other than that of the prototype. */
  ghost predicate Kept(fields: seq<Field>, key: string, value: Json) {
    key != "__proto__" && value != Undefined && Field(key, value) in fields
  }

  /** The keys so far are in order, and those that are no indices come before the keys to come. */
  ghost predicate FilledFrom(keys: seq<string>, done: seq<string>) {
    AllInOrder(done) && IsSorted(keys) && Distinct(keys) && forall k :: k in done ==> Precedes(k, keys)
  }

  ghost predicate Precedes(k: string, keys: seq<string>) {
    k !in keys && (!IsIndex(k) ==> forall x :: x in keys ==> Leq(k, x))
  }

  lemma {:induction false} KeysIn(fields: seq<Field>, key: string)
    ensures key in Keys(fields) <==> exists value :: Field(key, value) in fields
  {
    if key in Keys(fields) {
      var i :| 0 <= i < |fields| && Keys(fields)[i] == key;
      assert fields[i] == Field(key, fields[i].value);
      assert Field(key, fields[i].value) in fields;
    }
    if value :| Field(key, value) in fields {
      var i :| 0 <= i < |fields| && fields[i] == Field(key, value);
      assert Keys(fields)[i] == key;
    }
  }

  lemma {:induction false} PutKeys(out: seq<Field>, key: string, value: Json)
    requires key != "__proto__"
    ensures var s := Slot(Keys(out), key);
      Keys(Put(out, key, value)) == Keys(out)[..s] + [key] + Keys(out)[s..]
    ensures forall f :: f in Put(out, key, value) <==> f in out || f == Field(key, value)
  {
    hide Slot, Keys;
    var s := Slot(Keys(out), key);
    KeysPlaced(out, s, Field(key, value));
    assert out == out[..s] + out[s..];
  }

  lemma {:induction false} FirstIsLeast(keys: seq<string>)
    requires keys != [] && IsSorted(keys) && Distinct(keys)
    ensures IsSorted(keys[1..]) && Distinct(keys[1..]) && keys[0] !in keys[1..] && forall x :: x in keys[1..] ==> Leq(keys[0], x)
  {
    hide Leq;
    forall x | x in keys[1..] ensures Leq(keys[0], x) { HeadIsLeast(keys, x); }
  }

  function Inserted(done: seq<string>, key: string): seq<string> { done[..Slot(done, key)] + [key] + done[Slot(done, key)..] }

  lemma {:induction false} FewerToCome(keys: seq<string>, done: seq<string>)
    requires keys != [] && FilledFrom(keys, done)
    ensures FilledFrom(keys[1..], done)
  {
    hide Leq, AllInOrder, IsSorted, Distinct, IsIndex;
    FirstIsLeast(keys);
  }

  lemma {:induction false} OneMoreDone(keys: seq<string>, done: seq<string>)
    requires keys != [] && FilledFrom(keys, done)
    ensures FilledFrom(keys[1..], Inserted(done, keys[0]))
  {
    hide Leq, AllInOrder, IsSorted, Distinct, IsIndex, Slot;
    var key := keys[0];
    FewerToCome(keys, done);
    FirstIsLeast(keys);
    assert key in keys;
    assert key !in done;
    LastOf(keys, done);
    Placed(done, key);
    forall k | k in Inserted(done, key) ensures Precedes(k, keys[1..]) { assert k == key || k in done; }
  }

  lemma {:induction false} LastOf(keys: seq<string>, done: seq<string>)
    requires keys != [] && FilledFrom(keys, done)
    ensures Last(done, keys[0])
  {
    hide Leq, AllInOrder, IsSorted, Distinct, IsIndex;
    var key := keys[0];
    assert key in keys;
    forall k | k in done && !IsIndex(k) ensures k != key && Leq(k, key) { assert Precedes(k, keys); }
  }

  /** One turn of the loop keeps the keys in order. */
  lemma {:induction false} TurnKeepsOrder(keys: seq<string>, out: seq<Field>, value: Json)
    requires keys != [] && FilledFrom(keys, Keys(out))
    ensures FilledFrom(keys[1..], Keys(out)) && FilledFrom(keys[1..], Keys(Put(out, keys[0], value)))
  {
    hide FilledFrom, Slot, Put, Keys;
    FewerToCome(keys, Keys(out));
    if keys[0] == "__proto__" {
      PutProto(out, value);
    } else {
      PutKeys(out, keys[0], value);
      OneMoreDone(keys, Keys(out));
    }
  }

  lemma {:induction false} PutProto(out: seq<Field>, value: Json)
    ensures Put(out, "__proto__", value) == out
  {
  }

  lemma {:induction false} FillInOrder(fields: seq<Field>, keys: seq<string>, out: seq<Field>)
    requires FilledFrom(keys, Keys(out))
    ensures AllInOrder(Keys(Fill(fields, keys, out)))
    decreases |keys|
  {
    hide FilledFrom, AllInOrder, Put, SortDeep, Lookup, Keys;
    if keys == [] {
      OrderOf(Keys(out));
    } else {
      var value := Lookup(fields, keys[0]);
      TurnKeepsOrder(keys, out, SortDeep(value));
      FillInOrder(fields, keys[1..], if value == Undefined then out else Put(out, keys[0], SortDeep(value)));
    }
  }

  lemma {:induction false} OrderOf(done: seq<string>)
    requires FilledFrom([], done)
    ensures AllInOrder(done)
  {
  }

  lemma {:induction false} FillHolds(fields: seq<Field>, keys: seq<string>, out: seq<Field>, f: Field)
    ensures f in Fill(fields, keys, out)
       <==> f in out || (f.key in keys && f.key != "__proto__" && Lookup(fields, f.key) != Undefined && f.value == SortDeep(Lookup(fields, f.key)))
    decreases |keys|
  {
    hide Put, SortDeep, Lookup;
    if keys == [] {
    } else {
      var value := Lookup(fields, keys[0]);
      FillHolds(fields, keys[1..], if value == Undefined then out else Put(out, keys[0], SortDeep(value)), f);
      if keys[0] == "__proto__" { PutProto(out, SortDeep(value)); } else { PutKeys(out, keys[0], SortDeep(value)); }
      assert f.key in keys <==> f.key == keys[0] || f.key in keys[1..];
    }
  }

  lemma {:induction false} LookupIs(fields: seq<Field>, key: string, value: Json)
    requires DistinctKeys(fields) && value != Undefined
    ensures Lookup(fields, key) == value <==> Field(key, value) in fields
  {
    if Field(key, value) in fields {
      var i :| 0 <= i < |fields| && fields[i] == Field(key, value);
      LookupAt(fields, i);
    }
    if Lookup(fields, key) == value {
      var i :| 0 <= i < |fields| && fields[i].key == key && fields[i].value == value;
      assert fields[i] == Field(key, value);
    }
  }

  lemma {:induction false} LookupAt(fields: seq<Field>, i: nat)
    requires DistinctKeys(fields) && i < |fields|
    ensures Lookup(fields, fields[i].key) == fields[i].value
  {
    if i > 0 {
      assert fields[0].key != fields[i].key;
      LookupAt(fields[1..], i - 1);
    }
  }

  lemma {:induction false} KeysDistinct(fields: seq<Field>)
    requires DistinctKeys(fields)
    ensures Distinct(Sort(Keys(fields))) && forall key :: key in Sort(Keys(fields)) <==> key in Keys(fields)
  {
    DistinctBag(Keys(fields), Sort(Keys(fields)));
    forall key ensures key in Sort(Keys(fields)) <==> key in Keys(fields) {
      assert key in Sort(Keys(fields)) <==> key in multiset(Sort(Keys(fields)));
    }
  }

  lemma {:induction false} NothingDone(keys: seq<string>)
    requires IsSorted(keys) && Distinct(keys)
    ensures FilledFrom(keys, Keys([]))
  {
  }

  /** The sorted object lists its array-index keys first, by number, and then the others, by code units. */
  lemma {:induction false} KeysInOrder(fields: seq<Field>)
    requires DistinctKeys(fields)
    ensures var sorted := SortDeep(Obj(fields)); sorted.Obj? && AllInOrder(Keys(sorted.fields))
  {
    hide Fill, InOrder, Keys;
    KeysDistinct(fields);
    NothingDone(Sort(Keys(fields)));
    FillInOrder(fields, Sort(Keys(fields)), []);
  }

  /** It has exactly the keys with a value, the prototype's aside, each with its sorted value. */
  lemma {:induction false} FieldsKept(fields: seq<Field>, f: Field)
    requires DistinctKeys(fields)
    ensures f in SortDeep(Obj(fields)).fields <==> exists value :: Kept(fields, f.key, value) && f.value == SortDeep(value)
  {
    hide Fill, Lookup, DistinctKeys;
    var keys := Sort(Keys(fields));
    KeysDistinct(fields);
    FillHolds(fields, keys, [], f);
    KeysIn(fields, f.key);
    var found := Lookup(fields, f.key);
    if found != Undefined { LookupIs(fields, f.key, found); }
    if value :| Kept(fields, f.key, value) && f.value == SortDeep(value) { LookupIs(fields, f.key, value); }
    if f in SortDeep(Obj(fields)).fields { assert Kept(fields, f.key, found); }
  }
}
