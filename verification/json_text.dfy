/** `JSON.stringify` on the values of StableJson, and why its text determines the value. */
module JsonText {
  import opened Numbers
  import opened StableJson

  // ---------- Printing ----------

  function Hex(d: nat): char
    requires d < 16
  {
    if d < 10 then '0' + d as char else 'a' + (d - 10) as char
  }

  /** One character inside a quoted string (RFC 8259, section 7, as ECMAScript writes it). */
  function Escape(c: char): (s: string)
    ensures s != "" && s[0] != '"'
  {
    if c == '"' then "\\\""
    else if c == '\\' then "\\\\"
    else if c == '\U{0008}' then "\\b"
    else if c == '\t' then "\\t"
    else if c == '\n' then "\\n"
    else if c == '\U{000C}' then "\\f"
    else if c == '\r' then "\\r"
    else if c < ' ' then "\\u00" + [Hex(c as int / 16), Hex(c as int % 16)]
    else [c]
  }

  /** The rest of a quoted string, closing quote included. */
  function Quoted(s: string): string {
    if s == "" then "\"" else Escape(s[0]) + Quoted(s[1..])
  }

  /** Undefined array elements are printed as null. */
  function Text(v: Json): string
    decreases v, 0
  {
    match v
    case Undefined => "null"
    case Null => "null"
    case Bool(b) => if b then "true" else "false"
    case Num(n) => if n < 0 then "-" + Decimal(-n) else Decimal(n)
    case Str(s) => "\"" + Quoted(s)
    case Arr(items) => "[" + Elements(items)
    case Obj(fields) => "{" + Members(fields)
  }

  function Elements(items: seq<Json>): string
    decreases items, 0
  {
    if items == [] then "]"
    else if |items| == 1 then Text(items[0]) + "]"
    else Text(items[0]) + ("," + Elements(items[1..]))
  }

  function Member(f: Field): string
    decreases f, 1
  {
    "\"" + Quoted(f.key) + (":" + Text(f.value))
  }

  function Members(fields: seq<Field>): string
    decreases fields, 0
  {
    if fields == [] then "}"
    else if |fields| == 1 then Member(fields[0]) + "}"
    else Member(fields[0]) + ("," + Members(fields[1..]))
  }

  /** Equal but for undefined against null. */
  predicate SameText(v: Json, w: Json)
    decreases v, 0
  {
    match v
    case Undefined => w.Undefined? || w.Null?
    case Null => w.Undefined? || w.Null?
    case Arr(items) => w.Arr? && SameElements(items, w.items)
    case Obj(fields) => w.Obj? && SameMembers(fields, w.fields)
    case _ => v == w
  }

  predicate SameElements(vs: seq<Json>, ws: seq<Json>)
    decreases vs, 0
  {
    |vs| == |ws| && (vs == [] || (SameText(vs[0], ws[0]) && SameElements(vs[1..], ws[1..])))
  }

  predicate SameMembers(fs: seq<Field>, gs: seq<Field>)
    decreases fs, 0
  {
    |fs| == |gs|
    && (fs == [] || (fs[0].key == gs[0].key && SameText(fs[0].value, gs[0].value) && SameMembers(fs[1..], gs[1..])))
  }

  // ---------- Cancelling ----------

  lemma {:induction false} Cancel(a: string, b: string, x: string, y: string)
    requires a + x == b + y && |a| == |b|
    ensures a == b && x == y
  {
    assert a == (a + x)[..|a|] && b == (b + y)[..|b|];
    assert x == (a + x)[|a|..] && y == (b + y)[|b|..];
  }

  lemma {:induction false} FirstChar(a: string, x: string, s: string)
    requires a != "" && a + x == s
    ensures s != "" && s[0] == a[0]
  {
  }

  lemma {:induction false} Regroup(a: string, b: string, x: string)
    ensures a + b + x == a + (b + x)
  {
  }

  // ---------- Strings and numbers are self-delimiting ----------

  lemma {:induction false} HexInjective(d: nat, e: nat)
    requires d < 16 && e < 16 && Hex(d) == Hex(e)
    ensures d == e
  {
  }

  predicate Long(c: char) {
    c < ' ' && c != '\U{0008}' && c != '\t' && c != '\n' && c != '\U{000C}' && c != '\r'
  }

  lemma {:induction false} EscapeLength(c: char)
    ensures |Escape(c)| == if Long(c) then 6 else if Escape(c)[0] == '\\' then 2 else 1
    ensures Escape(c)[0] == '\\' ==> |Escape(c)| >= 2 && (Long(c) <==> Escape(c)[1] == 'u')
  {
  }

  lemma {:induction false} EscapeInjective(c: char, d: char)
    requires Escape(c) == Escape(d)
    ensures c == d
  {
    EscapeLength(c);
    EscapeLength(d);
    if Long(c) {
      assert Escape(c)[4] == Hex(c as int / 16) && Escape(c)[5] == Hex(c as int % 16);
      assert Escape(d)[4] == Hex(d as int / 16) && Escape(d)[5] == Hex(d as int % 16);
      HexInjective(c as int / 16, d as int / 16);
      HexInjective(c as int % 16, d as int % 16);
    }
  }

  lemma {:induction false} EscapeCancels(c: char, d: char, x: string, y: string)
    requires Escape(c) + x == Escape(d) + y
    ensures c == d && x == y
  {
    EscapeLength(c);
    EscapeLength(d);
    var s := Escape(c) + x;
    assert s[0] == Escape(c)[0] == Escape(d)[0];
    if s[0] == '\\' {
      assert s[1] == Escape(c)[1] == Escape(d)[1];
    }
    Cancel(Escape(c), Escape(d), x, y);
    EscapeInjective(c, d);
  }

  lemma {:induction false} QuotedCancels(s: string, t: string, x: string, y: string)
    requires Quoted(s) + x == Quoted(t) + y
    ensures s == t && x == y
  {
    assert (Quoted(s) + x)[0] == Quoted(s)[0] && (Quoted(t) + y)[0] == Quoted(t)[0];
    if s == "" && t == "" {
      Cancel("\"", "\"", x, y);
    } else if s != "" && t != "" {
      Regroup(Escape(s[0]), Quoted(s[1..]), x);
      Regroup(Escape(t[0]), Quoted(t[1..]), y);
      EscapeCancels(s[0], t[0], Quoted(s[1..]) + x, Quoted(t[1..]) + y);
      QuotedCancels(s[1..], t[1..], x, y);
      assert s == [s[0]] + s[1..] && t == [t[0]] + t[1..];
    }
  }

  /** The text that follows a number does not continue it. */
  predicate Stops(x: string) { x != "" ==> !IsDigit(x[0]) }

  lemma {:induction false} DigitsCancel(a: string, b: string, x: string, y: string)
    requires a + x == b + y && Stops(x) && Stops(y)
    requires AllDigits(a) && AllDigits(b)
    ensures a == b && x == y
  {
    if a != "" && b != "" {
      assert a[0] == (a + x)[0] == (b + y)[0] == b[0];
      assert (a + x)[1..] == a[1..] + x && (b + y)[1..] == b[1..] + y;
      DigitsCancel(a[1..], b[1..], x, y);
      assert a == [a[0]] + a[1..] && b == [b[0]] + b[1..];
    } else {
      assert "" + x == x && "" + y == y;
      assert a == "" && b == "";
    }
  }

  lemma {:induction false} NumberCancels(n: int, m: int, x: string, y: string)
    requires Text(Num(n)) + x == Text(Num(m)) + y && Stops(x) && Stops(y)
    ensures n == m && x == y
  {
    var s := Text(Num(n)) + x;
    assert s[0] == Text(Num(n))[0] == Text(Num(m))[0];
    if n < 0 {
      assert m < 0;
      Regroup("-", Decimal(-n), x);
      Regroup("-", Decimal(-m), y);
      Cancel("-", "-", Decimal(-n) + x, Decimal(-m) + y);
      DigitsCancel(Decimal(-n), Decimal(-m), x, y);
    } else {
      assert m >= 0;
      DigitsCancel(Decimal(n), Decimal(m), x, y);
    }
  }

  // ---------- The text determines the value ----------

  function Lead(v: Json): char {
    match v
    case Undefined => 'n'
    case Null => 'n'
    case Bool(b) => if b then 't' else 'f'
    case Num(n) => if n < 0 then '-' else Decimal(n)[0]
    case Str(_) => '"'
    case Arr(_) => '['
    case Obj(_) => '{'
  }

  lemma {:induction false} TextLead(v: Json)
    ensures Text(v) != "" && Text(v)[0] == Lead(v)
  {
  }

  lemma {:induction false} LeadSeparates(v: Json, w: Json)
    requires Lead(v) == Lead(w)
    ensures Lead(v) != ']' && Lead(v) != '}'
    ensures v.Bool? || w.Bool? ==> v == w
    ensures v.Undefined? || v.Null? <==> w.Undefined? || w.Null?
    ensures (v.Num? <==> w.Num?) && (v.Str? <==> w.Str?) && (v.Arr? <==> w.Arr?) && (v.Obj? <==> w.Obj?)
  {
  }

  lemma {:induction false} TextCancels(v: Json, w: Json, x: string, y: string)
    requires Text(v) + x == Text(w) + y && Stops(x) && Stops(y)
    ensures SameText(v, w) && x == y
    decreases v, 1
  {
    TextLead(v);
    TextLead(w);
    FirstChar(Text(v), x, Text(v) + x);
    FirstChar(Text(w), y, Text(v) + x);
    LeadSeparates(v, w);
    match v
    case Undefined => Cancel("null", "null", x, y);
    case Null => Cancel("null", "null", x, y);
    case Bool(b) => Cancel(Text(v), Text(v), x, y);
    case Num(n) => NumberCancels(n, w.n, x, y);
    case Str(s) =>
      Regroup("\"", Quoted(s), x);
      Regroup("\"", Quoted(w.s), y);
      Cancel("\"", "\"", Quoted(s) + x, Quoted(w.s) + y);
      QuotedCancels(s, w.s, x, y);
    case Arr(items) =>
      Regroup("[", Elements(items), x);
      Regroup("[", Elements(w.items), y);
      Cancel("[", "[", Elements(items) + x, Elements(w.items) + y);
      ElementsCancel(items, w.items, x, y);
    case Obj(fields) =>
      Regroup("{", Members(fields), x);
      Regroup("{", Members(w.fields), y);
      Cancel("{", "{", Members(fields) + x, Members(w.fields) + y);
      MembersCancel(fields, w.fields, x, y);
  }

  /** What follows an element: the closing bracket, or a comma and the rest. */
  function AfterElement(items: seq<Json>): string
    requires items != []
  {
    if |items| == 1 then "]" else "," + Elements(items[1..])
  }

  lemma {:induction false} ElementsHead(items: seq<Json>, x: string)
    requires items != []
    ensures Elements(items) + x == Text(items[0]) + (AfterElement(items) + x)
    ensures Elements(items) + x != "" && (Elements(items) + x)[0] != ']'
  {
    Regroup(Text(items[0]), AfterElement(items), x);
    TextLead(items[0]);
    LeadSeparates(items[0], items[0]);
  }

  lemma {:induction false} ElementsCancel(vs: seq<Json>, ws: seq<Json>, x: string, y: string)
    requires Elements(vs) + x == Elements(ws) + y
    ensures SameElements(vs, ws) && x == y
    decreases vs, 0
  {
    if vs != [] { ElementsHead(vs, x); }
    if ws != [] { ElementsHead(ws, y); }
    if vs == [] || ws == [] {
      assert ("]" + x)[0] == ']' && ("]" + y)[0] == ']';
      assert vs == [] && ws == [];
      Cancel("]", "]", x, y);
    } else {
      var x', y' := AfterElement(vs) + x, AfterElement(ws) + y;
      TextCancels(vs[0], ws[0], x', y');
      AfterElementCancels(vs, ws, x, y);
      if |vs| > 1 { ElementsCancel(vs[1..], ws[1..], x, y); }
    }
  }

  lemma {:induction false} AfterElementCancels(vs: seq<Json>, ws: seq<Json>, x: string, y: string)
    requires vs != [] && ws != [] && AfterElement(vs) + x == AfterElement(ws) + y
    ensures |vs| == 1 <==> |ws| == 1
    ensures if |vs| == 1 then x == y else Elements(vs[1..]) + x == Elements(ws[1..]) + y
  {
    assert (AfterElement(vs) + x)[0] == AfterElement(vs)[0];
    assert (AfterElement(ws) + y)[0] == AfterElement(ws)[0];
    if |vs| == 1 {
      Cancel("]", "]", x, y);
    } else {
      Regroup(",", Elements(vs[1..]), x);
      Regroup(",", Elements(ws[1..]), y);
      Cancel(",", ",", Elements(vs[1..]) + x, Elements(ws[1..]) + y);
    }
  }

  function AfterMember(fields: seq<Field>): string
    requires fields != []
  {
    if |fields| == 1 then "}" else "," + Members(fields[1..])
  }

  lemma {:induction false} MembersHead(fields: seq<Field>, x: string)
    requires fields != []
    ensures Members(fields) + x
         == "\"" + (Quoted(fields[0].key) + (":" + (Text(fields[0].value) + (AfterMember(fields) + x))))
    ensures Members(fields) + x != "" && (Members(fields) + x)[0] == '"'
  {
    var key, value, rest := Quoted(fields[0].key), Text(fields[0].value), AfterMember(fields);
    assert Members(fields) == "\"" + key + (":" + value) + rest;
    Regroup("\"" + key + (":" + value), rest, x);
    Regroup("\"" + key, ":" + value, rest + x);
    Regroup("\"", key, ":" + value + (rest + x));
    Regroup(":", value, rest + x);
  }

  lemma {:induction false} MembersCancel(fs: seq<Field>, gs: seq<Field>, x: string, y: string)
    requires Members(fs) + x == Members(gs) + y
    ensures SameMembers(fs, gs) && x == y
    decreases fs, 0
  {
    if fs != [] { MembersHead(fs, x); }
    if gs != [] { MembersHead(gs, y); }
    if fs == [] || gs == [] {
      assert ("}" + x)[0] == '}' && ("}" + y)[0] == '}';
      assert fs == [] && gs == [];
      Cancel("}", "}", x, y);
    } else {
      var x', y' := AfterMember(fs) + x, AfterMember(gs) + y;
      KeyCancels(fs[0], gs[0], x', y');
      TextCancels(fs[0].value, gs[0].value, x', y');
      AfterMemberCancels(fs, gs, x, y);
      if |fs| > 1 { MembersCancel(fs[1..], gs[1..], x, y); }
    }
  }

  lemma {:induction false} KeyCancels(f: Field, g: Field, x: string, y: string)
    requires "\"" + (Quoted(f.key) + (":" + (Text(f.value) + x))) == "\"" + (Quoted(g.key) + (":" + (Text(g.value) + y)))
    ensures f.key == g.key && Text(f.value) + x == Text(g.value) + y
  {
    var u, v := Text(f.value) + x, Text(g.value) + y;
    Cancel("\"", "\"", Quoted(f.key) + (":" + u), Quoted(g.key) + (":" + v));
    QuotedCancels(f.key, g.key, ":" + u, ":" + v);
    Cancel(":", ":", u, v);
  }

  lemma {:induction false} AfterMemberCancels(fs: seq<Field>, gs: seq<Field>, x: string, y: string)
    requires fs != [] && gs != [] && AfterMember(fs) + x == AfterMember(gs) + y
    ensures |fs| == 1 <==> |gs| == 1
    ensures if |fs| == 1 then x == y else Members(fs[1..]) + x == Members(gs[1..]) + y
  {
    assert (AfterMember(fs) + x)[0] == AfterMember(fs)[0];
    assert (AfterMember(gs) + y)[0] == AfterMember(gs)[0];
    if |fs| == 1 {
      Cancel("}", "}", x, y);
    } else {
      Regroup(",", Members(fs[1..]), x);
      Regroup(",", Members(gs[1..]), y);
      Cancel(",", ",", Members(fs[1..]) + x, Members(gs[1..]) + y);
    }
  }

  // ---------- And the value determines the text ----------

  lemma {:induction false} SameTextPrints(v: Json, w: Json)
    requires SameText(v, w)
    ensures Text(v) == Text(w)
    decreases v, 0
  {
    match v
    case Arr(items) => SameElementsPrint(items, w.items);
    case Obj(fields) => SameMembersPrint(fields, w.fields);
    case _ =>
  }

  lemma {:induction false} SameElementsPrint(vs: seq<Json>, ws: seq<Json>)
    requires SameElements(vs, ws)
    ensures Elements(vs) == Elements(ws)
    decreases vs, 0
  {
    if vs == [] {
    } else {
      SameTextPrints(vs[0], ws[0]);
      SameElementsPrint(vs[1..], ws[1..]);
    }
  }

  lemma {:induction false} SameMembersPrint(fs: seq<Field>, gs: seq<Field>)
    requires SameMembers(fs, gs)
    ensures Members(fs) == Members(gs)
    decreases fs, 0
  {
    if fs == [] {
    } else {
      SameTextPrints(fs[0].value, gs[0].value);
      SameMembersPrint(fs[1..], gs[1..]);
    }
  }

  /** Two values print alike exactly when they are equal, undefined elements counting as null. */
  lemma {:induction false} TextInjective(v: Json, w: Json)
    ensures Text(v) == Text(w) <==> SameText(v, w)
  {
    if SameText(v, w) { SameTextPrints(v, w); }
    if Text(v) == Text(w) {
      TextCancels(v, w, "", "");
    }
  }
}
