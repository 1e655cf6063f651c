/** The printed text of a value, read by the rules of RFC 8259, denotes that value. */
module JsonReading {
  import opened Strings
  import opened Numbers
  import opened StableJson
  import opened JsonText

  // ---------- Reading a quoted string (RFC 8259, section 7) ----------

  function HexDigit(c: char): Option<nat> {
    if '0' <= c <= '9' then Some(c as int - 48)
    else if 'a' <= c <= 'f' then Some(c as int - 87)
    else if 'A' <= c <= 'F' then Some(c as int - 55)
    else None
  }

  /** The character that a backslash and this letter stand for. */
  function ShortEscape(c: char): Option<char> {
    if c == '"' || c == '\\' || c == '/' then Some(c)
    else if c == 'b' then Some('\U{0008}')
    else if c == 'f' then Some('\U{000C}')
    else if c == 'n' then Some('\U{000A}')
    else if c == 'r' then Some('\U{000D}')
    else if c == 't' then Some('\U{0009}')
    else None
  }

  /** The code unit of four hexadecimal digits. */
  function FourDigits(a: char, b: char, c: char, d: char): Option<nat> {
    if HexDigit(a).None? || HexDigit(b).None? || HexDigit(c).None? || HexDigit(d).None? then None
    else Some(((HexDigit(a).value * 16 + HexDigit(b).value) * 16 + HexDigit(c).value) * 16 + HexDigit(d).value)
  }

  /** The first character that the inside of a quoted string stands for, and how much of it that takes. */
  function FirstRead(body: string): Option<(char, nat)>
    requires body != ""
  {
    if body[0] == '"' || body[0] < ' ' then None
    else if body[0] != '\\' then Some((body[0], 1))
    else if |body| >= 2 && ShortEscape(body[1]).Some? then Some((ShortEscape(body[1]).value, 2))
    else if |body| >= 6 && body[1] == 'u' then
      match FourDigits(body[2], body[3], body[4], body[5])
      case Some(code) => if code < 0xD800 then Some((code as char, 6)) else None
      case None => None
    else None
  }

  /** The inside of a quoted string stands for these characters. */
  predicate Reads(body: string, s: string)
    decreases |s|
  {
    if s == "" then body == ""
    else
      && body != "" && FirstRead(body).Some?
      && var (c, n) := FirstRead(body).value;
         c == s[0] && n <= |body| && Reads(body[n..], s[1..])
  }

  function EscapeAll(s: string): string { if s == "" then "" else Escape(s[0]) + EscapeAll(s[1..]) }

  lemma {:induction false} EscapeReads(c: char, rest: string)
    ensures FirstRead(Escape(c) + rest) == Some((c, |Escape(c)|))
  {
    var e := Escape(c);
    var body := e + rest;
    assert forall k :: 0 <= k < |e| ==> body[k] == e[k];
    if c < ' ' && |e| == 6 {
      var n := c as int;
      assert e == "\\u00" + [Hex(n / 16), Hex(n % 16)];
      assert HexDigit(Hex(n / 16)) == Some(n / 16) && HexDigit(Hex(n % 16)) == Some(n % 16);
    }
  }

  /** Only quotes, backslashes and control characters are escaped, with lower-case digits. */
  lemma {:induction false} EscapeShape(c: char)
    ensures |Escape(c)| == 1 <==> c as int >= 32 && c as int != 34 && c as int != 92
    ensures |Escape(c)| == 6 <==> c as int < 32 && c as int !in [8, 9, 10, 12, 13]
    ensures |Escape(c)| in [1, 2, 6]
    ensures forall k :: 0 <= k < |Escape(c)| ==> |Escape(c)| == 6 ==> !('A' <= Escape(c)[k] <= 'F')
  {
  }

  lemma {:induction false} EscapeAllReads(s: string)
    ensures Reads(EscapeAll(s), s) && "\"" + Quoted(s) == "\"" + EscapeAll(s) + "\""
  {
    hide Escape, FirstRead;
    if s == "" {
    } else {
      EscapeAllReads(s[1..]);
      EscapeReads(s[0], EscapeAll(s[1..]));
      assert EscapeAll(s)[|Escape(s[0])|..] == EscapeAll(s[1..]);
      QuotedSplits(s[1..]);
      assert Quoted(s) == Escape(s[0]) + (EscapeAll(s[1..]) + "\"") == EscapeAll(s) + "\"";
    }
  }

  lemma {:induction false} QuotedSplits(s: string)
    ensures Quoted(s) == EscapeAll(s) + "\""
  {
    hide Escape;
    if s == "" {
    } else {
      QuotedSplits(s[1..]);
    }
  }

  // ---------- Reading a value ----------

  /** A numeral without superfluous zeros. */
  predicate IsNumeral(digits: string, n: nat) {
    digits != "" && AllDigits(digits) && (digits[0] == '0' ==> digits == "0") && Value(digits) == n
  }

  ghost predicate IsString(text: string, s: string) {
    exists body {:trigger Reads(body, s)} :: text == "\"" + body + "\"" && Reads(body, s)
  }

  /** The text is this value, without white space; an undefined element reads as null. */
  ghost predicate Denotes(text: string, v: Json)
    decreases v, 0
  {
    match v
    case Undefined => text == "null"
    case Null => text == "null"
    case Bool(b) => text == if b then "true" else "false"
    case Num(n) =>
      if n < 0 then text != "" && text[0] == '-' && IsNumeral(text[1..], -n) else IsNumeral(text, n)
    case Str(s) => IsString(text, s)
    case Arr(items) =>
      exists texts: seq<string> {:trigger Join(texts, ",")} ::
        && text == "[" + Join(texts, ",") + "]" && |texts| == |items|
        && forall i :: 0 <= i < |items| ==> Denotes(texts[i], items[i])
    case Obj(fields) =>
      exists texts: seq<string> {:trigger Join(texts, ",")} ::
        && text == "{" + Join(texts, ",") + "}" && |texts| == |fields|
        && forall i :: 0 <= i < |fields| ==> DenotesMember(texts[i], fields[i])
  }

  ghost predicate DenotesMember(text: string, f: Field)
    decreases f, 1
  {
    exists name, value {:trigger IsString(name, f.key), Denotes(value, f.value)} ::
      text == name + ":" + value && IsString(name, f.key) && Denotes(value, f.value)
  }

  function Texts(items: seq<Json>): (r: seq<string>)
    ensures |r| == |items| && forall i :: 0 <= i < |r| ==> r[i] == Text(items[i])
  {
    if items == [] then [] else [Text(items[0])] + Texts(items[1..])
  }

  function MemberTexts(fields: seq<Field>): (r: seq<string>)
    ensures |r| == |fields| && forall i :: 0 <= i < |r| ==> r[i] == Member(fields[i])
  {
    if fields == [] then [] else [Member(fields[0])] + MemberTexts(fields[1..])
  }

  lemma {:induction false} ElementsJoin(items: seq<Json>)
    ensures Elements(items) == Join(Texts(items), ",") + "]"
  {
    hide Text;
    if items == [] {
    } else if |items| == 1 {
      assert Texts(items) == [Text(items[0])];
    } else {
      ElementsJoin(items[1..]);
      assert Texts(items)[1..] == Texts(items[1..]);
      JoinMore(Texts(items), "]");
    }
  }

  lemma {:induction false} MembersJoin(fields: seq<Field>)
    ensures Members(fields) == Join(MemberTexts(fields), ",") + "}"
  {
    hide Member;
    if fields == [] {
    } else if |fields| == 1 {
      assert MemberTexts(fields) == [Member(fields[0])];
    } else {
      MembersJoin(fields[1..]);
      assert MemberTexts(fields)[1..] == MemberTexts(fields[1..]);
      JoinMore(MemberTexts(fields), "}");
    }
  }

  lemma {:induction false} JoinMore(texts: seq<string>, close: string)
    requires |texts| > 1
    ensures Join(texts, ",") + close == texts[0] + ("," + (Join(texts[1..], ",") + close))
  {
    hide Join;
    JoinStep(texts);
    assert texts[0] + "," + Join(texts[1..], ",") + close == texts[0] + ("," + (Join(texts[1..], ",") + close));
  }

  lemma {:induction false} JoinStep(texts: seq<string>)
    requires |texts| > 1
    ensures Join(texts, ",") == texts[0] + "," + Join(texts[1..], ",")
  {
  }

  lemma {:induction false} NumeralOf(n: nat)
    ensures IsNumeral(Decimal(n), n)
  {
    if n >= 10 {
      NumeralOf(n / 10);
      assert Decimal(n)[0] == Decimal(n / 10)[0];
      ZeroIs();
      assert Decimal(n / 10) != "0";
    }
  }

  lemma {:induction false} ZeroIs()
    ensures Value("0") == 0
  {
    assert "0"[..0] == "";
  }

  /** The printed text of every value denotes it. */
  lemma {:induction false} TextDenotes(v: Json)
    ensures Denotes(Text(v), v)
    decreases v
  {
    hide Join, IsString, DenotesMember, IsNumeral;
    match v
    case Num(n) => NumberDenotes(n);
    case Str(s) => StringDenotes(s);
    case Arr(items) =>
      ElementsJoin(items);
      forall i | 0 <= i < |items| ensures Denotes(Texts(items)[i], items[i]) { TextDenotes(items[i]); }
    case Obj(fields) =>
      MembersJoin(fields);
      forall i | 0 <= i < |fields| ensures DenotesMember(MemberTexts(fields)[i], fields[i]) {
        TextDenotes(fields[i].value);
        MemberSplits(fields[i]);
      }
    case _ =>
  }

  lemma {:induction false} NumberDenotes(n: int)
    ensures Denotes(Text(Num(n)), Num(n))
  {
    if n < 0 {
      NumeralOf(-n);
      assert Text(Num(n))[1..] == Decimal(-n);
    } else {
      NumeralOf(n);
    }
  }

  lemma {:induction false} MemberSplits(f: Field)
    requires Denotes(Text(f.value), f.value)
    ensures DenotesMember(Member(f), f)
  {
    hide Text, Escape, Quoted;
    StringDenotes(f.key);
    var name := "\"" + Quoted(f.key);
    assert Member(f) == name + ":" + Text(f.value);
  }

  lemma {:induction false} StringDenotes(s: string)
    ensures IsString("\"" + Quoted(s), s)
  {
    hide Quoted, Reads;
    EscapeAllReads(s);
  }
}
