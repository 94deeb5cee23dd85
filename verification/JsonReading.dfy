/** What the parser makes of texts put together the way the printers do: atoms, arrays and objects. */
module JsonReading {
  import opened Js
  import opened CanonicalJson

  // ----- Atoms -----

  lemma {:induction false} ParsePrintNat(n: nat, t: string)
    ensures ParseDigits(PrintNat(n) + t, 0) == ParseDigits(t, n)
  {
    if n < 10 {
      assert (PrintNat(n) + t)[1..] == t;
    } else {
      var d := [Digit(n % 10)];
      assert PrintNat(n) + t == PrintNat(n / 10) + (d + t);
      ParsePrintNat(n / 10, d + t);
      assert (d + t)[1..] == t;
    }
  }

  ghost predicate Delimited(t: string) {
    t == "" || t[0] == ',' || t[0] == ']' || t[0] == '}'
  }

  lemma ParseDecimal(n: int, t: string)
    requires Delimited(t)
    ensures ParseInt(Decimal(n) + t) == Got(n, t)
    ensures Decimal(n)[0] == '-' || IsDigit(Decimal(n)[0])
  {
    var m := if n < 0 then -n else n;
    var p := PrintNat(m) + t;
    ParsePrintNat(m, t);
    assert p[0] == PrintNat(m)[0];
    if n < 0 {
      assert (Decimal(n) + t)[1..] == p;
    } else {
      assert ParseDigits(p, 0) == ParseDigits(p[1..], p[0] as int - '0' as int);
    }
  }

  lemma ParseEscape(c: char, t: string)
    ensures Escape(c) != "" && Escape(c)[0] != '\"'
    ensures ParseChar(Escape(c) + t) == Got(c, t)
  {
    var e := Escape(c);
    assert (e + t)[|e|..] == t;
    if |e| == 2 { assert (e + t)[1] == e[1]; }
    if |e| == 6 {
      assert (e + t)[1] == e[1] && (e + t)[2] == e[2] && (e + t)[3] == e[3] && (e + t)[4] == e[4] && (e + t)[5] == e[5];
      assert HexValue(e[4]) == Some(c as int / 16) && HexValue(e[5]) == Some(c as int % 16);
    }
  }

  lemma ParseMoreChars(c: char, tail: string, cs: string, rest: string)
    requires ParseString(tail) == Got(cs, rest)
    ensures ParseString(Escape(c) + tail) == Got([c] + cs, rest)
  {
    ParseEscape(c, tail);
    assert (Escape(c) + tail)[0] == Escape(c)[0];
  }

  lemma EscapedText(s: string, t: string)
    requires s != ""
    ensures EscapeAll(s) + "\"" + t == Escape(s[0]) + (EscapeAll(s[1..]) + "\"" + t)
  {
  }

  lemma {:induction false} ParseQuoted(s: string, t: string)
    ensures ParseString(EscapeAll(s) + "\"" + t) == Got(s, t)
  {
    if s == "" {
      assert EscapeAll(s) + "\"" + t == "\"" + t;
    } else {
      EscapedText(s, t);
      ParseQuoted(s[1..], t);
      ParseMoreChars(s[0], EscapeAll(s[1..]) + "\"" + t, s[1..], t);
      assert s == [s[0]] + s[1..];
    }
  }

  lemma QuotedText(body: string, t: string)
    ensures (("\"" + body + "\"") + t)[1..] == body + "\"" + t
  {
  }

  lemma ParseQuote(s: string, t: string)
    ensures Quote(s)[0] == '\"'
    ensures ParseString((Quote(s) + t)[1..]) == Got(s, t)
  {
    ParseQuoted(s, t);
    QuotedText(EscapeAll(s), t);
  }

  // ----- Values -----

  /** The text is read back as v, whatever delimiter follows. */
  ghost predicate Reads(text: string, v: Json) {
    forall t | Delimited(t) :: ParseValue(text + t) == Got(v, t)
  }

  lemma AtomReads(v: Json)
    requires !v.Arr? && !v.Obj?
    ensures Reads(Print(v), v)
  {
    forall t | Delimited(t) ensures ParseValue(Print(v) + t) == Got(v, t) {
      if v.Num? {
        ParseDecimal(v.n, t);
      } else if v.Str? {
        ParseQuote(v.s, t);
      } else {
        assert (Print(v) + t)[|Print(v)|..] == t;
      }
    }
  }

  // ----- Arrays -----

  /** An array item: an empty text stands for undefined. */
  ghost predicate ItemReads(text: string, v: Json) {
    if text == "" then v == Undefined else v != Undefined && Reads(text, v) && text[0] != ',' && text[0] != ']'
  }

  lemma ItemHead(text: string, v: Json, tail: string)
    requires ItemReads(text, v) && tail != "" && (tail[0] == ',' || tail[0] == ']')
    ensures var s := text + tail;
            s != "" && (if s[0] == ',' || s[0] == ']' then Got(Undefined, s) else ParseValue(s)) == Got(v, tail)
  {
    if text == "" {
      assert text + tail == tail;
    } else {
      assert (text + tail)[0] == text[0] && Delimited(tail);
      assert ParseValue(text + tail) == Got(v, tail);
    }
  }

  lemma LastItem(text: string, v: Json, t: string)
    requires ItemReads(text, v)
    ensures ParseItems(text + ("]" + t)) == Got([v], t)
  {
    var tail := "]" + t;
    ItemHead(text, v, tail);
    assert tail[1..] == t;
  }

  lemma MoreItems(text: string, v: Json, rest: string, xs: seq<Json>, t: string)
    requires ItemReads(text, v) && ParseItems(rest) == Got(xs, t)
    ensures ParseItems(text + ("," + rest)) == Got([v] + xs, t)
  {
    var tail := "," + rest;
    ItemHead(text, v, tail);
    assert tail[1..] == rest;
  }

  lemma Regroup(a: string, b: string, close: string, t: string)
    ensures (a + "," + b) + close + t == a + ("," + (b + close + t))
  {
  }

  lemma {:induction false} JoinedItems(texts: seq<string>, vs: seq<Json>, t: string)
    requires texts != [] && |texts| == |vs|
    requires forall i :: 0 <= i < |vs| ==> ItemReads(texts[i], vs[i])
    ensures ParseItems(JoinTexts(texts) + "]" + t) == Got(vs, t)
  {
    if |texts| == 1 {
      LastItem(texts[0], vs[0], t);
      assert JoinTexts(texts) + "]" + t == texts[0] + ("]" + t);
      assert vs == [vs[0]];
    } else {
      Regroup(texts[0], JoinTexts(texts[1..]), "]", t);
      JoinedItems(texts[1..], vs[1..], t);
      MoreItems(texts[0], vs[0], JoinTexts(texts[1..]) + "]" + t, vs[1..], t);
      assert vs == [vs[0]] + vs[1..];
    }
  }

  lemma Bracketed(body: string, t: string)
    ensures ParseValue("[" + body + "]" + t) ==
            if body == "" then Got(Arr([]), t)
            else if body[0] == ']' then Got(Arr([]), (body + "]" + t)[1..])
            else match ParseItems(body + "]" + t) case Fail => Fail case Got(xs, rest) => Got(Arr(xs), rest)
  {
    var s := "[" + body + "]" + t;
    assert s[1..] == body + "]" + t;
    assert body != "" ==> s[1] == body[0];
    assert s[2..] == s[1..][1..];
    assert body == "" ==> s[2..] == t;
  }

  lemma JoinStart(texts: seq<string>)
    requires texts != []
    ensures JoinTexts(texts) == "" <==> texts == [""]
    ensures texts != [""] ==> JoinTexts(texts)[0] == if texts[0] == "" then ',' else texts[0][0]
  {
  }

  /** A bracketed list of item texts reads as the array of its values, except that a lone empty text
      reads as the empty array. */
  lemma ArrayReads(texts: seq<string>, vs: seq<Json>)
    requires |texts| == |vs| && forall i :: 0 <= i < |vs| ==> ItemReads(texts[i], vs[i])
    ensures Reads("[" + JoinTexts(texts) + "]", Arr(Dense(vs)))
  {
    forall t | Delimited(t) ensures ParseValue("[" + JoinTexts(texts) + "]" + t) == Got(Arr(Dense(vs)), t) {
      Bracketed(JoinTexts(texts), t);
      if texts == [""] {
        assert vs == [vs[0]] && ItemReads(texts[0], vs[0]);
      } else if texts != [] {
        JoinStart(texts);
        JoinedItems(texts, vs, t);
        assert ItemReads(texts[0], vs[0]);
      }
    }
  }

  // ----- Objects -----

  lemma KeyReads(k: string, afterKey: string, s: string)
    requires s == Quote(k) + afterKey
    ensures s != "" && s[0] == '\"' && ParseString(s[1..]) == Got(k, afterKey)
  {
    ParseQuote(k, afterKey);
    assert s[0] == Quote(k)[0];
  }

  lemma FieldText(k: string, text: string, tail: string)
    ensures PrintField(Field(k, text)) + tail == Quote(k) + (":" + (text + tail))
  {
  }

  lemma FieldHead(k: string, text: string, v: Json, tail: string)
    requires Reads(text, v) && tail != "" && (tail[0] == ',' || tail[0] == '}')
    ensures var s := PrintField(Field(k, text)) + tail;
            && s != "" && s[0] == '\"'
            && ParseString(s[1..]) == Got(k, ":" + (text + tail))
            && ParseValue((":" + (text + tail))[1..]) == Got(v, tail)
  {
    assert (":" + (text + tail))[1..] == text + tail;
    assert Delimited(tail);
    assert ParseValue(text + tail) == Got(v, tail);
    FieldText(k, text, tail);
    KeyReads(k, ":" + (text + tail), PrintField(Field(k, text)) + tail);
  }

  lemma LastField(k: string, text: string, v: Json, t: string)
    requires Reads(text, v)
    ensures ParseFields(PrintField(Field(k, text)) + ("}" + t)) == Got([Field(k, v)], t)
  {
    var tail := "}" + t;
    FieldHead(k, text, v, tail);
    assert tail[1..] == t;
  }

  lemma MoreFields(k: string, text: string, v: Json, rest: string, fs: seq<Field<Json>>, t: string)
    requires Reads(text, v) && ParseFields(rest) == Got(fs, t)
    ensures ParseFields(PrintField(Field(k, text)) + ("," + rest)) == Got([Field(k, v)] + fs, t)
  {
    var tail := "," + rest;
    FieldHead(k, text, v, tail);
    assert tail[1..] == rest;
  }

  /** A field's text is read back as its value. */
  ghost predicate FieldReads(p: Field<string>, f: Field<Json>) {
    p.key == f.key && Reads(p.value, f.value)
  }

  lemma OneField(ps: seq<Field<string>>, fs: seq<Field<Json>>, t: string)
    requires |ps| == |fs| == 1 && FieldReads(ps[0], fs[0])
    ensures ParseFields(JoinFields(ps) + "}" + t) == Got(fs, t)
  {
    LastField(ps[0].key, ps[0].value, fs[0].value, t);
    assert JoinFields(ps) + "}" + t == PrintField(Field(ps[0].key, ps[0].value)) + ("}" + t);
    assert fs == [Field(ps[0].key, fs[0].value)];
  }

  /** The joined text of two or more fields, from its first field on. */
  lemma FieldsText(ps: seq<Field<string>>, t: string)
    requires |ps| > 1
    ensures JoinFields(ps) + "}" + t == PrintField(Field(ps[0].key, ps[0].value)) + ("," + (JoinFields(ps[1..]) + "}" + t))
  {
    Regroup(PrintField(ps[0]), JoinFields(ps[1..]), "}", t);
  }

  lemma FieldAndMore(p: Field<string>, f: Field<Json>, text: string, rest: string, gs: seq<Field<Json>>, fs: seq<Field<Json>>, t: string)
    requires FieldReads(p, f) && text == PrintField(Field(p.key, p.value)) + ("," + rest)
    requires ParseFields(rest) == Got(gs, t) && fs == [f] + gs
    ensures ParseFields(text) == Got(fs, t)
  {
    MoreFields(p.key, p.value, f.value, rest, gs, t);
  }

  lemma {:induction false} JoinedFields(ps: seq<Field<string>>, fs: seq<Field<Json>>, t: string)
    requires ps != [] && |ps| == |fs| && forall i :: 0 <= i < |fs| ==> FieldReads(ps[i], fs[i])
    ensures ParseFields(JoinFields(ps) + "}" + t) == Got(fs, t)
  {
    assert FieldReads(ps[0], fs[0]);
    if |ps| == 1 {
      OneField(ps, fs, t);
    } else {
      JoinedFields(ps[1..], fs[1..], t);
      FieldsText(ps, t);
      FieldAndMore(ps[0], fs[0], JoinFields(ps) + "}" + t, JoinFields(ps[1..]) + "}" + t, fs[1..], fs, t);
    }
  }

  lemma Braced(body: string, t: string)
    ensures ParseValue("{" + body + "}" + t) ==
            if body == "" then Got(Obj([]), t)
            else if body[0] == '}' then Got(Obj([]), (body + "}" + t)[1..])
            else match ParseFields(body + "}" + t) case Fail => Fail case Got(fs, rest) => Got(Obj(fs), rest)
  {
    var s := "{" + body + "}" + t;
    assert s[1..] == body + "}" + t;
    assert body != "" ==> s[1] == body[0];
    assert s[2..] == s[1..][1..];
    assert body == "" ==> s[2..] == t;
  }

  lemma ObjectReads(ps: seq<Field<string>>, fs: seq<Field<Json>>)
    requires |ps| == |fs| && forall i :: 0 <= i < |fs| ==> FieldReads(ps[i], fs[i])
    ensures Reads("{" + JoinFields(ps) + "}", Obj(fs))
  {
    forall t | Delimited(t) ensures ParseValue("{" + JoinFields(ps) + "}" + t) == Got(Obj(fs), t) {
      Braced(JoinFields(ps), t);
      if ps != [] {
        JoinedFields(ps, fs, t);
        assert JoinFields(ps)[0] == PrintField(ps[0])[0] == '\"';
      }
    }
  }
}
