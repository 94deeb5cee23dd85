/** JSON.stringify on the trees the runner's plan fingerprint is made of: fields in insertion order,
    undefined fields left out, undefined items printed as null. */
module JsonText {
  import opened CanonicalJson
  import opened JsonReading

  function Text(v: Json): string
    decreases v, 0
  {
    match v
    case Arr(xs) => "[" + JoinTexts(ItemTexts(xs)) + "]"
    case Obj(fs) => "{" + JoinFields(FieldTexts(fs)) + "}"
    case Undefined => "null"
    case _ => Print(v)
  }

  function ItemTexts(xs: seq<Json>): (r: seq<string>)
    ensures |r| == |xs|
    ensures forall i :: 0 <= i < |xs| ==> r[i] == Text(xs[i])
    decreases xs, 0
  {
    if xs == [] then [] else [Text(xs[0])] + ItemTexts(xs[1..])
  }

  function FieldTexts(fs: seq<Field<Json>>): seq<Field<string>>
    decreases fs, 0
  {
    if fs == [] then []
    else (if fs[0].value.Undefined? then [] else [Field(fs[0].key, Text(fs[0].value))]) + FieldTexts(fs[1..])
  }

  /** What the text keeps of a tree. */
  function Kept(v: Json): Json {
    match v
    case Arr(xs) => Arr(KeptItems(xs))
    case Obj(fs) => Obj(KeptFields(fs))
    case Undefined => Null
    case _ => v
  }

  function KeptItems(xs: seq<Json>): (r: seq<Json>)
    ensures |r| == |xs|
    ensures forall i :: 0 <= i < |xs| ==> r[i] == Kept(xs[i])
  {
    if xs == [] then [] else [Kept(xs[0])] + KeptItems(xs[1..])
  }

  function KeptFields(fs: seq<Field<Json>>): seq<Field<Json>> {
    if fs == [] then []
    else (if fs[0].value.Undefined? then [] else [Field(fs[0].key, Kept(fs[0].value))]) + KeptFields(fs[1..])
  }

  lemma TextStart(v: Json)
    ensures Text(v) != "" && Text(v)[0] != ',' && Text(v)[0] != ']'
  {
    if v.Num? { ParseDecimal(v.n, ""); }
  }

  lemma {:induction false} FieldTextsRead(fs: seq<Field<Json>>)
    requires forall i :: 0 <= i < |fs| ==> Reads(Text(fs[i].value), Kept(fs[i].value))
    ensures |FieldTexts(fs)| == |KeptFields(fs)|
    ensures forall i :: 0 <= i < |KeptFields(fs)| ==> FieldReads(FieldTexts(fs)[i], KeptFields(fs)[i])
  {
    if fs != [] {
      FieldTextsRead(fs[1..]);
      assert Reads(Text(fs[0].value), Kept(fs[0].value));
    }
  }

  /** Parsing the text of any tree gives back what the text keeps of it. */
  lemma {:induction false} TextReads(v: Json)
    ensures Reads(Text(v), Kept(v))
    decreases v
  {
    match v
    case Arr(xs) =>
      forall i | 0 <= i < |xs| ensures ItemReads(ItemTexts(xs)[i], KeptItems(xs)[i]) {
        TextReads(xs[i]);
        TextStart(xs[i]);
      }
      ArrayReads(ItemTexts(xs), KeptItems(xs));
      assert Dense(KeptItems(xs)) == KeptItems(xs) by {
        if xs != [] { assert KeptItems(xs)[0] == Kept(xs[0]) != Undefined; }
      }
    case Obj(fs) =>
      forall i | 0 <= i < |fs| ensures Reads(Text(fs[i].value), Kept(fs[i].value)) { TextReads(fs[i].value); }
      FieldTextsRead(fs);
      ObjectReads(FieldTexts(fs), KeptFields(fs));
    case Undefined => AtomReads(Null);
    case _ => AtomReads(v);
  }

  /** Trees with the same text have the same kept tree. */
  lemma TextDecidesKept(a: Json, b: Json)
    requires Text(a) == Text(b)
    ensures Kept(a) == Kept(b)
  {
    TextReads(a);
    TextReads(b);
    assert ParseValue(Text(a) + "") == Got(Kept(a), "") && ParseValue(Text(b) + "") == Got(Kept(b), "");
  }
}
