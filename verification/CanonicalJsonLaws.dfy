/** Laws of the canonical printer: parsing undoes printing, and two trees print alike exactly when
    they are equal up to key order. */
module CanonicalJsonLaws {
  import opened CanonicalJson
  import opened JsonReading

  // ----- Key order is a total order on strings -----

  lemma UnitsTotal(a: seq<int>, b: seq<int>)
    ensures UnitsLe(a, b) || UnitsLe(b, a)
  {
  }

  lemma UnitsAntisymmetric(a: seq<int>, b: seq<int>)
    requires UnitsLe(a, b) && UnitsLe(b, a)
    ensures a == b
  {
    if a != [] {
      UnitsAntisymmetric(a[1..], b[1..]);
      assert a == [a[0]] + a[1..] && b == [b[0]] + b[1..];
    }
  }

  lemma UnitsTransitive(a: seq<int>, b: seq<int>, c: seq<int>)
    requires UnitsLe(a, b) && UnitsLe(b, c)
    ensures UnitsLe(a, c)
  {
  }

  /** The first difference decides: b is not before a exactly when a is a beginning of b, or has the smaller
      number where they first differ. */
  lemma {:induction false} FirstDifferenceDecides(a: seq<int>, b: seq<int>)
    ensures UnitsLe(a, b) <==> a <= b || exists i :: 0 <= i < |a| && i < |b| && a[..i] == b[..i] && a[i] < b[i]
  {
    if a != [] && b != [] && a[0] == b[0] {
      FirstDifferenceDecides(a[1..], b[1..]);
      if i :| 0 <= i < |a[1..]| && i < |b[1..]| && a[1..][..i] == b[1..][..i] && a[1..][i] < b[1..][i] {
        assert a[..i+1] == [a[0]] + a[1..][..i] && b[..i+1] == [b[0]] + b[1..][..i];
      }
      if i :| 0 <= i < |a| && i < |b| && a[..i] == b[..i] && a[i] < b[i] {
        assert i > 0 && a[1..][..i-1] == a[..i][1..] && b[1..][..i-1] == b[..i][1..];
      }
    } else if a != [] && b != [] {
      assert a[0] < b[0] ==> a[..0] == b[..0];
    }
  }

  /** Of two keys with a common beginning, the one that goes on with the smaller code unit comes first, and a
      key comes before all its extensions. */
  lemma KeysInOrder(a: string, b: string)
    ensures KeyLe(a, b) <==>
            Utf16(a) <= Utf16(b)
            || exists i :: 0 <= i < |Utf16(a)| && i < |Utf16(b)| && Utf16(a)[..i] == Utf16(b)[..i] && Utf16(a)[i] < Utf16(b)[i]
  {
    FirstDifferenceDecides(Utf16(a), Utf16(b));
  }

  /** Below U+10000 the code units of a text are its characters. */
  lemma {:induction false} PlainUnits(s: string)
    requires forall i :: 0 <= i < |s| ==> (s[i] as int) < 0x10000
    ensures |Utf16(s)| == |s| && forall i :: 0 <= i < |s| ==> Utf16(s)[i] == s[i] as int
  {
    if s != "" {
      PlainUnits(s[1..]);
      assert s == [s[0]] + s[1..];
    }
  }

  /** Not so above: U+10000 sorts before U+FFFF. */
  lemma SurrogatesComeEarly()
    ensures KeyLe("\U{10000}", "\U{FFFF}") && !KeyLe("\U{FFFF}", "\U{10000}")
  {
    assert Utf16("\U{10000}")[0] == 0xD800 && Utf16("\U{FFFF}")[0] == 0xFFFF;
  }

  lemma {:induction false} Utf16Injective(a: string, b: string)
    requires Utf16(a) == Utf16(b)
    ensures a == b
  {
    if a == "" || b == "" {
    } else {
      var ua, ub := Utf16Unit(a[0]), Utf16Unit(b[0]);
      assert Utf16(a)[0] == ua[0] && Utf16(b)[0] == ub[0];
      var x, y := a[0] as int, b[0] as int;
      if x >= 0x10000 {
        assert Utf16(a)[1] == ua[1];
        if y >= 0x10000 { assert Utf16(b)[1] == ub[1]; }
      }
      assert a[0] == b[0];
      assert Utf16(a)[|ua|..] == Utf16(a[1..]) && Utf16(b)[|ub|..] == Utf16(b[1..]);
      Utf16Injective(a[1..], b[1..]);
      assert a == [a[0]] + a[1..] && b == [b[0]] + b[1..];
    }
  }

  lemma KeyLeTotal(a: string, b: string)
    ensures KeyLe(a, b) || KeyLe(b, a)
  {
    UnitsTotal(Utf16(a), Utf16(b));
  }

  lemma KeyLeAntisymmetric(a: string, b: string)
    requires KeyLe(a, b) && KeyLe(b, a)
    ensures a == b
  {
    UnitsAntisymmetric(Utf16(a), Utf16(b));
    Utf16Injective(a, b);
  }

  // ----- Sorting -----

  ghost predicate Sorted<V(!new)>(s: seq<Field<V>>) {
    forall i, j :: 0 <= i < j < |s| ==> KeyLe(s[i].key, s[j].key)
  }

  ghost predicate DistinctKeys<V(!new)>(s: seq<Field<V>>) {
    forall i, j :: 0 <= i < j < |s| ==> s[i].key != s[j].key
  }

  lemma {:induction false} InsertMembers<V(!new)>(x: Field<V>, s: seq<Field<V>>)
    ensures forall f :: f in Insert(x, s) <==> f == x || f in s
  {
    if s != [] && !KeyLe(x.key, s[0].key) {
      InsertMembers(x, s[1..]);
      assert s == [s[0]] + s[1..];
    }
  }

  lemma {:induction false} InsertSorted<V(!new)>(x: Field<V>, s: seq<Field<V>>)
    requires Sorted(s)
    ensures Sorted(Insert(x, s))
  {
    if s == [] {
    } else if KeyLe(x.key, s[0].key) {
      forall j | 0 < j < |s| ensures KeyLe(x.key, s[j].key) {
        UnitsTransitive(Utf16(x.key), Utf16(s[0].key), Utf16(s[j].key));
      }
    } else {
      var t := Insert(x, s[1..]);
      InsertSorted(x, s[1..]);
      InsertMembers(x, s[1..]);
      KeyLeTotal(x.key, s[0].key);
      forall j | 0 <= j < |t| ensures KeyLe(s[0].key, t[j].key) {
        assert t[j] in t;
      }
    }
  }

  lemma {:induction false} SortSorts<V(!new)>(s: seq<Field<V>>)
    ensures Sorted(SortByKey(s))
    ensures forall f :: f in SortByKey(s) <==> f in s
  {
    if s != [] {
      SortSorts(s[1..]);
      InsertSorted(s[0], SortByKey(s[1..]));
      InsertMembers(s[0], SortByKey(s[1..]));
      assert s == [s[0]] + s[1..];
    }
  }

  lemma {:induction false} SortKeepsSorted<V(!new)>(s: seq<Field<V>>)
    requires Sorted(s)
    ensures SortByKey(s) == s
  {
    if s != [] {
      SortKeepsSorted(s[1..]);
      assert s == [s[0]] + s[1..];
    }
  }

  /** A sorted listing of distinct keys is determined by its set of fields. */
  lemma {:induction false} SortedUnique<V(!new)>(x: seq<Field<V>>, y: seq<Field<V>>)
    requires Sorted(x) && Sorted(y) && DistinctKeys(x) && DistinctKeys(y)
    requires forall f :: f in x <==> f in y
    ensures x == y
  {
    if y != [] { assert y[0] in x; }
    if x != [] {
      assert x[0] in y;
      var j :| 0 <= j < |y| && y[j] == x[0];
      assert y[0] in x;
      var i :| 0 <= i < |x| && x[i] == y[0];
      if j > 0 {
        if i > 0 { KeyLeAntisymmetric(x[0].key, y[0].key); }
        assert false;
      }
      forall f ensures f in x[1..] <==> f in y[1..] {
        assert f in x <==> f == x[0] || f in x[1..];
        assert f in y <==> f == y[0] || f in y[1..];
      }
      SortedUnique(x[1..], y[1..]);
      assert x == [x[0]] + x[1..] && y == [y[0]] + y[1..];
    }
  }

  lemma {:induction false} InsertDistinct<V(!new)>(x: Field<V>, s: seq<Field<V>>)
    requires DistinctKeys(s)
    requires forall i :: 0 <= i < |s| ==> s[i].key != x.key
    ensures DistinctKeys(Insert(x, s))
  {
    if s != [] && !KeyLe(x.key, s[0].key) {
      InsertDistinct(x, s[1..]);
      InsertMembers(x, s[1..]);
      var t := Insert(x, s[1..]);
      forall j | 0 <= j < |t| ensures t[j].key != s[0].key {
        assert t[j] in t;
      }
    }
  }

  lemma {:induction false} SortDistinct<V(!new)>(s: seq<Field<V>>)
    requires DistinctKeys(s)
    ensures DistinctKeys(SortByKey(s))
  {
    if s != [] {
      SortDistinct(s[1..]);
      SortSorts(s[1..]);
      var t := SortByKey(s[1..]);
      forall i | 0 <= i < |t| ensures t[i].key != s[0].key {
        assert t[i] in t;
      }
      InsertDistinct(s[0], t);
    }
  }

  /** Sorting two listings of one set of fields gives one list. */
  lemma SortUnique<V(!new)>(x: seq<Field<V>>, y: seq<Field<V>>)
    requires DistinctKeys(x) && DistinctKeys(y)
    requires forall f :: f in x <==> f in y
    ensures SortByKey(x) == SortByKey(y)
  {
    SortSorts(x); SortSorts(y);
    SortDistinct(x); SortDistinct(y);
    SortedUnique(SortByKey(x), SortByKey(y));
  }

  // ----- Sorting looks at keys only, so it commutes with rewriting the values -----

  function MapValues<A, B>(f: A -> B, s: seq<Field<A>>): (r: seq<Field<B>>)
    ensures |r| == |s|
    ensures forall i :: 0 <= i < |s| ==> r[i] == Field(s[i].key, f(s[i].value))
  {
    if s == [] then [] else [Field(s[0].key, f(s[0].value))] + MapValues(f, s[1..])
  }

  lemma {:induction false} InsertCommutes<A, B>(f: A -> B, x: Field<A>, s: seq<Field<A>>)
    ensures MapValues(f, Insert(x, s)) == Insert(Field(x.key, f(x.value)), MapValues(f, s))
  {
    if s != [] && !KeyLe(x.key, s[0].key) {
      InsertCommutes(f, x, s[1..]);
      assert MapValues(f, s)[1..] == MapValues(f, s[1..]);
    }
  }

  lemma {:induction false} SortCommutes<A, B>(f: A -> B, s: seq<Field<A>>)
    ensures MapValues(f, SortByKey(s)) == SortByKey(MapValues(f, s))
  {
    if s != [] {
      SortCommutes(f, s[1..]);
      InsertCommutes(f, s[0], SortByKey(s[1..]));
      assert MapValues(f, s)[1..] == MapValues(f, s[1..]);
    }
  }

  lemma {:induction false} PrintValuesMaps(fs: seq<Field<Json>>)
    ensures PrintValues(fs) == MapValues(Print, fs)
  {
    if fs != [] { PrintValuesMaps(fs[1..]); }
  }

  lemma CanonValuesMaps(fs: seq<Field<Json>>)
    ensures CanonValues(fs) == MapValues(Canon, fs)
  {
  }

  // ----- Parsing undoes printing -----

  /** Reading v's text back gives its canonical form, whatever delimiter follows. */
  ghost predicate RoundTrips(v: Json) {
    Reads(Print(v), Canon(v))
  }

  lemma PrintStart(v: Json)
    ensures Print(v) != ""
    ensures Print(v)[0] != ',' && Print(v)[0] != ']' && Print(v)[0] != '}'
  {
    match v
    case Num(n) => ParseDecimal(n, "");
    case _ =>
  }

  /** An object's text and its canonical form, field by field in key order. */
  lemma ObjectParts(fs: seq<Field<Json>>)
    ensures Print(Obj(fs)) == "{" + JoinFields(MapValues(Print, SortByKey(fs))) + "}"
    ensures Canon(Obj(fs)) == Obj(MapValues(Canon, SortByKey(fs)))
  {
    PrintValuesMaps(fs); CanonValuesMaps(fs);
    SortCommutes(Print, fs); SortCommutes(Canon, fs);
  }

  lemma FieldsRead(fs: seq<Field<Json>>)
    requires forall i :: 0 <= i < |fs| ==> RoundTrips(fs[i].value)
    ensures forall i :: 0 <= i < |fs| ==> FieldReads(MapValues(Print, fs)[i], MapValues(Canon, fs)[i])
  {
    forall i | 0 <= i < |fs| ensures FieldReads(MapValues(Print, fs)[i], MapValues(Canon, fs)[i]) {
      assert RoundTrips(fs[i].value);
    }
  }

  lemma ParseObject(fs: seq<Field<Json>>)
    requires forall i :: 0 <= i < |fs| ==> RoundTrips(fs[i].value)
    ensures RoundTrips(Obj(fs))
  {
    var sorted := SortByKey(fs);
    SortSorts(fs);
    forall i | 0 <= i < |sorted| ensures RoundTrips(sorted[i].value) { assert sorted[i] in sorted; }
    FieldsRead(sorted);
    ObjectReads(MapValues(Print, sorted), MapValues(Canon, sorted));
    ObjectParts(fs);
  }

  lemma ParseArray(xs: seq<Json>)
    requires forall i :: 0 <= i < |xs| ==> RoundTrips(xs[i])
    ensures RoundTrips(Arr(xs))
  {
    var texts, vs := PrintItems(xs), CanonItems(xs);
    forall i | 0 <= i < |xs| ensures ItemReads(texts[i], vs[i]) {
      if !xs[i].Undefined? { PrintStart(xs[i]); }
    }
    ArrayReads(texts, vs);
    if xs == [Undefined] { assert vs == [Undefined]; }
    if vs == [Undefined] { assert vs[0] == Undefined && xs == [Undefined]; }
  }

  /** Round trip: parsing the printed text of any tree gives back its canonical form. */
  lemma {:induction false} ParsePrint(v: Json)
    ensures RoundTrips(v)
    decreases v
  {
    match v
    case Arr(xs) =>
      forall i | 0 <= i < |xs| ensures RoundTrips(xs[i]) { ParsePrint(xs[i]); }
      ParseArray(xs);
    case Obj(fs) =>
      forall i | 0 <= i < |fs| ensures RoundTrips(fs[i].value) { ParsePrint(fs[i].value); }
      ParseObject(fs);
    case _ => AtomReads(v);
  }

  // ----- Canonical forms and equality up to key order -----

  lemma {:induction false} PrintItemsOfCanon(xs: seq<Json>)
    requires forall i :: 0 <= i < |xs| ==> Print(Canon(xs[i])) == Print(xs[i])
    ensures PrintItems(CanonItems(xs)) == PrintItems(xs)
  {
    if xs != [] {
      PrintItemsOfCanon(xs[1..]);
      assert CanonItems(xs)[1..] == CanonItems(xs[1..]);
    }
  }

  lemma {:induction false} PrintCanon(v: Json)
    ensures Print(Canon(v)) == Print(v)
    decreases v
  {
    match v
    case Arr(xs) =>
      forall i | 0 <= i < |xs| ensures Print(Canon(xs[i])) == Print(xs[i]) { PrintCanon(xs[i]); }
      PrintItemsOfCanon(xs);
    case Obj(fs) =>
      forall i | 0 <= i < |fs| ensures Print(Canon(fs[i].value)) == Print(fs[i].value) { PrintCanon(fs[i].value); }
      var cs := CanonValues(fs);
      PrintValuesMaps(fs); PrintValuesMaps(cs); PrintValuesMaps(SortByKey(cs));
      assert MapValues(Print, cs) == MapValues(Print, fs);
      SortCommutes(Print, cs);
      SortSorts(PrintValues(fs));
      SortKeepsSorted(SortByKey(PrintValues(fs)));
    case _ =>
  }

  lemma {:induction false} CanonDecides(a: Json, b: Json)
    requires WellFormed(a) && WellFormed(b)
    ensures SameUpToKeyOrder(a, b) <==> Canon(a) == Canon(b)
    decreases a
  {
    match a
    case Arr(xs) =>
      if b.Arr? {
        var x, y := Dense(xs), Dense(b.items);
        forall i | 0 <= i < |x| && |x| == |y| ensures SameUpToKeyOrder(x[i], y[i]) <==> Canon(x[i]) == Canon(y[i]) {
          CanonDecides(x[i], y[i]);
        }
        assert Canon(a) == Arr(CanonItems(x)) && Canon(b) == Arr(CanonItems(y));
        if Canon(a) == Canon(b) {
          forall i | 0 <= i < |x| ensures Canon(x[i]) == Canon(y[i]) {
            assert CanonItems(x)[i] == CanonItems(y)[i];
          }
        }
      }
    case Obj(fs) =>
      if b.Obj? { FieldsDecide(fs, b.fields); }
    case _ =>
  }

  lemma {:induction false} TwinsDecide(fs: seq<Field<Json>>, gs: seq<Field<Json>>)
    requires WellFormed(Obj(fs)) && WellFormed(Obj(gs))
    ensures EachHasTwin(fs, gs) <==> Included(CanonValues(fs), CanonValues(gs))
    ensures EachIsTwin(fs, gs) <==> Included(CanonValues(gs), CanonValues(fs))
    decreases fs, 0
  {
    forall i | 0 <= i < |fs| ensures HasTwin(fs[i], gs) <==> CanonValues(fs)[i] in CanonValues(gs) {
      forall j | 0 <= j < |gs| { CanonDecides(fs[i].value, gs[j].value); }
      ForwardTwin(fs[i], gs);
    }
    forall j | 0 <= j < |gs| ensures IsTwin(fs, gs[j]) <==> CanonValues(gs)[j] in CanonValues(fs) {
      forall i | 0 <= i < |fs| { CanonDecides(fs[i].value, gs[j].value); }
      BackwardTwin(fs, gs[j]);
    }
  }

  lemma {:induction false} FieldsDecide(fs: seq<Field<Json>>, gs: seq<Field<Json>>)
    requires WellFormed(Obj(fs)) && WellFormed(Obj(gs))
    ensures EachHasTwin(fs, gs) && EachIsTwin(fs, gs)
            <==> SortByKey(CanonValues(fs)) == SortByKey(CanonValues(gs))
    decreases fs, 1
  {
    var x, y := CanonValues(fs), CanonValues(gs);
    CanonKeepsDistinct(fs); CanonKeepsDistinct(gs);
    SortDecidesMutualInclusion(x, y);
    TwinsDecide(fs, gs);
  }

  lemma CanonKeepsDistinct(fs: seq<Field<Json>>)
    requires WellFormed(Obj(fs))
    ensures DistinctKeys(CanonValues(fs))
  {
  }

  lemma ForwardTwin(f: Field<Json>, gs: seq<Field<Json>>)
    requires forall j | 0 <= j < |gs| :: SameUpToKeyOrder(f.value, gs[j].value) <==> Canon(f.value) == Canon(gs[j].value)
    ensures HasTwin(f, gs) <==> Field(f.key, Canon(f.value)) in CanonValues(gs)
  {
    var y := CanonValues(gs);
    if Field(f.key, Canon(f.value)) in y {
      var j :| 0 <= j < |y| && y[j] == Field(f.key, Canon(f.value));
      assert f.key == gs[j].key && SameUpToKeyOrder(f.value, gs[j].value);
    }
    if HasTwin(f, gs) {
      var j :| 0 <= j < |gs| && f.key == gs[j].key && SameUpToKeyOrder(f.value, gs[j].value);
      assert y[j] in y;
    }
  }

  lemma BackwardTwin(fs: seq<Field<Json>>, g: Field<Json>)
    requires forall i | 0 <= i < |fs| :: SameUpToKeyOrder(fs[i].value, g.value) <==> Canon(fs[i].value) == Canon(g.value)
    ensures IsTwin(fs, g) <==> Field(g.key, Canon(g.value)) in CanonValues(fs)
  {
    var x := CanonValues(fs);
    if Field(g.key, Canon(g.value)) in x {
      var i :| 0 <= i < |x| && x[i] == Field(g.key, Canon(g.value));
      assert fs[i].key == g.key && SameUpToKeyOrder(fs[i].value, g.value);
    }
    if IsTwin(fs, g) {
      var i :| 0 <= i < |fs| && fs[i].key == g.key && SameUpToKeyOrder(fs[i].value, g.value);
      assert x[i] in x;
    }
  }

  ghost predicate Included<T(!new)>(x: seq<T>, y: seq<T>) {
    forall i :: 0 <= i < |x| ==> x[i] in y
  }

  lemma SameElements<T(!new)>(x: seq<T>, y: seq<T>)
    ensures Included(x, y) && Included(y, x) <==> (forall f :: f in x <==> f in y)
  {
    assert forall i :: 0 <= i < |x| ==> x[i] in x;
    assert forall j :: 0 <= j < |y| ==> y[j] in y;
  }

  /** Two listings sort to one list exactly when they list the same fields. */
  lemma SortDecides<V(!new)>(x: seq<Field<V>>, y: seq<Field<V>>)
    requires DistinctKeys(x) && DistinctKeys(y)
    ensures SortByKey(x) == SortByKey(y) <==> (forall f :: f in x <==> f in y)
  {
    SortSorts(x); SortSorts(y);
    if forall f :: f in x <==> f in y { SortUnique(x, y); }
  }

  /** Two field lists sort to one list exactly when each field of either occurs in the other. */
  lemma SortDecidesMutualInclusion<V(!new)>(x: seq<Field<V>>, y: seq<Field<V>>)
    requires DistinctKeys(x) && DistinctKeys(y)
    ensures Included(x, y) && Included(y, x) <==> SortByKey(x) == SortByKey(y)
  {
    SameElements(x, y);
    SortDecides(x, y);
  }

  lemma PrintDecidesCanon(a: Json, b: Json)
    ensures Print(a) == Print(b) <==> Canon(a) == Canon(b)
  {
    PrintCanon(a); PrintCanon(b);
    ParsePrint(a); ParsePrint(b);
    assert ParseValue(Print(a) + "") == Got(Canon(a), "");
    assert ParseValue(Print(b) + "") == Got(Canon(b), "");
  }

  /** The canonical-form theorem: equal texts exactly for trees equal up to object key order. */
  lemma PrintDecidesSameness(a: Json, b: Json)
    requires WellFormed(a) && WellFormed(b)
    ensures Print(a) == Print(b) <==> SameUpToKeyOrder(a, b)
  {
    PrintDecidesCanon(a, b);
    CanonDecides(a, b);
  }

  /** The one collision outside key order: a lone undefined in an array prints like the empty array. */
  lemma LoneUndefinedCollides()
    ensures Print(Arr([Undefined])) == Print(Arr([])) && Arr([Undefined]) != Arr([])
  {
    assert PrintItems([Undefined]) == [""];
  }
}
