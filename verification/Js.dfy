/** The few host-language notions the model shares: optional values, JavaScript's falsy strings,
    and the host functions that are not modelled themselves. */
module Js {

  datatype Option<+T> = None | Some(value: T)

  /** A present, non-empty string: what JavaScript treats as true. */
  predicate Truthy(s: Option<string>) {
    s.Some? && s.value != ""
  }

  /** `a || b` on optional strings. */
  function Or(a: Option<string>, b: Option<string>): Option<string> {
    if Truthy(a) then a else b
  }

  /** `a || ''`. */
  function OrEmpty(a: Option<string>): string {
    if Truthy(a) then a.value else ""
  }

  /** A given, non-empty text, or else the fallback. The laws speak of defaults through this, where the
      code says `||`. */
  function GivenOr(a: Option<string>, fallback: string): string {
    match a
    case Some(text) => if |text| > 0 then text else fallback
    case None => fallback
  }

  /** What counts as given, and what `||` yields. */
  lemma Falsy(a: Option<string>, b: Option<string>)
    ensures Truthy(a) <==> a != None && a != Some("")
    ensures Or(a, b) == if a == None || a == Some("") then b else a
    ensures OrEmpty(a) == GivenOr(a, "")
  {
  }

  /** Host functions, passed around as values: Unicode case mapping, SHA-256 in lower-case hex,
      and BigInt parsing (None where BigInt throws). */
  datatype Host = Host(
    lower: string -> string,
    upper: string -> string,
    digest: string -> string,
    bigInt: string -> Option<int>)
  {
    /** SHA-256 idealised: no two texts share a digest, and a digest is never empty. */
    ghost predicate CollisionFree() {
      && (forall x, y :: digest(x) == digest(y) ==> x == y)
      && (forall x :: digest(x) != "")
    }
  }

  function IndexOf<T(==)>(s: seq<T>, x: T): (i: nat)
    requires x in s
    ensures i < |s| && s[i] == x
    ensures forall j :: 0 <= j < i ==> s[j] != x
  {
    if s[0] == x then 0 else 1 + IndexOf(s[1..], x)
  }

  predicate Distinct<T(==)>(s: seq<T>) {
    forall i, j :: 0 <= i < j < |s| ==> s[i] != s[j]
  }

  /** What String.prototype.trim removes. */
  predicate IsSpace(c: char) {
    || '\t' <= c <= '\r' || c == ' ' || c == '\U{A0}' || c == '\U{1680}' || '\U{2000}' <= c <= '\U{200A}'
    || c == '\U{2028}' || c == '\U{2029}' || c == '\U{202F}' || c == '\U{205F}' || c == '\U{3000}' || c == '\U{FEFF}'
  }

  /** `s.trim() === ''`. */
  predicate IsBlank(s: string) {
    forall i :: 0 <= i < |s| ==> IsSpace(s[i])
  }
}
