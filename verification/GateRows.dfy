/** Gates in a row: a run stops at the first that does not let it pass, with that gate's answer. */
module GateRows {
  import opened Js

  datatype Gate<S> = Gate(passes: bool, otherwise: S)

  predicate AllOpen<S>(gates: seq<Gate<S>>) { forall i :: 0 <= i < |gates| ==> gates[i].passes }

  predicate StopsFirstAt<S>(gates: seq<Gate<S>>, i: int) {
    0 <= i < |gates| && !gates[i].passes && forall j :: 0 <= j < i ==> gates[j].passes
  }

  /** The answer of the first closed gate. */
  function Verdict<S>(gates: seq<Gate<S>>): Option<S> {
    if gates == [] then None
    else if !gates[0].passes then Some(gates[0].otherwise)
    else Verdict(gates[1..])
  }

  lemma {:induction false} StopsAt<S>(gates: seq<Gate<S>>, i: nat)
    requires StopsFirstAt(gates, i)
    ensures Verdict(gates) == Some(gates[i].otherwise)
  {
    if i > 0 {
      forall j | 0 <= j < i - 1 ensures gates[1..][j].passes { assert gates[j+1].passes; }
      StopsAt(gates[1..], i - 1);
    }
  }

  lemma {:induction false} PassesAll<S>(gates: seq<Gate<S>>)
    ensures Verdict(gates).None? <==> AllOpen(gates)
  {
    if gates != [] {
      PassesAll(gates[1..]);
      assert forall j :: 0 <= j < |gates[1..]| ==> gates[1..][j] == gates[j+1];
    }
  }

  /** A verdict is that of the first closed gate. */
  lemma {:induction false} FirstClosed<S>(gates: seq<Gate<S>>) returns (i: nat)
    requires Verdict(gates).Some?
    ensures StopsFirstAt(gates, i) && Verdict(gates) == Some(gates[i].otherwise)
  {
    if !gates[0].passes {
      i := 0;
    } else {
      var k := FirstClosed(gates[1..]);
      i := k + 1;
      forall j | 0 <= j < i ensures gates[j].passes { if j > 0 { assert gates[1..][j-1].passes; } }
    }
  }

  lemma {:induction false} InTurn<S>(a: seq<Gate<S>>, b: seq<Gate<S>>)
    ensures Verdict(a + b) == if Verdict(a).Some? then Verdict(a) else Verdict(b)
  {
    if a == [] {
      assert a + b == b;
    } else {
      assert (a + b)[1..] == a[1..] + b;
      InTurn(a[1..], b);
    }
  }
}
