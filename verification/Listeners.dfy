/** The listeners put out: no two share a port, and no two share a name. */
module Listeners {
  import opened Owners
  import opened Text
  import opened Allocator
  import opened Greedy

  ghost predicate SlotsDistinct(fs: seq<Frontend>) {
    forall i, j :: 0 <= i < j < |fs| ==> FrontendSlot(fs[i]) != FrontendSlot(fs[j])
  }

  /** The API server admits no service that lists a port and protocol twice. */
  ghost predicate OwnSlotsDistinct(s: Allocator.Service) {
    forall i, j :: 0 <= i < j < |s.ports| ==> SlotOf(s.ports[i]) != SlotOf(s.ports[j])
  }

  lemma {:induction false} FrontendsSlots(s: Allocator.Service, nodes: seq<string>)
    ensures SlotsDistinct(FrontendsOf(s, nodes)) <==> OwnSlotsDistinct(s)
    ensures forall k :: 0 <= k < |s.ports| ==> FrontendSlot(FrontendsOf(s, nodes)[k]) in Slots(s)
  {
    var fs := FrontendsOf(s, nodes);
    assert forall k :: 0 <= k < |fs| ==> FrontendSlot(fs[k]) == SlotOf(s.ports[k]);
  }

  /** Every listener is a port of a granted service. */
  lemma {:induction false} EmittedFrom(order: seq<Allocator.Service>, nodes: seq<string>, n: nat,
      a: nat) returns (i: nat, k: nat)
    requires n <= |order| && a < |Emitted(order, nodes, n)|
    ensures i < n && Granted(order, i) && k < |order[i].ports|
    ensures Emitted(order, nodes, n)[a] == FrontendFor(order[i], order[i].ports[k], nodes)
  {
    var before := Emitted(order, nodes, n - 1);
    if a < |before| {
      i, k := EmittedFrom(order, nodes, n - 1, a);
    } else {
      i, k := n - 1, a - |before|;
      assert Emitted(order, nodes, n)[a] == FrontendsOf(order[i], nodes)[k];
    }
  }

  ghost predicate DisjointSlots(a: seq<Frontend>, b: seq<Frontend>) {
    forall i, j :: 0 <= i < |a| && 0 <= j < |b| ==> FrontendSlot(a[i]) != FrontendSlot(b[j])
  }

  lemma {:induction false} ConcatDistinct(a: seq<Frontend>, b: seq<Frontend>)
    requires DisjointSlots(a, b)
    ensures SlotsDistinct(a + b) <==> SlotsDistinct(a) && SlotsDistinct(b)
  {
    var c := a + b;
    if SlotsDistinct(c) {
      assert forall i :: 0 <= i < |a| ==> a[i] == c[i];
      assert forall i :: 0 <= i < |b| ==> b[i] == c[|a| + i];
    }
  }

  lemma {:induction false} GrantedApart(order: seq<Allocator.Service>, nodes: seq<string>, n: nat, a: nat, b: nat)
    requires n < |order| && Granted(order, n)
    requires a < |Emitted(order, nodes, n)| && b < |order[n].ports|
    ensures FrontendSlot(Emitted(order, nodes, n)[a]) != FrontendSlot(FrontendsOf(order[n], nodes)[b])
  {
    var i, k := EmittedFrom(order, nodes, n, a);
    var p, q := order[i].ports[k], order[n].ports[b];
    assert SlotOf(p) in Slots(order[i]) && SlotOf(q) in Slots(order[n]);
    assert Slots(order[i]) !! Slots(order[n]);
  }

  ghost predicate GrantedOwnDistinct(order: seq<Allocator.Service>, n: nat)
    requires n <= |order|
  {
    forall i :: 0 <= i < n && Granted(order, i) ==> OwnSlotsDistinct(order[i])
  }

  lemma {:induction false} GrantedOwnDistinctNext(order: seq<Allocator.Service>, n: nat)
    requires 0 < n <= |order|
    ensures GrantedOwnDistinct(order, n) ==
              (GrantedOwnDistinct(order, n - 1) && (Granted(order, n - 1) ==> OwnSlotsDistinct(order[n - 1])))
  {
  }

  lemma {:induction false} EmittedDistinctNext(order: seq<Allocator.Service>, nodes: seq<string>, n: nat)
    requires 0 < n <= |order|
    ensures SlotsDistinct(Emitted(order, nodes, n)) ==
              (SlotsDistinct(Emitted(order, nodes, n - 1))
                  && (Granted(order, n - 1) ==> OwnSlotsDistinct(order[n - 1])))
  {
    var before, mine := Emitted(order, nodes, n - 1), FrontendsOf(order[n - 1], nodes);
    if !Granted(order, n - 1) {
      assert Emitted(order, nodes, n) == before;
    } else {
      assert DisjointSlots(before, mine) by {
        forall a, b | 0 <= a < |before| && 0 <= b < |mine| ensures FrontendSlot(before[a]) != FrontendSlot(mine[b]) {
          GrantedApart(order, nodes, n - 1, a, b);
        }
      }
      ConcatDistinct(before, mine);
      FrontendsSlots(order[n - 1], nodes);
    }
  }

  /** No two listeners share a slot, if and only if no granted service asks for one twice. */
  lemma {:induction false} EmittedDistinct(order: seq<Allocator.Service>, nodes: seq<string>, n: nat)
    requires n <= |order|
    ensures SlotsDistinct(Emitted(order, nodes, n)) <==> GrantedOwnDistinct(order, n)
  {
    if n > 0 {
      var last := Granted(order, n - 1) ==> OwnSlotsDistinct(order[n - 1]);
      calc {
        SlotsDistinct(Emitted(order, nodes, n));
      == { EmittedDistinctNext(order, nodes, n); }
        SlotsDistinct(Emitted(order, nodes, n - 1)) && last;
      == { EmittedDistinct(order, nodes, n - 1); }
        GrantedOwnDistinct(order, n - 1) && last;
      == { GrantedOwnDistinctNext(order, n); }
        GrantedOwnDistinct(order, n);
      }
    }
  }

  // Names.

  lemma {:induction false} NameParts(x: string, head: string, port: int, proto: string)
    requires x == head + "_" + Decimal(port) + "_" + proto && |proto| == 3
    ensures |x| >= 4 && x[|x| - 3..] == proto
    ensures var y := x[..|x| - 4]; var k := LastIndexOf(y, '_'); k <= |y| && y[|y| - k..] == Decimal(port)
  {
    var y := head + "_" + Decimal(port);
    assert x[..|x| - 4] == y && y == head + ['_'] + Decimal(port);
    LastIndexOfIs(head, '_', Decimal(port));
  }

  lemma LowerProtocols()
    ensures Lower("TCP") == "tcp" && Lower("UDP") == "udp"
  {
  }

  /** The end of a name gives the port and the protocol, whatever the rest of it was. */
  lemma NameTellsSlot(s: Allocator.Service, p: Port, t: Allocator.Service, q: Port)
    requires Usable(p) && Usable(q) && FrontendName(s, p) == FrontendName(t, q)
    ensures SlotOf(p) == SlotOf(q)
  {
    var x := FrontendName(s, p);
    LowerProtocols();
    var a, b := if Protocol(p) == "TCP" then "tcp" else "udp", if Protocol(q) == "TCP" then "tcp" else "udp";
    NameParts(x, Sanitize(s.ns) + "_" + Sanitize(s.name), p.port, a);
    NameParts(x, Sanitize(t.ns) + "_" + Sanitize(t.name), q.port, b);
    DecimalInjective(p.port, q.port);
    assert "tcp"[0] != "udp"[0];
  }

  /** Sanitising alone does not keep services apart. */
  lemma SanitizeCollides()
    ensures Sanitize("a") + "_" + Sanitize("b-c") == Sanitize("a-b") + "_" + Sanitize("c")
  {
    assert Sanitize("b-c") == "b_c" && Sanitize("a-b") == "a_b";
  }

  lemma {:induction false} NamesDistinct(order: seq<Allocator.Service>, nodes: seq<string>, n: nat, a: nat, b: nat)
    requires n <= |order| && a < b < |Emitted(order, nodes, n)|
    requires GrantedOwnDistinct(order, n)
    ensures Emitted(order, nodes, n)[a].name != Emitted(order, nodes, n)[b].name
  {
    var fs := Emitted(order, nodes, n);
    EmittedDistinct(order, nodes, n);
    var i, k := EmittedFrom(order, nodes, n, a);
    var j, l := EmittedFrom(order, nodes, n, b);
    var p, q := order[i].ports[k], order[j].ports[l];
    assert FrontendSlot(fs[a]) == SlotOf(p) && FrontendSlot(fs[b]) == SlotOf(q);
    if fs[a].name == fs[b].name {
      NameTellsSlot(order[i], p, order[j], q);
    }
  }
}
