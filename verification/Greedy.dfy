/**
 What the allocation means. A service is granted its ports exactly if all of them are usable and no
 older granted service holds one of them; there is one set of services with that property, and the
 order in which the services are listed does not matter.
 */
module Greedy {
  import opened Text
  import opened Allocator

  ghost predicate Granted(order: seq<Service>, i: nat)
    requires i < |order|
    decreases i
  {
    AllUsable(order[i]) && forall j :: 0 <= j < i && Granted(order, j) ==> Slots(order[j]) !! Slots(order[i])
  }

  lemma {:induction false} GrantedPrefix(p: seq<Service>, q: seq<Service>, i: nat)
    requires i < |p| && i < |q| && p[..i + 1] == q[..i + 1]
    ensures Granted(p, i) <==> Granted(q, i)
    decreases i
  {
    assert p[i] == p[..i + 1][i] && q[i] == q[..i + 1][i];
    forall j | 0 <= j < i ensures p[j] == q[j] && (Granted(p, j) <==> Granted(q, j)) {
      assert p[..j + 1] == p[..i + 1][..j + 1] && q[..j + 1] == q[..i + 1][..j + 1];
      assert p[j] == p[..i + 1][j] && q[j] == q[..i + 1][j];
      GrantedPrefix(p, q, j);
    }
  }

  // One service.

  lemma {:induction false} TroubleIff(ports: seq<Port>, taken: map<string, string>)
    ensures Trouble(ports, taken).None? <==>
              forall k :: 0 <= k < |ports| ==> Usable(ports[k]) && SlotOf(ports[k]) !in taken
  {
    if ports != [] {
      TroubleIff(ports[1..], taken);
      assert forall k :: 1 <= k < |ports| ==> ports[k] == ports[1..][k - 1];
    }
  }

  /** The reason given is true of one of the ports. */
  ghost predicate Witnessed(r: Reason, ports: seq<Port>, taken: map<string, string>) {
    exists k :: 0 <= k < |ports| &&
      match r
      case Unsupported(proto) => proto == Protocol(ports[k]) && proto != "TCP" && proto != "UDP"
      case NoNodePort(n) => n == ports[k].port && ports[k].nodePort == 0
      case Taken(slot, holder) => slot == SlotOf(ports[k]) && slot in taken && holder == taken[slot]
  }

  lemma {:induction false} TroubleWitnessed(ports: seq<Port>, taken: map<string, string>)
    requires Trouble(ports, taken).Some?
    ensures Witnessed(Trouble(ports, taken).value, ports, taken)
  {
    if PortTrouble(ports[0], taken).None? {
      TroubleWitnessed(ports[1..], taken);
      assert forall k :: 1 <= k < |ports| ==> ports[k] == ports[1..][k - 1];
    }
  }

  lemma {:induction false} TakeAdds(taken: map<string, string>, ports: seq<Port>, key: string, x: string)
    ensures var r, asked := Take(taken, ports, key), exists k :: 0 <= k < |ports| && x == SlotOf(ports[k]);
            (x in r <==> x in taken || asked) && (x in r ==> r[x] == if asked then key else taken[x])
  {
    if ports != [] {
      TakeAdds(taken, ports[..|ports| - 1], key, x);
      assert forall k :: 0 <= k < |ports| - 1 ==> ports[k] == ports[..|ports| - 1][k];
    }
  }

  lemma {:induction false} TakeSlots(taken: map<string, string>, s: Service)
    ensures var r := Take(taken, s.ports, Key(s));
            && r.Keys == taken.Keys + Slots(s)
            && (forall x :: x in Slots(s) ==> r[x] == Key(s))
            && (forall x :: x in taken && x !in Slots(s) ==> r[x] == taken[x])
  {
    var r := Take(taken, s.ports, Key(s));
    forall x
      ensures x in r.Keys <==> x in taken.Keys + Slots(s)
      ensures x in r ==> r[x] == if x in Slots(s) then Key(s) else taken[x]
    {
      TakeAdds(taken, s.ports, Key(s), x);
    }
  }

  // The whole order.

  /** The frontends of the granted services, in their order. */
  ghost function Emitted(order: seq<Service>, nodes: seq<string>, n: nat): seq<Frontend>
    requires n <= |order|
  {
    if n == 0 then []
    else Emitted(order, nodes, n - 1) + (if Granted(order, n - 1) then FrontendsOf(order[n - 1], nodes) else [])
  }

  /** The holder of slot x is a granted service that asked for it. */
  ghost predicate HeldBy(order: seq<Service>, n: nat, x: string, holder: string)
    requires n <= |order|
  {
    exists i :: 0 <= i < n && Granted(order, i) && x in Slots(order[i]) && holder == Key(order[i])
  }

  /** Slots are held by the granted services, and by no others. */
  ghost predicate Holds(order: seq<Service>, n: nat, taken: map<string, string>)
    requires n <= |order|
  {
    && (forall i :: 0 <= i < n && Granted(order, i) ==>
          forall x :: x in Slots(order[i]) ==> x in taken && taken[x] == Key(order[i]))
    && (forall x :: x in taken ==> HeldBy(order, n, x, taken[x]))
  }

  /** A port nobody could use, or a slot of an older service that was granted it. */
  ghost predicate Justified(order: seq<Service>, i: nat, r: Reason)
    requires i < |order|
  {
    match r
    case Unsupported(proto) =>
      proto != "TCP" && proto != "UDP" && exists p :: p in order[i].ports && Protocol(p) == proto
    case NoNodePort(n) => exists p :: p in order[i].ports && p.port == n && p.nodePort == 0
    case Taken(slot, holder) =>
      && slot in Slots(order[i])
      && exists j :: 0 <= j < i && Granted(order, j) && holder == Key(order[j]) && slot in Slots(order[j])
  }

  ghost predicate Reported(order: seq<Service>, i: nat, conflicts: map<string, Reason>)
    requires i < |order|
  {
    if Granted(order, i) then Key(order[i]) !in conflicts
    else Key(order[i]) in conflicts && Justified(order, i, conflicts[Key(order[i])])
  }

  /** Exactly the services not granted are reported, each for a true reason. */
  ghost predicate Refuses(order: seq<Service>, n: nat, conflicts: map<string, Reason>)
    requires n <= |order|
  {
    && (forall i :: 0 <= i < n ==> Reported(order, i, conflicts))
    && (forall k :: k in conflicts ==> exists i :: 0 <= i < n && k == Key(order[i]))
  }

  lemma {:induction false} GrantedIff(order: seq<Service>, n: nat, taken: map<string, string>)
    requires n < |order| && Holds(order, n, taken)
    ensures Granted(order, n) <==> Trouble(order[n].ports, taken).None?
  {
    var s := order[n];
    TroubleIff(s.ports, taken);
    if Trouble(s.ports, taken).None? {
      forall j | 0 <= j < n && Granted(order, j) ensures Slots(order[j]) !! Slots(s) {
        forall x | x in Slots(order[j]) ensures x !in Slots(s) {
          assert x in taken;
        }
      }
    } else if AllUsable(s) {
      var k :| 0 <= k < |s.ports| && SlotOf(s.ports[k]) in taken;
      var x := SlotOf(s.ports[k]);
      assert x in Slots(s);
      var i :| 0 <= i < n && Granted(order, i) && x in Slots(order[i]);
      assert !(Slots(order[i]) !! Slots(s));
    }
  }

  lemma {:induction false} StillHeld(order: seq<Service>, n: nat, x: string, holder: string)
    requires n < |order| && HeldBy(order, n, x, holder)
    ensures HeldBy(order, n + 1, x, holder)
  {
    var i :| 0 <= i < n && Granted(order, i) && x in Slots(order[i]) && holder == Key(order[i]);
    assert 0 <= i < n + 1;
  }

  lemma {:induction false} AdmitHolds(order: seq<Service>, n: nat, taken: map<string, string>)
    requires n < |order| && Holds(order, n, taken) && Granted(order, n)
    ensures Holds(order, n + 1, Take(taken, order[n].ports, Key(order[n])))
  {
    var s := order[n];
    TakeSlots(taken, s);
    var r := Take(taken, s.ports, Key(s));
    forall i, x | 0 <= i < n + 1 && Granted(order, i) && x in Slots(order[i]) ensures x in r && r[x] == Key(order[i]) {
      if i < n {
        assert x in taken && x !in Slots(s);
      }
    }
    forall x | x in r ensures HeldBy(order, n + 1, x, r[x]) {
      if x !in Slots(s) {
        assert x in taken;
        StillHeld(order, n, x, taken[x]);
      }
    }
  }

  lemma {:induction false} KeepsHolds(order: seq<Service>, n: nat, taken: map<string, string>)
    requires n < |order| && Holds(order, n, taken) && !Granted(order, n)
    ensures Holds(order, n + 1, taken)
  {
    forall x | x in taken ensures HeldBy(order, n + 1, x, taken[x]) {
      StillHeld(order, n, x, taken[x]);
    }
  }

  lemma {:induction false} NewKey(order: seq<Service>, n: nat, conflicts: map<string, Reason>)
    requires n < |order| && DistinctKeys(order) && Refuses(order, n, conflicts)
    ensures Key(order[n]) !in conflicts
  {
    forall i | 0 <= i < n ensures Key(order[i]) != Key(order[n]) {
    }
  }

  lemma {:induction false} TroubleJustified(order: seq<Service>, i: nat, taken: map<string, string>)
    requires i < |order| && Holds(order, i, taken) && Trouble(order[i].ports, taken).Some?
    ensures Justified(order, i, Trouble(order[i].ports, taken).value)
  {
    var ports, r := order[i].ports, Trouble(order[i].ports, taken).value;
    TroubleWitnessed(ports, taken);
    assert Witnessed(r, ports, taken);
  }

  lemma {:induction false} GrantRefuses(order: seq<Service>, n: nat, conflicts: map<string, Reason>)
    requires n < |order| && DistinctKeys(order) && Refuses(order, n, conflicts) && Granted(order, n)
    ensures Refuses(order, n + 1, conflicts)
  {
    NewKey(order, n, conflicts);
    forall k | k in conflicts ensures exists i :: 0 <= i < n + 1 && k == Key(order[i]) {
      var i :| 0 <= i < n && k == Key(order[i]);
    }
  }

  lemma {:induction false} StaysReported(order: seq<Service>, i: nat, conflicts: map<string, Reason>, key: string,
      r: Reason)
    requires i < |order| && Reported(order, i, conflicts) && Key(order[i]) != key
    ensures Reported(order, i, conflicts[key := r])
  {
  }

  lemma {:induction false} RejectRefuses(order: seq<Service>, n: nat, conflicts: map<string, Reason>, r: Reason)
    requires n < |order| && DistinctKeys(order) && Refuses(order, n, conflicts) && !Granted(order, n)
    requires Justified(order, n, r)
    ensures Refuses(order, n + 1, conflicts[Key(order[n]) := r])
  {
    var c := conflicts[Key(order[n]) := r];
    forall i | 0 <= i < n + 1 ensures Reported(order, i, c) {
      if i < n {
        StaysReported(order, i, conflicts, Key(order[n]), r);
      }
    }
    forall k | k in c ensures exists i :: 0 <= i < n + 1 && k == Key(order[i]) {
      if k in conflicts {
        var i :| 0 <= i < n && k == Key(order[i]);
      }
    }
  }

  /** The state after the first n services. */
  ghost predicate Matches(order: seq<Service>, nodes: seq<string>, n: nat, st: State)
    requires n <= |order|
  {
    st.frontends == Emitted(order, nodes, n) && Holds(order, n, st.taken) && Refuses(order, n, st.conflicts)
  }

  lemma {:induction false} AdmitMatches(order: seq<Service>, nodes: seq<string>, n: nat, st: State)
    requires n < |order| && DistinctKeys(order) && Matches(order, nodes, n, st)
    ensures Matches(order, nodes, n + 1, Admit(st, order[n], nodes))
  {
    GrantedIff(order, n, st.taken);
    NewKey(order, n, st.conflicts);
    if Granted(order, n) {
      AdmitHolds(order, n, st.taken);
      GrantRefuses(order, n, st.conflicts);
    } else {
      KeepsHolds(order, n, st.taken);
      TroubleJustified(order, n, st.taken);
      RejectRefuses(order, n, st.conflicts, Trouble(order[n].ports, st.taken).value);
    }
  }

  /** The loop computes the greedy allocation. */
  lemma {:induction false} AllocateIsGreedy(order: seq<Service>, nodes: seq<string>, n: nat)
    requires n <= |order| && DistinctKeys(order)
    ensures Matches(order, nodes, n, Allocate(order[..n], nodes))
  {
    if n > 0 {
      AllocateIsGreedy(order, nodes, n - 1);
      assert order[..n][..n - 1] == order[..n - 1];
      AdmitMatches(order, nodes, n - 1, Allocate(order[..n - 1], nodes));
    }
  }

  // One stable set.

  /**
   Which services may have their ports, without an order of events: those whose ports are all usable
   and free of every older service that may have its own.
   */
  ghost predicate Stable(services: seq<Service>, keys: set<string>) {
    forall s :: s in services ==>
      (Key(s) in keys <==>
         AllUsable(s) && forall t :: t in services && Before(t, s) && t != s && Key(t) in keys ==> Slots(t) !! Slots(s))
  }

  lemma {:induction false} SortedPosition(order: seq<Service>, i: nat, j: nat)
    requires Ordered(order, Before) && DistinctKeys(order) && i < |order| && j < |order|
    ensures Before(order[j], order[i]) && order[j] != order[i] <==> j < i
  {
    if i < j && Before(order[j], order[i]) {
      BeforeAntisymmetric(order[i], order[j]);
    }
  }

  ghost predicate GrantsAre(order: seq<Service>, keys: set<string>, n: nat)
    requires n <= |order|
  {
    forall i :: 0 <= i < n ==> (Key(order[i]) in keys <==> Granted(order, i))
  }

  lemma {:induction false} StableAt(order: seq<Service>, keys: set<string>, i: nat)
    requires Stable(order, keys) && i < |order|
    ensures Key(order[i]) in keys <==>
              AllUsable(order[i]) &&
              forall t :: t in order && Before(t, order[i]) && t != order[i] && Key(t) in keys ==>
                Slots(t) !! Slots(order[i])
  {
  }

  lemma {:induction false} StableGrants(order: seq<Service>, keys: set<string>, n: nat)
    requires Ordered(order, Before) && DistinctKeys(order) && n <= |order| && Stable(order, keys)
    ensures GrantsAre(order, keys, n)
  {
    if n > 0 {
      StableGrants(order, keys, n - 1);
      StableHere(order, keys, n - 1);
      StableAt(order, keys, n - 1);
    }
  }

  lemma {:induction false} StableHere(order: seq<Service>, keys: set<string>, i: nat)
    requires Ordered(order, Before) && DistinctKeys(order) && i < |order| && GrantsAre(order, keys, i)
    ensures Granted(order, i) <==>
              AllUsable(order[i]) &&
              forall t :: t in order && Before(t, order[i]) && t != order[i] && Key(t) in keys ==>
                Slots(t) !! Slots(order[i])
  {
    forall t | t in order && Before(t, order[i]) && t != order[i] && Key(t) in keys && Granted(order, i)
      ensures Slots(t) !! Slots(order[i])
    {
      var j :| 0 <= j < |order| && order[j] == t;
      SortedPosition(order, i, j);
    }
    if !Granted(order, i) && AllUsable(order[i]) {
      var j :| 0 <= j < i && Granted(order, j) && !(Slots(order[j]) !! Slots(order[i]));
      SortedPosition(order, i, j);
    }
  }

  lemma {:induction false} GrantsStable(order: seq<Service>, keys: set<string>)
    requires Ordered(order, Before) && DistinctKeys(order) && GrantsAre(order, keys, |order|)
    ensures Stable(order, keys)
  {
    forall i | 0 <= i < |order|
      ensures Key(order[i]) in keys <==>
                AllUsable(order[i]) &&
                forall t :: t in order && Before(t, order[i]) && t != order[i] && Key(t) in keys ==>
                    Slots(t) !! Slots(order[i])
    {
      StableHere(order, keys, i);
    }
  }

  /** Exactly one set of services is stable: the granted ones. */
  lemma {:induction false} OneStableSet(services: seq<Service>, order: seq<Service>, keys: set<string>)
    requires SortOf(order, services) && DistinctKeys(order)
    ensures Stable(services, keys) <==> GrantsAre(order, keys, |order|)
  {
    SameMembers(services, order);
    if Stable(services, keys) {
      assert Stable(order, keys);
      StableGrants(order, keys, |order|);
    }
    if GrantsAre(order, keys, |order|) {
      GrantsStable(order, keys);
    }
  }

  lemma {:induction false} SameMembers(a: seq<Service>, b: seq<Service>)
    requires multiset(a) == multiset(b)
    ensures forall s :: s in a <==> s in b
  {
    forall s ensures s in a <==> s in b {
      assert s in a <==> s in multiset(a);
      assert s in b <==> s in multiset(b);
    }
  }

  // The listing order does not matter, and only older services do.

  lemma {:induction false} KeysTellApart(order: seq<Service>)
    requires DistinctKeys(order)
    ensures Antisymmetric(order, Before)
  {
    forall x, y | x in order && y in order && Before(x, y) && Before(y, x) ensures x == y {
      BeforeAntisymmetric(x, y);
    }
  }

  lemma {:induction false} CountOnce(s: seq<Service>, x: Service)
    requires DistinctKeys(s)
    ensures multiset(s)[x] <= 1
  {
    if s != [] {
      var init, last := s[..|s| - 1], s[|s| - 1];
      assert s == init + [last];
      CountOnce(init, x);
      assert x == last ==> x !in init;
    }
  }

  lemma {:induction false} SameKeys(c: seq<Service>, b: seq<Service>)
    requires multiset(c) == multiset(b) && DistinctKeys(c)
    ensures DistinctKeys(b)
  {
    SameMembers(c, b);
    forall i, j | 0 <= i < j < |b| ensures Key(b[i]) != Key(b[j]) {
      if b[i] == b[j] {
        assert b == b[..j] + b[j..];
        assert b[i] in b[..j] && b[i] in b[j..];
        CountOnce(c, b[i]);
      } else {
        assert b[i] in c && b[j] in c;
        var x :| 0 <= x < |c| && c[x] == b[i];
        var y :| 0 <= y < |c| && c[y] == b[j];
        assert x < y || y < x;
      }
    }
  }

  lemma {:induction false} SortKeepsDistinct(order: seq<Service>, services: seq<Service>)
    requires DistinctKeys(services) && SortOf(order, services)
    ensures DistinctKeys(order)
  {
    SameKeys(services, order);
  }

  /** Two listings of the same services, in whatever order, have the same result. */
  lemma {:induction false} ListingOrderIrrelevant(
    a: seq<Service>, b: seq<Service>, nodes: seq<string>,
    f: seq<Frontend>, c: map<string, Reason>, g: seq<Frontend>, d: map<string, Reason>)
    requires multiset(a) == multiset(b) && DistinctKeys(a)
    requires Allocated(a, nodes, f, c) && Allocated(b, nodes, g, d)
    ensures f == g && c == d
  {
    var p :| SortOf(p, a) && Outcome(p, nodes, f, c);
    var q :| SortOf(q, b) && Outcome(q, nodes, g, d);
    SortKeepsDistinct(p, a);
    KeysTellApart(p);
    SortedUnique(p, q, Before);
  }

  lemma {:induction false} SamePosition(p: seq<Service>, q: seq<Service>, s: Service, k: nat)
    requires Ordered(p, Before) && Ordered(q, Before) && DistinctKeys(p) && DistinctKeys(q)
    requires forall t :: Before(t, s) ==> (t in p <==> t in q)
    requires k < |p| && Before(p[k], s) && k <= |q| && p[..k] == q[..k]
    ensures k < |q| && p[k] == q[k]
  {
    assert forall i :: 0 <= i < k ==> p[i] == p[..k][i] && q[i] == q[..k][i];
    assert p[k] in q;
    var m :| 0 <= m < |q| && q[m] == p[k];
    assert m >= k;
    if m > k {
      assert Before(q[k], p[k]);
      BeforeIsTotalOrder();
      assert Before(q[k], s);
      assert q[k] in p;
      var n :| 0 <= n < |p| && p[n] == q[k];
      assert n > k;
      BeforeAntisymmetric(p[k], q[k]);
    }
  }

  lemma {:induction false} SameUpTo(p: seq<Service>, q: seq<Service>, s: Service, i: nat, k: nat)
    requires Ordered(p, Before) && Ordered(q, Before) && DistinctKeys(p) && DistinctKeys(q)
    requires forall t :: Before(t, s) ==> (t in p <==> t in q)
    requires k <= i < |p| && p[i] == s && Before(s, s)
    ensures k < |q| && p[..k + 1] == q[..k + 1]
  {
    if k > 0 {
      SameUpTo(p, q, s, i, k - 1);
    }
    SamePosition(p, q, s, k);
    assert p[..k + 1] == p[..k] + [p[k]] && q[..k + 1] == q[..k] + [q[k]];
  }

  /** If two clusters have the same services up to s, then s fares alike in both. */
  lemma {:induction false} OlderServicesDecide(p: seq<Service>, q: seq<Service>, i: nat, nodes: seq<string>)
    requires Ordered(p, Before) && Ordered(q, Before) && DistinctKeys(p) && DistinctKeys(q) && i < |p|
    requires forall t :: Before(t, p[i]) ==> (t in p <==> t in q)
    ensures i < |q| && q[i] == p[i] && (Granted(p, i) <==> Granted(q, i))
    ensures Allocate(p[..i + 1], nodes) == Allocate(q[..i + 1], nodes)
  {
    LeqTotal(Key(p[i]), Key(p[i]));
    SameUpTo(p, q, p[i], i, i);
    assert p[i] == p[..i + 1][i] && q[i] == q[..i + 1][i];
    GrantedPrefix(p, q, i);
  }

  // More is not monotone.

  function Plain(name: string, created: int, ports: seq<int>): Service {
    Service("ns", name, created, seq(|ports|, k requires 0 <= k < |ports| => Port(ports[k], "TCP", 30000)),
            true, false, "", false, 0)
  }

  lemma PlainSlots(s: Service, p: int)
    requires forall k :: 0 <= k < |s.ports| ==> s.ports[k].protocol == "TCP"
    ensures SlotText(p, "TCP") in Slots(s) <==> exists k :: 0 <= k < |s.ports| && s.ports[k].port == p
  {
    if SlotText(p, "TCP") in Slots(s) {
      var k :| 0 <= k < |s.ports| && SlotText(p, "TCP") == SlotOf(s.ports[k]);
      SlotInjective(p, "TCP", s.ports[k].port, "TCP");
    }
    if k :| 0 <= k < |s.ports| && s.ports[k].port == p {
      assert SlotOf(s.ports[k]) == SlotText(p, "TCP");
    }
  }

  lemma {:induction false} SlotInjective(p: int, proto: string, p': int, proto': string)
    requires SlotText(p, proto) == SlotText(p', proto')
    ensures p == p' && proto == proto'
  {
    var x := SlotText(p, proto);
    SlashIndex(Decimal(p), proto);
    SlashIndex(Decimal(p'), proto');
    var k := IndexOf(x, '/');
    assert Decimal(p) == x[..k] == Decimal(p') && proto == x[k + 1..] == proto';
    DecimalInjective(p, p');
  }

  lemma {:induction false} SlashIndex(d: string, proto: string)
    requires forall k :: 0 <= k < |d| ==> Digit(d[k]) || d[k] == '-'
    ensures IndexOf(d + "/" + proto, '/') == |d|
  {
    IndexOfIs(d, '/', proto);
    assert d + "/" + proto == d + ['/'] + proto;
  }

  lemma {:induction false} PairGranted(s: Service, t: Service)
    requires AllUsable(s) && AllUsable(t)
    ensures Granted([s, t], 0) && (Granted([s, t], 1) <==> Slots(s) !! Slots(t))
  {
  }

  lemma {:induction false} TripleGranted(s: Service, t: Service, u: Service)
    requires AllUsable(s) && AllUsable(u) && !(Slots(s) !! Slots(t)) && Slots(s) !! Slots(u)
    ensures Granted([s, t, u], 2)
  {
    var order := [s, t, u];
    assert order[0] == s && order[1] == t && order[2] == u;
    assert Granted(order, 0) && !Granted(order, 1);
  }

  /** Removing the oldest service can cost another one its ports. */
  lemma RemovalCanReject()
    ensures var a, b, c := Plain("a", 1, [80]), Plain("b", 2, [80, 443]), Plain("c", 3, [443]);
            Granted([a, b, c], 2) && !Granted([b, c], 1)
  {
    var a, b, c := Plain("a", 1, [80]), Plain("b", 2, [80, 443]), Plain("c", 3, [443]);
    var x, y := SlotText(80, "TCP"), SlotText(443, "TCP");
    assert a.ports[0].port == 80 && b.ports[0].port == 80 && b.ports[1].port == 443 && c.ports[0].port == 443;
    PlainSlots(a, 80);
    PlainSlots(b, 80);
    PlainSlots(b, 443);
    PlainSlots(c, 443);
    PlainSlots(a, 443);
    assert x in Slots(a) && x in Slots(b) && y in Slots(b) && y in Slots(c);
    assert Slots(a) == {x} && Slots(c) == {y} && x != y;
    TripleGranted(a, b, c);
    PairGranted(b, c);
  }
}
