/**
 What removing one service does to the others. A service without ports leaves nothing behind; the
 ports of a granted one may go to services that had none, and these may push out younger ones.
 */
module Removal {
  import opened Text
  import opened Allocator
  import opened Greedy

  /** `b` lists the services of `a` but for `r`. */
  ghost predicate Lacks(a: seq<Service>, b: seq<Service>, r: Service) {
    multiset(a) == multiset(b) + multiset{r}
  }

  // Removing from the sorted order.

  function Without(p: seq<Service>, k: nat): seq<Service>
    requires k < |p|
  {
    p[..k] + p[k + 1..]
  }

  lemma {:induction false} WithoutMembers(p: seq<Service>, k: nat)
    requires k < |p|
    ensures multiset(p) == multiset(Without(p, k)) + multiset{p[k]}
  {
    assert p == p[..k] + [p[k]] + p[k + 1..];
  }

  lemma {:induction false} WithoutOrdered(p: seq<Service>, k: nat)
    requires k < |p| && Ordered(p, Before)
    ensures Ordered(Without(p, k), Before)
  {
  }

  lemma SameRest(x: multiset<Service>, y: multiset<Service>, r: Service)
    requires x + multiset{r} == y + multiset{r}
    ensures x == y
  {
    assert x == x + multiset{r} - multiset{r};
    assert y == y + multiset{r} - multiset{r};
  }

  lemma {:induction false} LacksMembers(a: seq<Service>, b: seq<Service>, r: Service)
    requires DistinctKeys(a) && Lacks(a, b, r)
    ensures r in a && forall s :: s in b <==> s in a && s != r
  {
    assert r in multiset(a);
    forall s ensures s in b <==> s in a && s != r {
      assert s in a <==> s in multiset(a);
      assert s in b <==> s in multiset(b);
      CountOnce(a, s);
    }
  }

  lemma {:induction false} WithoutDistinct(a: seq<Service>, k: nat)
    requires DistinctKeys(a) && k < |a|
    ensures DistinctKeys(Without(a, k))
  {
  }

  lemma {:induction false} LacksDistinct(a: seq<Service>, b: seq<Service>, r: Service)
    requires DistinctKeys(a) && Lacks(a, b, r)
    ensures DistinctKeys(b) && (forall s :: s in b <==> s in a && s != r)
    ensures forall s :: s in b ==> Key(s) != Key(r)
  {
    LacksMembers(a, b, r);
    var i :| 0 <= i < |a| && a[i] == r;
    forall s | s in b ensures Key(s) != Key(r) {
      var j :| 0 <= j < |a| && a[j] == s;
      assert i < j || j < i;
    }
    WithoutMembers(a, i);
    WithoutDistinct(a, i);
    SameRest(multiset(Without(a, i)), multiset(b), r);
    SameKeys(Without(a, i), b);
  }

  /** The sorted order of the rest is the sorted order with one service taken out. */
  lemma {:induction false} SortWithout(a: seq<Service>, p: seq<Service>, b: seq<Service>, q: seq<Service>, r: Service)
    returns (k: nat)
    requires DistinctKeys(a) && Lacks(a, b, r) && SortOf(p, a) && SortOf(q, b)
    ensures k < |p| && p[k] == r && q == Without(p, k)
  {
    assert r in multiset(p);
    k :| 0 <= k < |p| && p[k] == r;
    WithoutMembers(p, k);
    WithoutOrdered(p, k);
    LacksDistinct(a, b, r);
    SortKeepsDistinct(q, b);
    KeysTellApart(q);
    SameRest(multiset(q), multiset(Without(p, k)), r);
    SortedUnique(q, Without(p, k), Before);
  }

  // A service that has no ports.

  ghost predicate Apart(st: State, st': State, key: string) {
    st'.frontends == st.frontends && st'.taken == st.taken && st'.conflicts == st.conflicts - {key}
  }

  lemma {:induction false} AdmitApart(st: State, st': State, s: Service, nodes: seq<string>, key: string)
    requires Apart(st, st', key) && Key(s) != key
    ensures Apart(Admit(st, s, nodes), Admit(st', s, nodes), key)
  {
  }

  lemma {:induction false} RejectedLeavesApart(p: seq<Service>, k: nat, nodes: seq<string>)
    requires k < |p| && DistinctKeys(p) && !Granted(p, k)
    ensures var st := Allocate(p[..k], nodes); Apart(Admit(st, p[k], nodes), st, Key(p[k]))
  {
    var st := Allocate(p[..k], nodes);
    AllocateIsGreedy(p, nodes, k);
    GrantedIff(p, k, st.taken);
    NewKey(p, k, st.conflicts);
  }

  lemma {:induction false} AllocateLast(q: seq<Service>, s: Service, nodes: seq<string>)
    ensures Allocate(q + [s], nodes) == Admit(Allocate(q, nodes), s, nodes)
  {
    assert (q + [s])[..|q|] == q;
  }

  lemma {:induction false} RejectedRemoved(p: seq<Service>, k: nat, nodes: seq<string>, n: nat)
    requires k < n <= |p| && DistinctKeys(p) && !Granted(p, k)
    ensures Apart(Allocate(p[..n], nodes), Allocate(Without(p[..n], k), nodes), Key(p[k]))
  {
    var m := n - 1;
    assert p[..n] == p[..m] + [p[m]];
    AllocateLast(p[..m], p[m], nodes);
    if m == k {
      assert Without(p[..n], k) == p[..k];
      RejectedLeavesApart(p, k, nodes);
    } else {
      RejectedRemoved(p, k, nodes, m);
      var q := Without(p[..m], k);
      assert Without(p[..n], k) == q + [p[m]];
      AllocateLast(q, p[m], nodes);
      AdmitApart(Allocate(p[..m], nodes), Allocate(q, nodes), p[m], nodes, Key(p[k]));
    }
  }

  /** Reported are exactly the services without their ports. */
  lemma {:induction false} ReportedIff(p: seq<Service>, nodes: seq<string>, f: seq<Frontend>,
      c: map<string, Reason>, i: nat)
    requires DistinctKeys(p) && Outcome(p, nodes, f, c) && i < |p|
    ensures Key(p[i]) in c <==> !Granted(p, i)
  {
    AllocateIsGreedy(p, nodes, |p|);
    assert p[..|p|] == p;
    assert Reported(p, i, c);
  }

  /** Removing a service that had no ports changes nothing for the others, down to the last message. */
  lemma {:induction false} RejectedRemovalChangesNothing(
    a: seq<Service>, b: seq<Service>, r: Service, nodes: seq<string>,
    f: seq<Frontend>, c: map<string, Reason>, g: seq<Frontend>, d: map<string, Reason>)
    requires DistinctKeys(a) && Lacks(a, b, r) && Allocated(a, nodes, f, c) && Allocated(b, nodes, g, d)
    requires Key(r) in c
    ensures g == f && d == c - {Key(r)}
  {
    var p :| SortOf(p, a) && Outcome(p, nodes, f, c);
    var q :| SortOf(q, b) && Outcome(q, nodes, g, d);
    SortKeepsDistinct(p, a);
    var k := SortWithout(a, p, b, q, r);
    ReportedIff(p, nodes, f, c, k);
    RejectedRemoved(p, k, nodes, |p|);
    assert p[..|p|] == p;
  }

  // A service that had its ports.

  /** The services that have their ports, by key. */
  ghost function GrantedKeys(a: seq<Service>, c: map<string, Reason>): set<string> {
    set i | 0 <= i < |a| && Key(a[i]) !in c :: Key(a[i])
  }

  lemma {:induction false} GrantedKeyIff(a: seq<Service>, c: map<string, Reason>, s: Service)
    requires s in a
    ensures Key(s) in GrantedKeys(a, c) <==> Key(s) !in c
  {
    var i :| 0 <= i < |a| && a[i] == s;
  }

  lemma {:induction false} AllocatedStable(a: seq<Service>, nodes: seq<string>, f: seq<Frontend>,
      c: map<string, Reason>)
    requires DistinctKeys(a) && Allocated(a, nodes, f, c)
    ensures Stable(a, GrantedKeys(a, c))
  {
    var p :| SortOf(p, a) && Outcome(p, nodes, f, c);
    SortKeepsDistinct(p, a);
    SameMembers(a, p);
    var keys := GrantedKeys(a, c);
    forall i | 0 <= i < |p| ensures Key(p[i]) in keys <==> Granted(p, i) {
      ReportedIff(p, nodes, f, c, i);
      assert p[i] in a;
      GrantedKeyIff(a, c, p[i]);
    }
    OneStableSet(a, p, keys);
  }

  /** Newly granted, older than s, and in its way. */
  ghost predicate PushesOut(t: Service, s: Service, c: map<string, Reason>, d: map<string, Reason>) {
    Before(t, s) && t != s && Key(t) in c && Key(t) !in d && !(Slots(t) !! Slots(s))
  }

  lemma {:induction false} PushedOut(a: seq<Service>, b: seq<Service>, r: Service, s: Service,
      c: map<string, Reason>, d: map<string, Reason>)
    requires DistinctKeys(a) && Lacks(a, b, r) && Stable(a, GrantedKeys(a, c)) && Stable(b, GrantedKeys(b, d))
    requires s in b && Key(s) !in c && Key(s) in d
    ensures exists t :: t in b && PushesOut(t, s, c, d)
  {
    LacksDistinct(a, b, r);
    GrantedKeyIff(a, c, s);
    GrantedKeyIff(b, d, s);
    var t :| t in b && Before(t, s) && t != s && Key(t) in GrantedKeys(b, d) && !(Slots(t) !! Slots(s));
    GrantedKeyIff(a, c, t);
    GrantedKeyIff(b, d, t);
    assert PushesOut(t, s, c, d);
  }

  lemma {:induction false} PushingOut(b: seq<Service>, t: Service, s: Service, c: map<string, Reason>,
      d: map<string, Reason>)
    requires Stable(b, GrantedKeys(b, d)) && s in b && t in b && PushesOut(t, s, c, d)
    ensures Key(s) in d
  {
    GrantedKeyIff(b, d, s);
    GrantedKeyIff(b, d, t);
  }

  /**
   After any removal, a service that had its ports loses them if and only if an older service has been
   newly granted a slot of it.
   */
  lemma {:induction false} LosesIffPushedOut(
    a: seq<Service>, b: seq<Service>, r: Service, s: Service, nodes: seq<string>,
    f: seq<Frontend>, c: map<string, Reason>, g: seq<Frontend>, d: map<string, Reason>)
    requires DistinctKeys(a) && Lacks(a, b, r) && Allocated(a, nodes, f, c) && Allocated(b, nodes, g, d)
    requires s in b && Key(s) !in c
    ensures Key(s) in d <==> exists t :: t in b && PushesOut(t, s, c, d)
  {
    LacksDistinct(a, b, r);
    AllocatedStable(a, nodes, f, c);
    AllocatedStable(b, nodes, g, d);
    if Key(s) in d {
      PushedOut(a, b, r, s, c, d);
    }
    if t :| t in b && PushesOut(t, s, c, d) {
      PushingOut(b, t, s, c, d);
    }
  }

  // What a caller can see from the listing.

  lemma {:induction false} OlderUnmoved(a: seq<Service>, b: seq<Service>, r: Service, t: Service, nodes: seq<string>,
      f: seq<Frontend>, c: map<string, Reason>, g: seq<Frontend>, d: map<string, Reason>)
    requires DistinctKeys(a) && Lacks(a, b, r) && Allocated(a, nodes, f, c) && Allocated(b, nodes, g, d)
    requires t in b && Before(t, r)
    ensures Key(t) in c <==> Key(t) in d
  {
    var p :| SortOf(p, a) && Outcome(p, nodes, f, c);
    var q :| SortOf(q, b) && Outcome(q, nodes, g, d);
    LacksDistinct(a, b, r);
    SortKeepsDistinct(p, a);
    SortKeepsDistinct(q, b);
    SameMembers(a, p);
    SameMembers(b, q);
    var i :| 0 <= i < |p| && p[i] == t;
    forall u | Before(u, t) ensures u in p <==> u in q {
      if u == r {
        BeforeAntisymmetric(r, t);
      }
    }
    OlderServicesDecide(p, q, i, nodes);
    ReportedIff(p, nodes, f, c, i);
    ReportedIff(q, nodes, g, d, i);
  }

  /** Usable, younger than the removed service, older than s, and asking for a slot of it. */
  ghost predicate Threatens(t: Service, r: Service, s: Service) {
    AllUsable(t) && !Before(t, r) && Before(t, s) && t != s && !(Slots(t) !! Slots(s))
  }

  /** Without such a service in the listing, s keeps its ports. */
  lemma {:induction false} SafeRemoval(
    a: seq<Service>, b: seq<Service>, r: Service, s: Service, nodes: seq<string>,
    f: seq<Frontend>, c: map<string, Reason>, g: seq<Frontend>, d: map<string, Reason>)
    requires DistinctKeys(a) && Lacks(a, b, r) && Allocated(a, nodes, f, c) && Allocated(b, nodes, g, d)
    requires s in b && Key(s) !in c && forall t :: t in b ==> !Threatens(t, r, s)
    ensures Key(s) !in d
  {
    LosesIffPushedOut(a, b, r, s, nodes, f, c, g, d);
    if t :| t in b && PushesOut(t, s, c, d) {
      LacksDistinct(a, b, r);
      if Before(t, r) {
        OlderUnmoved(a, b, r, t, nodes, f, c, g, d);
      }
      AllocatedStable(b, nodes, g, d);
      GrantedKeyIff(b, d, t);
      assert Threatens(t, r, s);
    }
  }
}
