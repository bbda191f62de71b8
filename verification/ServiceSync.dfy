/**
 The service load balancer as the cloud controller manager drives it. A mutex makes each
 synchronisation one step, so every interleaving of calls is a sequence of calls of these methods,
 each with whatever listing the API server gives at that moment.
 */
module ServiceSync {
  import opened Prelude
  import opened Owners
  import opened Text
  import opened Allocator
  import opened Greedy
  import opened Listeners

  type Svc = Allocator.Service

  datatype AddressType = InternalIP | ExternalIP | OtherAddress

  datatype Address = Address(kind: AddressType, text: string)

  datatype Node = Node(excluded: bool, deleting: bool, addresses: seq<Address>)

  /** The secret that tells where the load balancer is. */
  datatype Secret = Readable | Absent | Unreadable

  /** How handing files to the load balancer ends; a failure may come after they were installed. */
  datatype Delivery = Delivered | Lost(installed: bool) {
    predicate Arrives() {
      Delivered? || installed
    }
  }

  // Backends.

  function FirstOf(addresses: seq<Address>, kind: AddressType): string {
    if addresses == [] then ""
    else if addresses[0].kind == kind && addresses[0].text != "" then addresses[0].text
    else FirstOf(addresses[1..], kind)
  }

  function NodeAddress(n: Node): string {
    var a := FirstOf(n.addresses, InternalIP);
    if a != "" then a else FirstOf(n.addresses, ExternalIP)
  }

  predicate Serves(n: Node) {
    !n.excluded && !n.deleting && NodeAddress(n) != ""
  }

  function Addresses(nodes: seq<Node>): seq<string> {
    if nodes == [] then []
    else Addresses(nodes[..|nodes| - 1]) + if Serves(nodes[|nodes| - 1]) then [NodeAddress(nodes[|nodes| - 1])] else []
  }

  method BackendNodes(nodes: seq<Node>) returns (r: seq<string>)
    ensures BackendsFor(r, nodes)
  {
    var out := [];
    for i := 0 to |nodes|
      invariant out == Addresses(nodes[..i])
    {
      assert nodes[..i + 1][..i] == nodes[..i];
      if nodes[i].excluded {
        continue;
      }
      if nodes[i].deleting {
        continue;
      }
      if NodeAddress(nodes[i]) != "" {
        out := out + [NodeAddress(nodes[i])];
      }
    }
    assert nodes[..|nodes|] == nodes;
    LeqIsTotalOrder();
    r := SortFunc(out, Leq);
  }

  /** The addresses of the serving nodes, in order. */
  ghost predicate BackendsFor(r: seq<string>, nodes: seq<Node>) {
    Ordered(r, Leq) && multiset(r) == multiset(Addresses(nodes))
  }

  // Which services take part.

  predicate TakesPart(s: Svc, current: Option<Svc>, skip: set<string>) {
    && s.balanced && !s.deleting && Key(s) !in skip
    && !(current.Some? && s.ns == current.value.ns && s.name == current.value.name)
  }

  function Kept(listing: seq<Svc>, current: Option<Svc>, skip: set<string>): seq<Svc> {
    if listing == [] then []
    else
      var s := listing[|listing| - 1];
      Kept(listing[..|listing| - 1], current, skip) + if TakesPart(s, current, skip) then [s] else []
  }

  function Candidates(listing: seq<Svc>, current: Option<Svc>, skip: set<string>): seq<Svc> {
    Kept(listing, current, skip) + if current.Some? then [current.value] else []
  }

  /** What the API server guarantees of a listing: names are unique and slash-free, ports listed once. */
  ghost predicate FromApi(listing: seq<Svc>) {
    && (forall s :: s in listing ==> '/' !in s.ns && OwnSlotsDistinct(s))
    && (forall i, j :: 0 <= i < j < |listing| ==> listing[i].ns != listing[j].ns || listing[i].name != listing[j].name)
  }

  ghost predicate CurrentFromApi(current: Option<Svc>) {
    current.Some? ==> '/' !in current.value.ns && OwnSlotsDistinct(current.value)
  }

  lemma KeyInjective(a: Svc, b: Svc)
    requires '/' !in a.ns && '/' !in b.ns && Key(a) == Key(b)
    ensures a.ns == b.ns && a.name == b.name
  {
    var k := Key(a);
    FirstSlashEndsNamespace(a.ns, a.name);
    FirstSlashEndsNamespace(b.ns, b.name);
    assert a.ns == k[..|a.ns|] && a.name == k[|a.ns| + 1..];
    assert b.ns == k[..|b.ns|] && b.name == k[|b.ns| + 1..];
  }

  lemma {:induction false} KeptMembers(listing: seq<Svc>, current: Option<Svc>, skip: set<string>, s: Svc)
    ensures s in Kept(listing, current, skip) <==> s in listing && TakesPart(s, current, skip)
  {
    if listing != [] {
      var init, last := listing[..|listing| - 1], listing[|listing| - 1];
      KeptMembers(init, current, skip, s);
      assert listing == init + [last];
    }
  }

  lemma {:induction false} KeptDistinct(listing: seq<Svc>, current: Option<Svc>, skip: set<string>)
    requires FromApi(listing)
    ensures DistinctKeys(Kept(listing, current, skip))
  {
    if listing != [] {
      var init, last := listing[..|listing| - 1], listing[|listing| - 1];
      var kept := Kept(init, current, skip);
      assert FromApi(init) by {
        assert forall s :: s in init ==> s in listing;
      }
      KeptDistinct(init, current, skip);
      forall s | s in kept ensures Key(s) != Key(last) {
        KeptMembers(init, current, skip, s);
        var i :| 0 <= i < |init| && init[i] == s;
        assert s == listing[i] && last in listing;
        if Key(s) == Key(last) {
          KeyInjective(s, last);
        }
      }
    }
  }

  lemma {:induction false} CandidatesDistinct(listing: seq<Svc>, current: Option<Svc>, skip: set<string>)
    requires FromApi(listing) && CurrentFromApi(current)
    ensures DistinctKeys(Candidates(listing, current, skip))
    ensures forall s :: s in Candidates(listing, current, skip) ==> OwnSlotsDistinct(s)
  {
    var kept := Kept(listing, current, skip);
    KeptDistinct(listing, current, skip);
    forall s | s in kept ensures OwnSlotsDistinct(s) && (current.Some? ==> Key(s) != Key(current.value)) {
      KeptMembers(listing, current, skip, s);
      if current.Some? && Key(s) == Key(current.value) {
        KeyInjective(s, current.value);
      }
    }
  }

  lemma {:induction false} GrantedEmits(order: seq<Svc>, nodes: seq<string>, n: nat, i: nat, k: nat)
    requires i < n <= |order| && Granted(order, i) && k < |order[i].ports|
    ensures FrontendFor(order[i], order[i].ports[k], nodes) in Emitted(order, nodes, n)
  {
    if i == n - 1 {
      assert FrontendsOf(order[i], nodes)[k] in FrontendsOf(order[i], nodes);
    } else {
      GrantedEmits(order, nodes, n - 1, i, k);
    }
  }

  /** Has its ports in this order of services. */
  ghost predicate Wins(order: seq<Svc>, s: Svc) {
    exists i :: 0 <= i < |order| && order[i] == s && Granted(order, i)
  }

  /** A configuration of services that take part, and of no one else. */
  ghost predicate OnlyFrom(fs: seq<Frontend>, services: seq<Svc>, nodes: seq<string>) {
    forall a :: 0 <= a < |fs| ==>
      exists s, k :: s in services && 0 <= k < |s.ports| && fs[a] == FrontendFor(s, s.ports[k], nodes)
  }

  lemma {:induction false} EmittedOnlyFrom(order: seq<Svc>, services: seq<Svc>, nodes: seq<string>)
    requires SortOf(order, services)
    ensures OnlyFrom(Emitted(order, nodes, |order|), services, nodes)
  {
    SameMembers(order, services);
    var fs := Emitted(order, nodes, |order|);
    forall a | 0 <= a < |fs|
      ensures exists s, k :: s in services && 0 <= k < |s.ports| && fs[a] == FrontendFor(s, s.ports[k], nodes)
    {
      var i, k := EmittedFrom(order, nodes, |order|, a);
      assert order[i] in services;
    }
  }

  /** What the allocation gives for a set of candidates, all at once. */
  lemma {:induction false} AllocationFacts(order: seq<Svc>, services: seq<Svc>, nodes: seq<string>,
      current: Option<Svc>)
    requires SortOf(order, services) && DistinctKeys(services) && (forall s :: s in services ==> OwnSlotsDistinct(s))
    requires current.Some? ==> current.value in services
    ensures var st := Allocate(order, nodes);
            && st.frontends == Emitted(order, nodes, |order|)
            && SlotsDistinct(st.frontends) && OnlyFrom(st.frontends, services, nodes)
            && (current.Some? ==> (Key(current.value) in st.conflicts <==> !Wins(order, current.value)))
  {
    SortKeepsDistinct(order, services);
    SameMembers(order, services);
    AllocateIsGreedy(order, nodes, |order|);
    assert order[..|order|] == order;
    EmittedDistinct(order, nodes, |order|);
    EmittedOnlyFrom(order, services, nodes);
    if current.Some? {
      var i :| 0 <= i < |order| && order[i] == current.value;
      assert Reported(order, i, Allocate(order, nodes).conflicts);
    }
  }

  /** The services to be served: the listed ones that take part, then the one being ensured as it now is. */
  method Gather(listing: seq<Svc>, current: Option<Svc>, deleting: seq<Svc>) returns (all: seq<Svc>)
    ensures all == Candidates(listing, current, set x | x in deleting :: Key(x))
  {
    var skip: set<string> := {};
    for i := 0 to |deleting|
      invariant skip == set x | x in deleting[..i] :: Key(x)
    {
      skip := skip + {Key(deleting[i])};
    }
    assert deleting[..|deleting|] == deleting;
    all := [];
    for i := 0 to |listing|
      invariant all == Kept(listing[..i], current, skip)
    {
      assert listing[..i + 1][..i] == listing[..i];
      var s := listing[i];
      if !s.balanced || Key(s) in skip || s.deleting {
        continue;
      }
      if current.Some? && s.ns == current.value.ns && s.name == current.value.name {
        continue;
      }
      all := all + [s];
    }
    assert listing[..|listing|] == listing;
    if current.Some? {
      all := all + [current.value];
    }
  }

  class ServiceBalancer {
    /** What the load balancer serves. */
    var installed: seq<Frontend>
    /** Every configuration ever handed to it. */
    ghost var sent: seq<seq<Frontend>>

    constructor ()
      ensures Valid() && installed == [] && sent == []
    {
      installed, sent := [], [];
    }

    ghost predicate Valid()
      reads this
    {
      (forall c :: c in sent ==> SlotsDistinct(c)) && (installed == [] || installed in sent)
    }

    method UpdateFiles(fs: seq<Frontend>, d: Delivery) returns (ok: bool)
      requires Valid() && SlotsDistinct(fs)
      modifies this
      ensures Valid() && ok == d.Delivered? && sent == old(sent) + [fs]
      ensures installed == if d.Arrives() then fs else old(installed)
    {
      sent := sent + [fs];
      if d.Arrives() {
        installed := fs;
      }
      return d.Delivered?;
    }

    method Sync(listing: Result<seq<Svc>>, nodes: Result<seq<Node>>, current: Option<Svc>, deleting: seq<Svc>,
        d: Delivery)
      returns (ok: bool, ghost order: seq<Svc>, ghost backends: seq<string>)
      requires Valid() && (listing.Ok? ==> FromApi(listing.value)) && CurrentFromApi(current)
      modifies this
      ensures Valid()
      ensures listing.Ok? && nodes.Ok? ==>
                && SortOf(order, Candidates(listing.value, current, set x | x in deleting :: Key(x)))
                && BackendsFor(backends, nodes.value)
      ensures var go := listing.Ok? && nodes.Ok? && (current.Some? ==> Wins(order, current.value));
              && ok == (go && d.Delivered?)
              && sent == old(sent) + (if go then [Emitted(order, backends, |order|)] else [])
              && installed == (if go && d.Arrives() then Emitted(order, backends, |order|) else old(installed))
    {
      order, backends := [], [];
      if listing.Err? || nodes.Err? {
        return false, order, backends;
      }
      var addresses := BackendNodes(nodes.value);
      backends := addresses;

      var all := Gather(listing.value, current, deleting);
      CandidatesDistinct(listing.value, current, set x | x in deleting :: Key(x));

      var frontends, conflicts := Frontends(all, addresses);
      order :| SortOf(order, all) && Outcome(order, addresses, frontends, conflicts);
      AllocationFacts(order, all, addresses, current);
      if current.Some? && Key(current.value) in conflicts {
        return false, order, backends;
      }
      ok := UpdateFiles(frontends, d);
    }

    /** Succeeds exactly if the service wins its ports; then each of them has its listener. */
    method EnsureLoadBalancer(secret: Secret, listing: Result<seq<Svc>>, nodes: Result<seq<Node>>, s: Svc,
        d: Delivery)
      returns (ok: bool, ghost order: seq<Svc>, ghost backends: seq<string>)
      requires Valid() && (listing.Ok? ==> FromApi(listing.value)) && CurrentFromApi(Some(s))
      modifies this
      ensures Valid()
      ensures secret.Readable? && listing.Ok? && nodes.Ok? ==>
                SortOf(order, Candidates(listing.value, Some(s), {})) && BackendsFor(backends, nodes.value)
      ensures var go := secret.Readable? && listing.Ok? && nodes.Ok? && Wins(order, s);
              && ok == (go && d.Delivered?)
              && sent == old(sent) + (if go then [Emitted(order, backends, |order|)] else [])
              && (!(go && d.Arrives()) ==> installed == old(installed))
      ensures ok ==> installed == Emitted(order, backends, |order|) && SlotsDistinct(installed)
      ensures ok ==> forall k :: 0 <= k < |s.ports| ==> FrontendFor(s, s.ports[k], backends) in installed
    {
      order, backends := [], [];
      if !secret.Readable? {
        return false, order, backends;
      }
      assert (set x: Svc | x in [] :: Key(x)) == {};
      ok, order, backends := Sync(listing, nodes, Some(s), [], d);
      if ok {
        ghost var i :| 0 <= i < |order| && order[i] == s && Granted(order, i);
        forall k | 0 <= k < |s.ports| ensures FrontendFor(s, s.ports[k], backends) in installed {
          GrantedEmits(order, backends, |order|, i, k);
        }
      }
    }

    /** Without the secret there is no load balancer left to clean. Otherwise nothing is served for s any more. */
    method EnsureLoadBalancerDeleted(secret: Secret, listing: Result<seq<Svc>>, nodes: Result<seq<Node>>, s: Svc,
        d: Delivery)
      returns (ok: bool, ghost order: seq<Svc>, ghost backends: seq<string>)
      requires Valid() && (listing.Ok? ==> FromApi(listing.value))
      modifies this
      ensures Valid()
      ensures ok <==> secret.Absent? || (secret.Readable? && listing.Ok? && nodes.Ok? && d.Delivered?)
      ensures secret.Absent? ==> installed == old(installed) && sent == old(sent)
      ensures secret.Readable? && ok ==>
                && SortOf(order, Candidates(listing.value, None, {Key(s)})) && BackendsFor(backends, nodes.value)
                && installed == Emitted(order, backends, |order|) && SlotsDistinct(installed)
                && OnlyFrom(installed, order, backends)
                && (forall t :: t in order ==> t in listing.value && t.balanced && !t.deleting && Key(t) != Key(s))
    {
      order, backends := [], [];
      if secret.Absent? {
        return true, order, backends;
      }
      if secret.Unreadable? {
        return false, order, backends;
      }
      assert (set x | x in [s] :: Key(x)) == {Key(s)};
      ok, order, backends := Sync(listing, nodes, None, [s], d);
      if ok {
        ghost var remaining := Candidates(listing.value, None, {Key(s)});
        EmittedOnlyFrom(order, order, backends);
        SameMembers(order, remaining);
        forall t | t in order ensures t in listing.value && t.balanced && !t.deleting && Key(t) != Key(s) {
          KeptMembers(listing.value, None, {Key(s)}, t);
        }
      }
    }
  }
}
