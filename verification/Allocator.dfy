/**
 The ports of one shared load balancer, handed out to services of type LoadBalancer: oldest service
 first, and all of a service's ports or none.
 */
module Allocator {
  import opened Prelude
  import opened Owners
  import opened Text

  datatype Port = Port(port: int, protocol: string, nodePort: int)

  datatype Service = Service(
    ns: string, name: string, created: int, ports: seq<Port>,
    balanced: bool, deleting: bool, proxyProtocol: string, localTraffic: bool, healthPort: int)

  datatype Backend = Backend(address: string, port: int)

  datatype Frontend = Frontend(
    name: string, protocol: string, port: int, proxyProtocol: bool, healthPort: int, backends: seq<Backend>)

  datatype Reason = Unsupported(protocol: string) | NoNodePort(port: int) | Taken(slot: string, holder: string)

  function Key(s: Service): string {
    s.ns + "/" + s.name
  }

  function Protocol(p: Port): string {
    if p.protocol == "" then "TCP" else p.protocol
  }

  function SlotText(port: int, protocol: string): string {
    Decimal(port) + "/" + protocol
  }

  function SlotOf(p: Port): string {
    SlotText(p.port, Protocol(p))
  }

  function FrontendSlot(f: Frontend): string {
    SlotText(f.port, f.protocol)
  }

  // Names.

  function Sanitize(s: string): (r: string)
    ensures |r| == |s|
  {
    seq(|s|, i requires 0 <= i < |s| => if s[i] == '-' || s[i] == '.' then '_' else s[i])
  }

  function FrontendName(s: Service, p: Port): string {
    var proto := if p.protocol == "" then "tcp" else Lower(p.protocol);
    Sanitize(s.ns) + "_" + Sanitize(s.name) + "_" + Decimal(p.port) + "_" + proto
  }

  function FrontendFor(s: Service, p: Port, nodes: seq<string>): Frontend {
    Frontend(FrontendName(s, p), Protocol(p), p.port, Lower(s.proxyProtocol) == "true",
             if s.localTraffic then s.healthPort else 0,
             seq(|nodes|, i requires 0 <= i < |nodes| => Backend(nodes[i], p.nodePort)))
  }

  function FrontendsOf(s: Service, nodes: seq<string>): (r: seq<Frontend>)
    ensures |r| == |s.ports|
  {
    seq(|s.ports|, k requires 0 <= k < |s.ports| => FrontendFor(s, s.ports[k], nodes))
  }

  // What a service asks for.

  predicate Usable(p: Port) {
    (Protocol(p) == "TCP" || Protocol(p) == "UDP") && p.nodePort != 0
  }

  ghost predicate AllUsable(s: Service) {
    forall k :: 0 <= k < |s.ports| ==> Usable(s.ports[k])
  }

  ghost function Slots(s: Service): set<string> {
    set k | 0 <= k < |s.ports| :: SlotOf(s.ports[k])
  }

  /** The services of one cluster have different keys. */
  ghost predicate DistinctKeys(services: seq<Service>) {
    forall i, j :: 0 <= i < j < |services| ==> Key(services[i]) != Key(services[j])
  }

  // Oldest first; services of one age by key.

  predicate Before(a: Service, b: Service) {
    a.created < b.created || (a.created == b.created && Leq(Key(a), Key(b)))
  }

  lemma BeforeIsTotalOrder()
    ensures TotalOrder(Before)
  {
    LeqIsTotalOrder();
  }

  lemma BeforeAntisymmetric(a: Service, b: Service)
    requires Before(a, b) && Before(b, a)
    ensures Key(a) == Key(b)
  {
    LeqAntisymmetric(Key(a), Key(b));
  }

  /** `order` is the services, sorted. */
  ghost predicate SortOf(order: seq<Service>, services: seq<Service>) {
    Ordered(order, Before) && multiset(order) == multiset(services)
  }

  // The loop over the sorted services, one service at a time.

  datatype State = State(frontends: seq<Frontend>, conflicts: map<string, Reason>, taken: map<string, string>)

  const EMPTY := State([], map[], map[])

  function PortTrouble(p: Port, taken: map<string, string>): Option<Reason> {
    if Protocol(p) != "TCP" && Protocol(p) != "UDP" then Some(Unsupported(Protocol(p)))
    else if p.nodePort == 0 then Some(NoNodePort(p.port))
    else if SlotOf(p) in taken then Some(Taken(SlotOf(p), taken[SlotOf(p)]))
    else None
  }

  /** What the first port in trouble reports. */
  function Trouble(ports: seq<Port>, taken: map<string, string>): Option<Reason> {
    if ports == [] then None
    else if PortTrouble(ports[0], taken).Some? then PortTrouble(ports[0], taken)
    else Trouble(ports[1..], taken)
  }

  function Take(taken: map<string, string>, ports: seq<Port>, key: string): map<string, string> {
    if ports == [] then taken
    else Take(taken, ports[..|ports| - 1], key)[SlotOf(ports[|ports| - 1]) := key]
  }

  function Admit(st: State, s: Service, nodes: seq<string>): State {
    var key, trouble := Key(s), Trouble(s.ports, st.taken);
    if trouble.Some? then st.(conflicts := st.conflicts[key := trouble.value])
    else if key in st.conflicts then st
    else State(st.frontends + FrontendsOf(s, nodes), st.conflicts, Take(st.taken, s.ports, key))
  }

  function Allocate(order: seq<Service>, nodes: seq<string>): State {
    if order == [] then EMPTY
    else Admit(Allocate(order[..|order| - 1], nodes), order[|order| - 1], nodes)
  }

  // The loops.

  lemma {:induction false} TroubleAt(ports: seq<Port>, taken: map<string, string>, k: nat)
    requires k <= |ports| && forall i :: 0 <= i < k ==> PortTrouble(ports[i], taken).None?
    ensures k == |ports| ==> Trouble(ports, taken).None?
    ensures k < |ports| && PortTrouble(ports[k], taken).Some? ==> Trouble(ports, taken) == PortTrouble(ports[k], taken)
  {
    if k > 0 {
      TroubleAt(ports[1..], taken, k - 1);
    }
  }

  method BackendsOf(nodes: seq<string>, nodePort: int) returns (r: seq<Backend>)
    ensures r == seq(|nodes|, i requires 0 <= i < |nodes| => Backend(nodes[i], nodePort))
  {
    r := [];
    for i := 0 to |nodes|
      invariant |r| == i && forall k :: 0 <= k < i ==> r[k] == Backend(nodes[k], nodePort)
    {
      r := r + [Backend(nodes[i], nodePort)];
    }
  }

  method NewFrontend(s: Service, p: Port, proto: string, nodes: seq<string>) returns (f: Frontend)
    requires proto == Protocol(p)
    ensures f == FrontendFor(s, p, nodes)
  {
    f := Frontend(FrontendName(s, p), proto, p.port, Lower(s.proxyProtocol) == "true", 0, []);
    if s.localTraffic && s.healthPort != 0 {
      f := f.(healthPort := s.healthPort);
    }
    var backends := BackendsOf(nodes, p.nodePort);
    f := f.(backends := backends);
  }

  method CheckPort(p: Port, taken: map<string, string>) returns (proto: string, trouble: Option<Reason>)
    ensures proto == Protocol(p) && trouble == PortTrouble(p, taken)
  {
    proto := p.protocol;
    if proto == "" {
      proto := "TCP";
    }
    if proto != "TCP" && proto != "UDP" {
      return proto, Some(Unsupported(proto));
    }
    if p.nodePort == 0 {
      return proto, Some(NoNodePort(p.port));
    }
    var slot := SlotText(p.port, proto);
    return proto, if slot in taken then Some(Taken(slot, taken[slot])) else None;
  }

  ghost predicate Clear(ports: seq<Port>, taken: map<string, string>, k: nat)
    requires k <= |ports|
  {
    forall i :: 0 <= i < k ==> PortTrouble(ports[i], taken).None?
  }

  method CheckNext(s: Service, k: nat, taken: map<string, string>) returns (proto: string, trouble: Option<Reason>)
    requires k < |s.ports| && Clear(s.ports, taken, k)
    ensures proto == Protocol(s.ports[k])
    ensures trouble.Some? ==> trouble == Trouble(s.ports, taken)
    ensures trouble.None? ==> Clear(s.ports, taken, k + 1)
  {
    proto, trouble := CheckPort(s.ports[k], taken);
    TroubleAt(s.ports, taken, k);
  }

  function FirstFrontends(s: Service, nodes: seq<string>, k: nat): seq<Frontend>
    requires k <= |s.ports|
  {
    if k == 0 then [] else FirstFrontends(s, nodes, k - 1) + [FrontendFor(s, s.ports[k - 1], nodes)]
  }

  lemma {:induction false} FrontendAt(s: Service, nodes: seq<string>, k: nat, i: nat)
    requires i < k <= |s.ports|
    ensures |FirstFrontends(s, nodes, k)| == k && FirstFrontends(s, nodes, k)[i] == FrontendFor(s, s.ports[i], nodes)
  {
    if k > 1 {
      FrontendAt(s, nodes, k - 1, if i < k - 1 then i else 0);
    }
  }

  lemma {:induction false} FrontendsAll(s: Service, nodes: seq<string>)
    ensures FirstFrontends(s, nodes, |s.ports|) == FrontendsOf(s, nodes)
  {
    var n := |s.ports|;
    if n > 0 {
      FrontendAt(s, nodes, n, 0);
    }
    forall i | 0 <= i < n ensures FirstFrontends(s, nodes, n)[i] == FrontendFor(s, s.ports[i], nodes) {
      FrontendAt(s, nodes, n, i);
    }
  }

  /** The frontends of one service, or the trouble with its first port in trouble. */
  method Collect(s: Service, nodes: seq<string>, taken: map<string, string>)
    returns (mine: seq<Frontend>, trouble: Option<Reason>)
    ensures trouble == Trouble(s.ports, taken)
    ensures trouble.None? ==> mine == FrontendsOf(s, nodes)
  {
    mine := [];
    for k := 0 to |s.ports|
      invariant mine == FirstFrontends(s, nodes, k) && Clear(s.ports, taken, k)
    {
      var proto, t := CheckNext(s, k, taken);
      if t.Some? {
        return mine, t;
      }
      var f := NewFrontend(s, s.ports[k], proto, nodes);
      mine := mine + [f];
    }
    FrontendsAll(s, nodes);
    TroubleAt(s.ports, taken, |s.ports|);
    return mine, None;
  }

  lemma {:induction false} TakeNext(taken: map<string, string>, ports: seq<Port>, k: nat, key: string)
    requires k < |ports|
    ensures Take(taken, ports[..k + 1], key) == Take(taken, ports[..k], key)[SlotOf(ports[k]) := key]
  {
    assert ports[..k + 1][..k] == ports[..k];
  }

  method Claim(taken: map<string, string>, s: Service, mine: seq<Frontend>) returns (r: map<string, string>)
    requires |mine| == |s.ports| && forall k :: 0 <= k < |mine| ==> FrontendSlot(mine[k]) == SlotOf(s.ports[k])
    ensures r == Take(taken, s.ports, Key(s))
  {
    r := taken;
    for k := 0 to |mine|
      invariant r == Take(taken, s.ports[..k], Key(s))
    {
      TakeNext(taken, s.ports, k, Key(s));
      r := r[FrontendSlot(mine[k]) := Key(s)];
    }
    assert s.ports[..|mine|] == s.ports;
  }

  /** The result for the services in some sorted order. */
  ghost predicate Allocated(services: seq<Service>, nodes: seq<string>, frontends: seq<Frontend>,
      conflicts: map<string, Reason>) {
    exists order :: SortOf(order, services) && Outcome(order, nodes, frontends, conflicts)
  }

  ghost predicate Outcome(order: seq<Service>, nodes: seq<string>, frontends: seq<Frontend>,
      conflicts: map<string, Reason>) {
    frontends == Allocate(order, nodes).frontends && conflicts == Allocate(order, nodes).conflicts
  }

  method Frontends(services: seq<Service>, nodes: seq<string>)
    returns (frontends: seq<Frontend>, conflicts: map<string, Reason>)
    ensures Allocated(services, nodes, frontends, conflicts)
  {
    BeforeIsTotalOrder();
    var sorted := SortFunc(services, Before);
    var taken: map<string, string> := map[];
    frontends, conflicts := [], map[];
    for i := 0 to |sorted|
      invariant State(frontends, conflicts, taken) == Allocate(sorted[..i], nodes)
    {
      assert sorted[..i + 1][..i] == sorted[..i];
      var s := sorted[i];
      var mine, trouble := Collect(s, nodes, taken);
      if trouble.Some? {
        conflicts := conflicts[Key(s) := trouble.value];
      }
      if Key(s) !in conflicts {
        taken := Claim(taken, s, mine);
        frontends := frontends + mine;
      }
    }
    assert sorted[..|sorted|] == sorted;
    assert SortOf(sorted, services) && Outcome(sorted, nodes, frontends, conflicts);
  }
}
