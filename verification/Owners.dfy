/**
 The objects that own cloud instances, and the names by which the cloud knows them:
 tag values and hostnames. A machine owns one instance; a cluster owns a control plane
 load balancer (its primary slot) and a service load balancer.
 */
module Owners {
  datatype Owner =
    | Machine(ns: string, name: string)
    | Cluster(ns: string, name: string)

  datatype Slot = Primary | Service

  datatype TagKey = TagMachine | TagLoadBalancer | TagServiceLoadBalancer

  const TAG_LIMIT := 127

  predicate HasSlot(o: Owner, s: Slot) {
    s.Primary? || o.Cluster?
  }

  function TagKeyOf(o: Owner, s: Slot): TagKey {
    if s.Service? then TagServiceLoadBalancer
    else if o.Machine? then TagMachine
    else TagLoadBalancer
  }

  function LowerChar(c: char): char {
    if 'A' <= c <= 'Z' then (c as int + 32) as char else c
  }

  function Lower(s: string): (r: string)
    ensures |r| == |s|
    ensures forall i :: 0 <= i < |s| ==> r[i] == LowerChar(s[i])
  {
    seq(|s|, i requires 0 <= i < |s| => LowerChar(s[i]))
  }

  function TruncateTag(v: string): string {
    Lower(if |v| > TAG_LIMIT then v[..TAG_LIMIT] else v)
  }

  function TagValue(o: Owner): (v: string)
    ensures v != ""
  {
    TruncateTag(o.ns + "/" + o.name)
  }

  function Hostname(o: Owner, s: Slot): string {
    if o.Machine? then o.name
    else if s.Primary? then o.name + "-lb"
    else o.name + "-service-lb"
  }

  /** Name of the boot volume cloned for a machine. */
  function CloneName(o: Owner): string {
    o.ns + "-" + o.name + "-os"
  }

  /** Two owners never share a tag, nor a hostname. */
  ghost predicate Apart(o: Owner, p: Owner) {
    forall s, t :: HasSlot(o, s) && HasSlot(p, t) ==>
      && (TagKeyOf(o, s) == TagKeyOf(p, t) ==> TagValue(o) != TagValue(p))
      && Hostname(o, s) != Hostname(p, t)
  }

  /** What a Kubernetes object name guarantees, plus the length that escapes truncation. */
  predicate PlainName(o: Owner) {
    && '/' !in o.ns
    && |o.ns| + 1 + |o.name| <= TAG_LIMIT
    && (forall c :: c in o.ns + o.name ==> !('A' <= c <= 'Z'))
  }

  lemma LowerKeepsPlain(s: string)
    requires forall c :: c in s ==> !('A' <= c <= 'Z')
    ensures Lower(s) == s
  {
    assert forall i :: 0 <= i < |s| ==> s[i] in s;
  }

  function FirstSlash(s: string): nat {
    if s == "" || s[0] == '/' then 0 else 1 + FirstSlash(s[1..])
  }

  lemma {:induction false} FirstSlashEndsNamespace(ns: string, name: string)
    requires '/' !in ns
    ensures FirstSlash(ns + "/" + name) == |ns|
  {
    if ns != "" {
      FirstSlashEndsNamespace(ns[1..], name);
      assert (ns + "/" + name)[1..] == ns[1..] + "/" + name;
    }
  }

  lemma TagValueOfPlain(o: Owner)
    requires PlainName(o)
    ensures TagValue(o) == o.ns + "/" + o.name
  {
    var v := o.ns + "/" + o.name;
    assert forall c :: c in v ==> c in o.ns + o.name || c == '/';
    LowerKeepsPlain(v);
  }

  /** Plain names are told apart by their tag values: the first '/' ends the namespace. */
  lemma TagValueInjective(o: Owner, p: Owner)
    requires PlainName(o) && PlainName(p)
    requires TagValue(o) == TagValue(p)
    ensures o.ns == p.ns && o.name == p.name
  {
    var v := TagValue(o);
    TagValueOfPlain(o);
    TagValueOfPlain(p);
    FirstSlashEndsNamespace(o.ns, o.name);
    FirstSlashEndsNamespace(p.ns, p.name);
    assert o.ns == v[..|o.ns|] && o.name == v[|o.ns| + 1..];
    assert p.ns == v[..|p.ns|] && p.name == v[|p.ns| + 1..];
  }

  /** Past the limit the tag forgets the end of the name: two machines can share a tag. */
  lemma LongNamesCollide(ns: string, stem: string, x: string, y: string)
    requires |ns| + 1 + |stem| >= TAG_LIMIT
    ensures TagValue(Machine(ns, stem + x)) == TagValue(Machine(ns, stem + y))
  {
    var a, b := ns + "/" + (stem + x), ns + "/" + (stem + y);
    var p := ns + "/" + stem;
    assert a == p + x && b == p + y;
    assert a[..TAG_LIMIT] == p[..TAG_LIMIT] == b[..TAG_LIMIT];
  }
}
