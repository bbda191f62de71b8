/**
 The scans of the cloud client: finding an instance by its tag, the scripts of a hostname,
 a volume by name, and the volumes an instance lists. Each loop is proved against a function.
 */
module Client {
  import opened Prelude
  import opened Owners
  import opened CloudApi

  predicate Matches(r: InstanceRow, k: TagKey, v: string) {
    Tag(r.inst, k) == v
  }

  /** First matching row that is not discontinued. */
  function FirstKept(rows: seq<InstanceRow>, k: TagKey, v: string): Option<InstanceRow> {
    if rows == [] then None
    else if Matches(rows[0], k, v) && !rows[0].inst.status.Discontinued? then Some(rows[0])
    else FirstKept(rows[1..], k, v)
  }

  /** Last matching row, the answer when every match is discontinued. */
  function LastMatch(rows: seq<InstanceRow>, k: TagKey, v: string): Option<InstanceRow> {
    if rows == [] then None
    else if Matches(rows[|rows| - 1], k, v) then Some(rows[|rows| - 1])
    else LastMatch(rows[..|rows| - 1], k, v)
  }

  function FindByTag(rows: seq<InstanceRow>, k: TagKey, v: string): Option<InstanceRow> {
    if FirstKept(rows, k, v).Some? then FirstKept(rows, k, v) else LastMatch(rows, k, v)
  }

  lemma {:induction false} FirstKeptNone(rows: seq<InstanceRow>, n: nat, k: TagKey, v: string)
    requires n <= |rows|
    requires forall i :: 0 <= i < n ==> Matches(rows[i], k, v) ==> rows[i].inst.status.Discontinued?
    ensures FirstKept(rows, k, v) == FirstKept(rows[n..], k, v)
  {
    if n == 0 {
      assert rows[0..] == rows;
    } else {
      FirstKeptNone(rows[1..], n - 1, k, v);
      assert rows[1..][n - 1..] == rows[n..];
    }
  }

  method FindInstanceByTag(rows: seq<InstanceRow>, k: TagKey, v: string) returns (r: Option<InstanceRow>)
    ensures r == FindByTag(rows, k, v)
  {
    var gone: Option<InstanceRow> := None;
    for n := 0 to |rows|
      invariant forall i :: 0 <= i < n ==> Matches(rows[i], k, v) ==> rows[i].inst.status.Discontinued?
      invariant gone == LastMatch(rows[..n], k, v)
    {
      assert rows[..n + 1][..n] == rows[..n];
      if Tag(rows[n].inst, k) == v {
        if !rows[n].inst.status.Discontinued? {
          FirstKeptNone(rows, n, k, v);
          return Some(rows[n]);
        }
        gone := Some(rows[n]);
      }
    }
    FirstKeptNone(rows, |rows|, k, v);
    assert rows[..|rows|] == rows;
    return gone;
  }

  /** A row the lookup returns although it is gone: neither kept out nor `discontinued`. */
  ghost predicate Shadows(rows: seq<InstanceRow>, i: nat, k: TagKey, v: string)
    requires i < |rows|
  {
    && Matches(rows[i], k, v) && Gone(rows[i].inst.status) && !rows[i].inst.status.Discontinued?
    && forall j :: 0 <= j < i && Matches(rows[j], k, v) ==> rows[j].inst.status.Discontinued?
  }

  lemma {:induction false} FirstKeptIs(rows: seq<InstanceRow>, k: TagKey, v: string) returns (i: nat)
    requires FirstKept(rows, k, v).Some?
    ensures i < |rows| && FirstKept(rows, k, v) == Some(rows[i])
    ensures Matches(rows[i], k, v) && !rows[i].inst.status.Discontinued?
    ensures forall j :: 0 <= j < i && Matches(rows[j], k, v) ==> rows[j].inst.status.Discontinued?
  {
    if Matches(rows[0], k, v) && !rows[0].inst.status.Discontinued? {
      i := 0;
    } else {
      var t := FirstKeptIs(rows[1..], k, v);
      i := t + 1;
      forall j | 0 <= j < i && Matches(rows[j], k, v) ensures rows[j].inst.status.Discontinued? {
        if j > 0 {
          assert rows[j] == rows[1..][j - 1];
        }
      }
    }
  }

  lemma {:induction false} FirstKeptFinds(rows: seq<InstanceRow>, i: nat, k: TagKey, v: string)
    requires i < |rows| && Matches(rows[i], k, v) && !rows[i].inst.status.Discontinued?
    ensures FirstKept(rows, k, v).Some?
  {
    if i > 0 {
      FirstKeptFinds(rows[1..], i - 1, k, v);
    }
  }

  /** With a live match listed, the lookup returns a live one unless a `deleted` row shadows it. */
  lemma TagLookupFindsLiveUnlessShadowed(rows: seq<InstanceRow>, k: TagKey, v: string, live: nat)
    requires live < |rows| && Matches(rows[live], k, v) && !Gone(rows[live].inst.status)
    ensures FindByTag(rows, k, v).Some?
    ensures Gone(FindByTag(rows, k, v).value.inst.status) <==> exists i: nat :: i < |rows| && Shadows(rows, i, k, v)
  {
    FirstKeptFinds(rows, live, k, v);
    var i := FirstKeptIs(rows, k, v);
    if Gone(rows[i].inst.status) {
      assert Shadows(rows, i, k, v);
    }
  }

  /** The shadow is real: a `deleted` row listed first hides a running instance. */
  lemma DeletedRowHidesLive(i: Instance, k: TagKey, v: string)
    requires Tag(i, k) == v
    ensures var rows := [InstanceRow(1, i.(status := Deleted)), InstanceRow(2, i.(status := Running))];
            FindByTag(rows, k, v) == Some(rows[0])
  {
    var rows := [InstanceRow(1, i.(status := Deleted)), InstanceRow(2, i.(status := Running))];
    assert Matches(rows[0], k, v);
  }

  lemma {:induction false} LastMatchIs(rows: seq<InstanceRow>, k: TagKey, v: string)
    ensures LastMatch(rows, k, v).Some? ==>
              LastMatch(rows, k, v).value in rows && Matches(LastMatch(rows, k, v).value, k, v)
  {
    if rows != [] {
      LastMatchIs(rows[..|rows| - 1], k, v);
    }
  }

  /** On a listing of the account the lookup is exact: a live match if there is one, a gone one otherwise. */
  lemma TagLookupExact(c: Cloud, rows: seq<InstanceRow>, k: TagKey, v: string)
    requires Lists(c, rows)
    ensures var r := FindByTag(rows, k, v);
            && (r.Some? ==>
                  && r.value.id in c.instances && c.instances[r.value.id] == r.value.inst
                  && Tag(r.value.inst, k) == v)
            && (r.None? || Gone(r.value.inst.status) ==>
                  forall id :: id in c.instances && Tag(c.instances[id], k) == v ==> Gone(c.instances[id].status))
  {
    LastMatchIs(rows, k, v);
    if FirstKept(rows, k, v).Some? {
      var i := FirstKeptIs(rows, k, v);
      assert rows[i] in rows;
    } else {
      forall id | id in c.instances && Tag(c.instances[id], k) == v
        ensures Gone(c.instances[id].status)
      {
        var row := InstanceRow(id, c.instances[id]);
        if row in rows {
          var i: nat :| i < |rows| && rows[i] == row;
          if !row.inst.status.Discontinued? {
            FirstKeptFinds(rows, i, k, v);
          }
        }
      }
    }
  }

  /** Some unmanaged instance that is not discontinued already has the hostname. */
  predicate HostnameTaken(rows: seq<InstanceRow>, hostname: string) {
    exists r :: r in rows && r.inst.hostname == hostname && !r.inst.status.Discontinued? && !r.inst.managed
  }

  function ScriptsNamed(rows: seq<ScriptRow>, name: string): (ids: seq<Id>)
    ensures forall id :: id in ids <==> ScriptRow(id, name) in rows
  {
    if rows == [] then []
    else (if rows[0].name == name then [rows[0].id] else []) + ScriptsNamed(rows[1..], name)
  }

  /** The first listed volume of that name. */
  function VolumeNamed(rows: seq<VolumeRow>, name: string): (r: Option<VolumeRow>)
    ensures r.Some? ==> exists i :: 0 <= i < |rows| && rows[i] == r.value && rows[i].vol.name == name
                                    && forall j :: 0 <= j < i ==> rows[j].vol.name != name
    ensures r.None? ==> forall v :: v in rows ==> v.vol.name != name
  {
    if rows == [] then None
    else if rows[0].vol.name == name then Some(rows[0])
    else
      var r := VolumeNamed(rows[1..], name);
      assert forall j :: 0 < j < |rows| ==> rows[j] == rows[1..][j - 1];
      r
  }

  function Distinct(ids: seq<Id>): seq<Id> {
    if ids == [] then []
    else
      var front := Distinct(ids[..|ids| - 1]);
      var last := ids[|ids| - 1];
      if last in front then front else front + [last]
  }

  lemma {:induction false} DistinctIs(ids: seq<Id>)
    ensures NoDuplicates(Distinct(ids))
    ensures forall x :: x in Distinct(ids) <==> x in ids
  {
    if ids != [] {
      DistinctIs(ids[..|ids| - 1]);
      assert ids == ids[..|ids| - 1] + [ids[|ids| - 1]];
    }
  }

  function VolumesOf(i: Instance): seq<Id> {
    Distinct((if i.osVolume.Some? then [i.osVolume.value] else []) + i.volumes)
  }

  lemma VolumesOfIs(i: Instance)
    ensures NoDuplicates(VolumesOf(i))
    ensures forall v :: v in VolumesOf(i) <==> ListsVolume(i, v)
  {
    DistinctIs((if i.osVolume.Some? then [i.osVolume.value] else []) + i.volumes);
  }

  lemma DistinctSnoc(ids: seq<Id>, x: Id)
    ensures Distinct(ids + [x]) == if x in Distinct(ids) then Distinct(ids) else Distinct(ids) + [x]
  {
    assert (ids + [x])[..|ids|] == ids;
  }

  /** Each id once, in the order of first appearance. */
  method AddEach(all: seq<Id>) returns (ids: seq<Id>)
    ensures ids == Distinct(all)
  {
    var seen: set<Id> := {};
    ids := [];
    for n := 0 to |all|
      invariant ids == Distinct(all[..n])
      invariant forall x :: x in seen <==> x in ids
    {
      DistinctSnoc(all[..n], all[n]);
      assert all[..n + 1] == all[..n] + [all[n]];
      if all[n] !in seen {
        seen := seen + {all[n]};
        ids := ids + [all[n]];
      }
    }
    assert all[..|all|] == all;
  }

  /** The boot volume first, then the others. */
  method InstanceVolumeIDs(i: Instance) returns (ids: seq<Id>)
    ensures ids == VolumesOf(i)
    ensures NoDuplicates(ids) && forall v :: v in ids <==> ListsVolume(i, v)
  {
    ids := AddEach((if i.osVolume.Some? then [i.osVolume.value] else []) + i.volumes);
    VolumesOfIs(i);
  }
}
