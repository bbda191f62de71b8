/**
 One reconcile of a machine being deleted, without errors. It brings the instance one step down (up,
 offline, deleting, gone), or waits for the cloud to finish, or purges; when the instance is gone and
 no volume is pending, the finalizer goes.
 */
module Draining {
  import opened Prelude
  import opened Owners
  import opened CloudApi
  import opened Client
  import opened Reconcile
  import opened Ownership

  function Height(s: Status): nat {
    if Gone(s) then 0 else if s.Deleting? then 1 else if s.Offline? then 2 else 3
  }

  /** How far up the instance of the machine is: the recorded one, or else the live one with its tag. */
  ghost function HeightOf(c: Cloud, o: Owner, rec: Option<Id>): nat {
    if rec.Some? then
      if rec.value in c.instances then Height(c.instances[rec.value].status) else 0
    else if exists id :: LiveFor(c, o, Primary, id) then
      var id :| LiveFor(c, o, Primary, id); Height(c.instances[id].status)
    else 0
  }

  /** The instance that deleting the machine is about, as long as it is not gone. */
  ghost predicate Subject(c: Cloud, o: Owner, rec: Option<Id>, row: InstanceRow) {
    && row.id in c.instances && c.instances[row.id] == row.inst && !Gone(row.inst.status)
    && if rec.Some? then row.id == rec.value else LiveFor(c, o, Primary, row.id)
  }

  lemma SubjectHeight(c: Cloud, o: Owner, rec: Option<Id>, row: InstanceRow)
    requires AtMostOneLive(c, o, Primary) && Subject(c, o, rec, row)
    ensures HeightOf(c, o, rec) == Height(row.inst.status)
  {
  }

  /** The account as the invariants of the protocol leave it for a machine with the recorded instance `rec`. */
  ghost predicate Tame(c: Cloud, o: Owner, rec: Option<Id>) {
    && WellFormed(c) && AtMostOneLive(c, o, Primary)
    && (rec.Some? ==> rec.value < c.next && (rec.value in c.instances ==> c.instances[rec.value].managed))
    && (forall id :: LiveFor(c, o, Primary, id) ==> c.instances[id].managed)
  }

  ghost predicate CloneManaged(c: Cloud, o: Owner, m: Object) {
    m.osVolume.Some? && m.osVolume.value in c.volumes && c.volumes[m.osVolume.value].name == CloneName(o) ==>
      c.volumes[m.osVolume.value].managed
  }

  /** Where a deletion starts, and where every reconcile of it leaves off as long as the finalizer is there. */
  ghost predicate Ours(c: Cloud, o: Owner, m: Object) {
    o.Machine? && m.deleting && m.finalizer && Tame(c, o, m.primary.instance) && CloneManaged(c, o, m)
  }

  // Reconciles without errors.

  /** The request does what it asks for. */
  ghost predicate Effective(call: Call, d: Cloud) {
    match call
    case ShutdownInstance(id) => id in d.instances ==> d.instances[id].status.Offline?
    case DeleteInstance(id, _) => id in d.instances ==> d.instances[id].status.Deleting? || Gone(d.instances[id].status)
    case _ => true
  }

  /** The call is answered and carried out; the clock shows `now` or later. */
  ghost predicate CleanAnswer(now: nat, call: Call, c: Cloud, a: Response, d: Cloud) {
    || (a.Missing? && d == c && Absent(c, call))
    || (Effect(c, call, d) && Reports(c, call, d, a) && Effective(call, d) && (a.Time? ==> now <= a.now))
  }

  ghost predicate Clean(now: nat, o: Owner, r: Run, c: Cloud, a: Response, d: Cloud)
    requires !r.pc.Finished?
  {
    CleanAnswer(now, NextCall(o, r), c, a, d)
  }

  datatype Point = Point(cloud: Cloud, run: Run)

  ghost function CleanCall(now: nat, o: Owner): (Point, Point) -> bool {
    (x: Point, y: Point) =>
      !x.run.pc.Finished? && exists a :: Clean(now, o, x.run, x.cloud, a, y.cloud) && y.run == Handle(o, x.run, a)
  }

  /** n clean calls lead from the start of the reconcile of m to its end. */
  ghost predicate Reaches(now: nat, o: Owner, c: Cloud, m: Object, d: Cloud, m': Object, n: nat) {
    Path(CleanCall(now, o), Point(c, Start(o, m)), Point(d, Run(m', Finished)), n)
  }

  /** Enough time has passed since the last request. */
  predicate Due(m: Object, now: nat) {
    Primary in m.asked ==> m.asked[Primary].at * SECOND + DELETE_RETRY <= now
  }

  lemma LookupReads(now: nat, o: Owner, r: Run, c: Cloud, a: Response, d: Cloud)
    requires r.pc.AtLookup? && Clean(now, o, r, c, a, d)
    ensures d == c
  {
  }

  // The instance is up or offline: one step down.

  ghost predicate About(c: Cloud, o: Owner, rec: Option<Id>, id: Id, h: nat) {
    && AtMostOneLive(c, o, Primary) && id in c.instances && c.instances[id].managed
    && Subject(c, o, rec, InstanceRow(id, c.instances[id])) && Height(c.instances[id].status) == h
  }

  ghost predicate Falling(o: Owner, c0: Cloud, m: Object, h: nat, c: Cloud, r: Run) {
    var rec := m.primary.instance;
    && r.mem.primary.instance == rec && r.mem.finalizer && o.Machine?
    && match r.pc
       case AtLookup(s, goal) => s.Primary? && goal.Teardown? && c == c0 && r.mem.asked == m.asked
       case AtDueCheck(s, found) =>
         && s.Primary? && c == c0 && r.mem.asked == m.asked
         && About(c, o, rec, found.id, h) && c.instances[found.id] == found.inst
       case AtDeleteGet(s, id, why) => c == c0 && About(c, o, rec, id, h) && why.TeardownAsk?
       case AtShutdown(s, id, why) => c == c0 && About(c, o, rec, id, h) && why.TeardownAsk? && h == 3
       case AtDelete(s, id, _, why) => c == c0 && About(c, o, rec, id, h) && why.TeardownAsk? && h == 2
       case Finished => HeightOf(c, o, rec) < h
       case _ => false
  }

  /** Lowering the status of the subject lowers the height. */
  lemma Lowered(c: Cloud, o: Owner, rec: Option<Id>, id: Id, d: Cloud)
    requires id in c.instances && About(c, o, rec, id, Height(c.instances[id].status))
    requires id in d.instances && d.instances == c.instances[id := c.instances[id].(status := d.instances[id].status)]
    ensures HeightOf(d, o, rec) == Height(d.instances[id].status)
  {
    var j := d.instances[id];
    assert Tag(j, TagKeyOf(o, Primary)) == Tag(c.instances[id], TagKeyOf(o, Primary));
    forall a | LiveFor(d, o, Primary, a) && a != id ensures LiveFor(c, o, Primary, a) {
    }
    if rec.None? {
      assert forall a :: LiveFor(d, o, Primary, a) ==> a == id;
      if !Gone(j.status) {
        assert LiveFor(d, o, Primary, id);
      }
    }
  }

  lemma FallLookup(now: nat, o: Owner, c: Cloud, m: Object, h: nat, r: Run, a: Response, e: Cloud)
    requires Ours(c, o, m) && HeightOf(c, o, m.primary.instance) == h && h >= 2
    requires r.pc.AtLookup? && Falling(o, c, m, h, c, r) && Clean(now, o, r, c, a, e)
    ensures e == c && Falling(o, c, m, h, e, Handle(o, r, a))
  {
    var rec := m.primary.instance;
    if rec.Some? {
      assert a == OneInstance(InstanceRow(rec.value, c.instances[rec.value]));
    } else {
      TagLookupExact(c, a.rows, TagKeyOf(o, Primary), TagValue(o));
      var id :| LiveFor(c, o, Primary, id);
      var f := FindByTag(a.rows, TagKeyOf(o, Primary), TagValue(o));
      assert f.Some? && !Gone(f.value.inst.status);
      assert LiveFor(c, o, Primary, f.value.id);
      SubjectHeight(c, o, rec, f.value);
    }
  }

  lemma FallAsk(now: nat, o: Owner, c: Cloud, m: Object, h: nat, r: Run, a: Response, e: Cloud)
    requires h >= 2 && Due(m, now) && (r.pc.AtDueCheck? || r.pc.AtDeleteGet?)
    requires Falling(o, c, m, h, c, r) && Clean(now, o, r, c, a, e)
    ensures e == c && Falling(o, c, m, h, e, Handle(o, r, a))
  {
    if r.pc.AtDueCheck? {
      assert a.Time? && now <= a.now;
      assert RequestDue(r.mem, Primary, r.pc.found.inst.status, a.now);
    } else {
      assert a == OneInstance(InstanceRow(r.pc.id, c.instances[r.pc.id]));
    }
  }

  lemma FallRequest(now: nat, o: Owner, c: Cloud, m: Object, h: nat, r: Run, a: Response, e: Cloud)
    requires r.pc.AtShutdown? || r.pc.AtDelete?
    requires Falling(o, c, m, h, c, r) && Clean(now, o, r, c, a, e)
    ensures Falling(o, c, m, h, e, Handle(o, r, a))
  {
    var id := r.pc.id;
    assert a == Done && id in e.instances;
    assert e.instances == c.instances[id := c.instances[id].(status := e.instances[id].status)];
    Lowered(c, o, m.primary.instance, id, e);
  }

  lemma FallStep(now: nat, o: Owner, c: Cloud, m: Object, h: nat, e: Cloud, r: Run, a: Response, f: Cloud)
    requires Ours(c, o, m) && HeightOf(c, o, m.primary.instance) == h && h >= 2 && Due(m, now)
    requires Falling(o, c, m, h, e, r) && !r.pc.Finished? && Clean(now, o, r, e, a, f)
    ensures Falling(o, c, m, h, f, Handle(o, r, a))
  {
    if r.pc.AtLookup? {
      FallLookup(now, o, c, m, h, r, a, f);
    } else if r.pc.AtDueCheck? || r.pc.AtDeleteGet? {
      FallAsk(now, o, c, m, h, r, a, f);
    } else {
      FallRequest(now, o, c, m, h, r, a, f);
    }
  }

  lemma FallCall(now: nat, o: Owner, c: Cloud, m: Object, h: nat, x: Point, y: Point)
    requires Ours(c, o, m) && HeightOf(c, o, m.primary.instance) == h && h >= 2 && Due(m, now)
    requires Falling(o, c, m, h, x.cloud, x.run) && CleanCall(now, o)(x, y)
    ensures Falling(o, c, m, h, y.cloud, y.run)
  {
    var a :| Clean(now, o, x.run, x.cloud, a, y.cloud) && y.run == Handle(o, x.run, a);
    FallStep(now, o, c, m, h, x.cloud, x.run, a, y.cloud);
  }

  lemma FallStarts(o: Owner, c: Cloud, m: Object, h: nat)
    requires Ours(c, o, m)
    ensures Falling(o, c, m, h, c, Start(o, m))
  {
  }

  lemma FallsTo(now: nat, o: Owner, c: Cloud, m: Object, h: nat, d: Cloud, m': Object, n: nat)
    requires Ours(c, o, m) && HeightOf(c, o, m.primary.instance) == h && h >= 2 && Due(m, now)
    requires Reaches(now, o, c, m, d, m', n)
    ensures Falling(o, c, m, h, d, Run(m', Finished))
  {
    var step, inv := CleanCall(now, o), (x: Point) => Falling(o, c, m, h, x.cloud, x.run);
    FallStarts(o, c, m, h);
    forall x, y | inv(x) && step(x, y) ensures inv(y) {
      FallCall(now, o, c, m, h, x, y);
    }
    PathKeeps(step, inv, Point(c, Start(o, m)), Point(d, Run(m', Finished)), n);
  }

  /** One reconcile brings the instance down: from up to offline, or from offline to deleting or gone. */
  lemma RoundFalls(now: nat, o: Owner, c: Cloud, m: Object, d: Cloud, m': Object, n: nat)
    requires Ours(c, o, m) && HeightOf(c, o, m.primary.instance) >= 2 && Due(m, now)
    requires Reaches(now, o, c, m, d, m', n)
    ensures HeightOf(d, o, m.primary.instance) < HeightOf(c, o, m.primary.instance)
    ensures m'.primary.instance == m.primary.instance && m'.finalizer
  {
    FallsTo(now, o, c, m, HeightOf(c, o, m.primary.instance), d, m', n);
  }

  // The cloud is deleting the instance: nothing is asked.

  lemma LookupDeleting(now: nat, o: Owner, c: Cloud, m: Object, r: Run, a: Response, e: Cloud)
    requires Ours(c, o, m) && HeightOf(c, o, m.primary.instance) == 1
    requires r.pc == AtLookup(Primary, Teardown) && r.mem.primary == m.primary && Clean(now, o, r, c, a, e)
    ensures e == c && Handle(o, r, a) == Stop(r.mem.(state := Deleting))
  {
    var rec := m.primary.instance;
    if rec.Some? {
      assert a == OneInstance(InstanceRow(rec.value, c.instances[rec.value]));
    } else {
      TagLookupExact(c, a.rows, TagKeyOf(o, Primary), TagValue(o));
      var id :| LiveFor(c, o, Primary, id);
      var f := FindByTag(a.rows, TagKeyOf(o, Primary), TagValue(o));
      assert f.Some? && !Gone(f.value.inst.status);
      assert LiveFor(c, o, Primary, f.value.id);
      SubjectHeight(c, o, rec, f.value);
    }
  }

  /** While the cloud is deleting, a reconcile looks once and asks for nothing. */
  lemma RoundWaits(now: nat, o: Owner, c: Cloud, m: Object, d: Cloud, m': Object, n: nat)
    requires Ours(c, o, m) && HeightOf(c, o, m.primary.instance) == 1
    requires Reaches(now, o, c, m, d, m', n)
    ensures n == 1 && d == c && m' == m.(ready := false, state := Deleting)
  {
    var x, step := Point(c, Start(o, m)), CleanCall(now, o);
    var y :| step(x, y) && Path(step, y, Point(d, Run(m', Finished)), n - 1);
    var a :| Clean(now, o, x.run, c, a, y.cloud) && y.run == Handle(o, x.run, a);
    LookupDeleting(now, o, c, m, x.run, a, y.cloud);
  }

  // The instance is gone: purge, clean up, let go.

  /** Neither in the trash, where it can be destroyed, nor deleted: the cloud has yet to release it. */
  predicate Stuck(c: Cloud, v: Id) {
    v in c.volumes && !c.volumes[v].trashed && !c.volumes[v].status.VolumeDeleted?
  }

  function Pending(c: Cloud, vols: seq<Id>): nat {
    if vols == [] then 0
    else Pending(c, vols[..|vols| - 1]) + if Stuck(c, vols[|vols| - 1]) then 1 else 0
  }

  function VolumesOfRecord(c: Cloud, rec: Option<Id>): seq<Id> {
    if rec.Some? && rec.value in c.instances then VolumesOf(c.instances[rec.value]) else []
  }

  function PendingOf(c: Cloud, rec: Option<Id>): nat {
    Pending(c, VolumesOfRecord(c, rec))
  }

  ghost predicate SameStuck(c: Cloud, d: Cloud, vols: seq<Id>) {
    forall v :: v in vols ==> Stuck(d, v) == Stuck(c, v)
  }

  lemma {:induction false} SamePending(c: Cloud, d: Cloud, vols: seq<Id>)
    requires SameStuck(c, d, vols)
    ensures Pending(c, vols) == Pending(d, vols)
  {
    if vols != [] {
      SamePending(c, d, vols[..|vols| - 1]);
    }
  }

  ghost predicate Untouched(c: Cloud, d: Cloud, vols: seq<Id>, n: nat) {
    forall k :: n <= k < |vols| ==> (vols[k] in d.volumes <==> vols[k] in c.volumes)
                                    && (vols[k] in c.volumes ==> d.volumes[vols[k]] == c.volumes[vols[k]])
  }

  ghost predicate AtEmptying(o: Owner, c0: Cloud, rec: Option<Id>, c: Cloud, r: Run) {
    match r.pc
    case AtLookup(s, goal) => s.Primary? && goal.Teardown? && c == c0
    case AtPurgeGet(s, id, why) => s.Primary? && c == c0 && rec == Some(id) && id in c0.instances && why.InTeardown?
    case AtPurgeTrash(s, id, vols, why) =>
      && s.Primary? && c == c0 && rec == Some(id) && id in c0.instances && why.InTeardown?
      && vols == VolumesOfRecord(c0, rec)
    case AtPurge(s, id, vols, n, trash, pending, why) =>
      && s.Primary? && rec == Some(id) && id in c0.instances && why.InTeardown? && vols == VolumesOfRecord(c0, rec)
      && n < |vols| && trash == (set v | v in c0.volumes && c0.volumes[v].trashed)
      && pending == Pending(c0, vols[..n]) && Untouched(c0, c, vols, n) && SameStuck(c0, c, vols)
    case AtScriptForget(s) => s.Primary? && r.mem.primary.script.Some? && PendingOf(c0, rec) == 0
    case AtScriptList(s, why) => s.Primary? && why.ForTeardown? && PendingOf(c0, rec) == 0
    case AtScriptDelete(s, why, ids) => s.Primary? && why.ForTeardown? && ids != [] && PendingOf(c0, rec) == 0
    case AtOsGet => r.mem.osVolume.Some? && PendingOf(c0, rec) == 0
    case AtOsCheck =>
      && r.mem.osVolume.Some? && PendingOf(c0, rec) == 0
      && (r.mem.osVolume.value in c.volumes ==> c.volumes[r.mem.osVolume.value].name == CloneName(o))
    case AtOsDelete => r.mem.osVolume.Some? && PendingOf(c0, rec) == 0
    case Finished => PendingOf(c0, rec) == 0 ==> !r.mem.finalizer
    case _ => false
  }

  ghost predicate Emptying(o: Owner, c0: Cloud, rec: Option<Id>, c: Cloud, r: Run) {
    && o.Machine? && r.mem.primary.instance == rec && AtEmptying(o, c0, rec, c, r)
    && c.instances == c0.instances
    && (PendingOf(c0, rec) > 0 ==> r.mem.finalizer && SameStuck(c0, c, VolumesOfRecord(c0, rec)))
    && (!r.pc.Finished? ==> CloneManaged(c, o, r.mem) && r.mem.finalizer)
  }

  lemma ScriptsEmptying(o: Owner, c0: Cloud, rec: Option<Id>, c: Cloud, m: Object)
    requires o.Machine? && m.primary.instance == rec && c.instances == c0.instances && PendingOf(c0, rec) == 0
    requires CloneManaged(c, o, m) && m.finalizer
    ensures Emptying(o, c0, rec, c, StartScripts(o, m, Primary)) && Emptying(o, c0, rec, c, AfterScripts(o, m, Primary))
  {
  }

  lemma EmptyLookup(now: nat, o: Owner, c: Cloud, m: Object, r: Run, a: Response, e: Cloud)
    requires Ours(c, o, m) && HeightOf(c, o, m.primary.instance) == 0
    requires r.pc.AtLookup? && Emptying(o, c, m.primary.instance, c, r) && Clean(now, o, r, c, a, e)
    ensures e == c && Emptying(o, c, m.primary.instance, e, Handle(o, r, a))
  {
    LookupReads(now, o, r, c, a, e);
    if m.primary.instance.Some? {
      EmptyLookupById(now, o, c, m, r, a, e);
    } else {
      EmptyLookupByTag(now, o, c, m, r, a, e);
    }
  }

  lemma EmptyLookupById(now: nat, o: Owner, c: Cloud, m: Object, r: Run, a: Response, e: Cloud)
    requires WellFormed(c) && m.primary.instance.Some? && HeightOf(c, o, m.primary.instance) == 0
    requires r.pc.AtLookup? && Emptying(o, c, m.primary.instance, c, r) && Clean(now, o, r, c, a, e)
    ensures Emptying(o, c, m.primary.instance, c, Handle(o, r, a))
  {
    var rec := m.primary.instance;
    if rec.value in c.instances {
      assert a == OneInstance(InstanceRow(rec.value, c.instances[rec.value]));
    } else {
      assert a == Missing;
      ScriptsEmptying(o, c, rec, c, r.mem);
    }
  }

  lemma EmptyLookupByTag(now: nat, o: Owner, c: Cloud, m: Object, r: Run, a: Response, e: Cloud)
    requires Ours(c, o, m) && m.primary.instance.None? && HeightOf(c, o, None) == 0
    requires r.pc.AtLookup? && Emptying(o, c, None, c, r) && Clean(now, o, r, c, a, e)
    ensures Emptying(o, c, None, c, Handle(o, r, a))
  {
    TagLookupExact(c, a.rows, TagKeyOf(o, Primary), TagValue(o));
    var f := FindByTag(a.rows, TagKeyOf(o, Primary), TagValue(o));
    if f.Some? && !Gone(f.value.inst.status) {
      assert LiveFor(c, o, Primary, f.value.id);
      SubjectHeight(c, o, None, f.value);
    }
    ScriptsEmptying(o, c, None, c, r.mem);
  }

  lemma PendingNext(c: Cloud, vols: seq<Id>, n: nat)
    requires n < |vols|
    ensures Pending(c, vols[..n + 1]) == Pending(c, vols[..n]) + if Stuck(c, vols[n]) then 1 else 0
  {
    assert vols[..n + 1][..n] == vols[..n];
  }

  lemma PurgeNextEmptying(o: Owner, c0: Cloud, rec: Option<Id>, c: Cloud, m: Object, id: Id, vols: seq<Id>, n: nat,
      trash: set<Id>)
    requires o.Machine? && m.primary.instance == rec && rec == Some(id) && id in c0.instances
    requires c.instances == c0.instances
    requires vols == VolumesOfRecord(c0, rec) && n <= |vols|
    requires trash == (set v | v in c0.volumes && c0.volumes[v].trashed)
    requires Untouched(c0, c, vols, n) && SameStuck(c0, c, vols) && CloneManaged(c, o, m) && m.finalizer
    ensures Emptying(o, c0, rec, c, PurgeNext(o, m, Primary, id, vols, n, trash, Pending(c0, vols[..n]), InTeardown))
  {
    if n == |vols| {
      assert vols[..n] == vols;
      if PendingOf(c0, rec) == 0 {
        ScriptsEmptying(o, c0, rec, c, m);
      }
    }
  }

  lemma DestroyKeeps(c0: Cloud, c: Cloud, vols: seq<Id>, n: nat, d: Cloud)
    requires n < |vols| && NoDuplicates(vols) && Untouched(c0, c, vols, n) && SameStuck(c0, c, vols)
    requires vols[n] in c0.volumes && c0.volumes[vols[n]].trashed && d.volumes == c.volumes - {vols[n]}
    ensures Untouched(c0, d, vols, n + 1) && SameStuck(c0, d, vols)
  {
  }

  lemma EmptyPurgeStart(now: nat, o: Owner, c0: Cloud, rec: Option<Id>, r: Run, a: Response, d: Cloud)
    requires r.pc.AtPurgeGet? || r.pc.AtPurgeTrash?
    requires Emptying(o, c0, rec, c0, r) && Clean(now, o, r, c0, a, d)
    requires rec.Some? && rec.value in c0.instances ==> c0.instances[rec.value].managed
    ensures d == c0 && Emptying(o, c0, rec, d, Handle(o, r, a))
  {
    if r.pc.AtPurgeGet? {
      EmptyPurgeGet(now, o, c0, rec, r, a, d);
    } else {
      assert r.pc.vols[..0] == [];
      PurgeNextEmptying(o, c0, rec, c0, r.mem, r.pc.id, r.pc.vols, 0, a.ids);
    }
  }

  lemma EmptyPurgeGet(now: nat, o: Owner, c0: Cloud, rec: Option<Id>, r: Run, a: Response, d: Cloud)
    requires r.pc.AtPurgeGet? && Emptying(o, c0, rec, c0, r) && Clean(now, o, r, c0, a, d)
    requires rec.Some? && rec.value in c0.instances ==> c0.instances[rec.value].managed
    ensures d == c0 && Emptying(o, c0, rec, d, Handle(o, r, a))
  {
    var row := InstanceRow(r.pc.id, c0.instances[r.pc.id]);
    assert a == OneInstance(row) && d == c0;
    assert Handle(o, r, a) == Run(r.mem, AtPurgeTrash(Primary, r.pc.id, VolumesOf(row.inst), InTeardown));
  }

  lemma CleanDestroy(now: nat, o: Owner, r: Run, c: Cloud, a: Response, d: Cloud)
    requires r.pc.AtPurge? && r.pc.n < |r.pc.vols| && r.pc.vols[r.pc.n] in r.pc.trash && r.pc.vols[r.pc.n] in c.volumes
    requires Clean(now, o, r, c, a, d)
    ensures a == Done && d.instances == c.instances && d.volumes == c.volumes - {r.pc.vols[r.pc.n]}
  {
  }

  lemma EmptyDestroy(o: Owner, c0: Cloud, rec: Option<Id>, c: Cloud, r: Run, d: Cloud)
    requires r.pc.AtPurge? && Emptying(o, c0, rec, c, r)
    requires r.pc.vols[r.pc.n] in r.pc.trash
    requires d.instances == c.instances && d.volumes == c.volumes - {r.pc.vols[r.pc.n]}
    ensures Emptying(o, c0, rec, d, HandlePurge(o, r.mem, r.pc, Done))
  {
    var vols, n := r.pc.vols, r.pc.n;
    VolumesOfIs(c0.instances[r.pc.id]);
    PendingNext(c0, vols, n);
    DestroyKeeps(c0, c, vols, n, d);
    PurgeNextEmptying(o, c0, rec, d, r.mem, r.pc.id, vols, n + 1, r.pc.trash);
  }

  lemma CleanLook(now: nat, o: Owner, r: Run, c: Cloud, a: Response, d: Cloud)
    requires r.pc.AtPurge? && r.pc.n < |r.pc.vols| && r.pc.vols[r.pc.n] !in r.pc.trash && Clean(now, o, r, c, a, d)
    ensures d == c && !a.Failed?
    ensures var v := r.pc.vols[r.pc.n];
            a.OneVolume? && !a.vol.vol.status.VolumeDeleted? <==> v in c.volumes && !c.volumes[v].status.VolumeDeleted?
  {
  }

  lemma EmptyLook(o: Owner, c0: Cloud, rec: Option<Id>, c: Cloud, r: Run, a: Response)
    requires r.pc.AtPurge? && Emptying(o, c0, rec, c, r) && r.pc.vols[r.pc.n] !in r.pc.trash && !a.Failed?
    requires var v := r.pc.vols[r.pc.n];
             a.OneVolume? && !a.vol.vol.status.VolumeDeleted? <==> v in c.volumes && !c.volumes[v].status.VolumeDeleted?
    ensures Emptying(o, c0, rec, c, HandlePurge(o, r.mem, r.pc, a))
  {
    var vols, n := r.pc.vols, r.pc.n;
    PendingNext(c0, vols, n);
    PurgeNextEmptying(o, c0, rec, c, r.mem, r.pc.id, vols, n + 1, r.pc.trash);
  }

  lemma CleanScripts(now: nat, o: Owner, r: Run, c: Cloud, a: Response, d: Cloud)
    requires PartOf(r.pc).ScriptWork? && Clean(now, o, r, c, a, d)
    requires (r.pc.AtScriptDelete? ==> r.pc.scripts != []) && (r.pc.AtScriptForget? ==> Rec(r.mem, r.pc.s).script.Some?)
    ensures d.instances == c.instances && d.volumes == c.volumes
    ensures if r.pc.AtScriptList? then a.Scripts? else a.Done? || a.Missing?
  {
  }

  lemma EmptyScripts(o: Owner, c0: Cloud, rec: Option<Id>, c: Cloud, r: Run, a: Response, d: Cloud)
    requires PartOf(r.pc).ScriptWork? && Emptying(o, c0, rec, c, r) && d.instances == c.instances
    requires d.volumes == c.volumes
    requires if r.pc.AtScriptList? then a.Scripts? else a.Done? || a.Missing?
    ensures Emptying(o, c0, rec, d, HandleScripts(o, r.mem, r.pc, a))
  {
    ScriptsEmptying(o, c0, rec, d, r.mem);
    ScriptsEmptying(o, c0, rec, d, r.mem.(primary := r.mem.primary.(script := None)));
  }

  /** The answer is the volume as it is. */
  predicate Shows(a: Response, c: Cloud, v: Id) {
    v in c.volumes && a == OneVolume(VolumeRow(v, c.volumes[v]))
  }

  lemma CleanClone(now: nat, o: Owner, r: Run, c: Cloud, a: Response, d: Cloud)
    requires PartOf(r.pc).CloneRemoval? && Clean(now, o, r, c, a, d) && r.mem.osVolume.Some?
    ensures d.instances == c.instances
    ensures r.pc.AtOsDelete? ==> a.Done? || a.Missing?
    ensures !r.pc.AtOsDelete? ==> d == c && (a.Missing? || Shows(a, c, r.mem.osVolume.value))
  {
  }

  lemma ReleasedEmptying(o: Owner, c0: Cloud, rec: Option<Id>, c: Cloud, m: Object)
    requires o.Machine? && m.primary.instance == rec && c.instances == c0.instances && PendingOf(c0, rec) == 0
    ensures Emptying(o, c0, rec, c, Release(m.(osVolume := None)))
  {
  }

  lemma EmptyClone(o: Owner, c0: Cloud, rec: Option<Id>, c: Cloud, r: Run, a: Response, d: Cloud)
    requires PartOf(r.pc).CloneRemoval? && Emptying(o, c0, rec, c, r) && d.instances == c.instances
    requires r.pc.AtOsDelete? ==> a.Done? || a.Missing?
    requires !r.pc.AtOsDelete? ==> d == c && (a.Missing? || Shows(a, c, r.mem.osVolume.value))
    ensures Emptying(o, c0, rec, d, HandleCloneRemoval(o, r.mem, r.pc, a))
  {
    ReleasedEmptying(o, c0, rec, d, r.mem);
    if r.pc.AtOsGet? && a.OneVolume? {
      assert Emptying(o, c0, rec, d, HandleCloneRemoval(o, r.mem, AtOsGet, a));
    } else if r.pc.AtOsCheck? && a.OneVolume? {
      assert HandleCloneRemoval(o, r.mem, AtOsCheck, a) == Run(r.mem, AtOsDelete);
    }
  }

  lemma EmptyPurging(now: nat, o: Owner, c0: Cloud, m: Object, c: Cloud, r: Run, a: Response, d: Cloud)
    requires Ours(c0, o, m) && PartOf(r.pc).Purging?
    requires Emptying(o, c0, m.primary.instance, c, r) && Clean(now, o, r, c, a, d)
    ensures Emptying(o, c0, m.primary.instance, d, HandlePurge(o, r.mem, r.pc, a))
  {
    var rec := m.primary.instance;
    if !r.pc.AtPurge? {
      EmptyPurgeStart(now, o, c0, rec, r, a, d);
    } else if r.pc.vols[r.pc.n] in r.pc.trash {
      CleanDestroy(now, o, r, c, a, d);
      EmptyDestroy(o, c0, rec, c, r, d);
    } else {
      CleanLook(now, o, r, c, a, d);
      EmptyLook(o, c0, rec, c, r, a);
    }
  }

  lemma EmptyStep(now: nat, o: Owner, c0: Cloud, m: Object, c: Cloud, r: Run, a: Response, d: Cloud)
    requires Ours(c0, o, m) && HeightOf(c0, o, m.primary.instance) == 0 && !r.pc.Finished?
    requires Emptying(o, c0, m.primary.instance, c, r) && Clean(now, o, r, c, a, d)
    ensures Emptying(o, c0, m.primary.instance, d, Handle(o, r, a))
  {
    var rec := m.primary.instance;
    match PartOf(r.pc)
    case LookingUp => EmptyLookup(now, o, c0, m, r, a, d);
    case Purging => EmptyPurging(now, o, c0, m, c, r, a, d);
    case ScriptWork => EmptyScriptStep(now, o, c0, rec, c, r, a, d);
    case CloneRemoval => EmptyCloneStep(now, o, c0, rec, c, r, a, d);
  }

  lemma EmptyScriptStep(now: nat, o: Owner, c0: Cloud, rec: Option<Id>, c: Cloud, r: Run, a: Response, d: Cloud)
    requires PartOf(r.pc).ScriptWork? && Emptying(o, c0, rec, c, r) && Clean(now, o, r, c, a, d)
    ensures Emptying(o, c0, rec, d, Handle(o, r, a))
  {
    CleanScripts(now, o, r, c, a, d);
    EmptyScripts(o, c0, rec, c, r, a, d);
  }

  lemma EmptyCloneStep(now: nat, o: Owner, c0: Cloud, rec: Option<Id>, c: Cloud, r: Run, a: Response, d: Cloud)
    requires PartOf(r.pc).CloneRemoval? && Emptying(o, c0, rec, c, r) && Clean(now, o, r, c, a, d)
    ensures Emptying(o, c0, rec, d, Handle(o, r, a))
  {
    CleanClone(now, o, r, c, a, d);
    EmptyClone(o, c0, rec, c, r, a, d);
  }

  lemma EmptiesTo(now: nat, o: Owner, c: Cloud, m: Object, d: Cloud, m': Object, n: nat)
    requires Ours(c, o, m) && HeightOf(c, o, m.primary.instance) == 0
    requires Reaches(now, o, c, m, d, m', n)
    ensures Emptying(o, c, m.primary.instance, d, Run(m', Finished))
  {
    var inv := (x: Point) => Emptying(o, c, m.primary.instance, x.cloud, x.run);
    var step := CleanCall(now, o);
    forall x, y | inv(x) && step(x, y) ensures inv(y) {
      var a :| Clean(now, o, x.run, x.cloud, a, y.cloud) && y.run == Handle(o, x.run, a);
      EmptyStep(now, o, c, m, x.cloud, x.run, a, y.cloud);
    }
    PathKeeps(step, inv, Point(c, Start(o, m)), Point(d, Run(m', Finished)), n);
  }

  /** With the instance gone, the finalizer goes if and only if no volume is pending; nothing comes back up. */
  lemma RoundEmpties(now: nat, o: Owner, c: Cloud, m: Object, d: Cloud, m': Object, n: nat)
    requires Ours(c, o, m) && HeightOf(c, o, m.primary.instance) == 0
    requires Reaches(now, o, c, m, d, m', n)
    ensures m'.finalizer <==> PendingOf(c, m.primary.instance) > 0
    ensures m'.primary.instance == m.primary.instance && HeightOf(d, o, m.primary.instance) == 0
    ensures m'.finalizer ==> PendingOf(d, m.primary.instance) == PendingOf(c, m.primary.instance)
  {
    var rec := m.primary.instance;
    EmptiesTo(now, o, c, m, d, m', n);
    assert forall id :: LiveFor(d, o, Primary, id) <==> LiveFor(c, o, Primary, id);
    if m'.finalizer {
      assert VolumesOfRecord(d, rec) == VolumesOfRecord(c, rec);
      SamePending(c, d, VolumesOfRecord(c, rec));
    }
  }
}
