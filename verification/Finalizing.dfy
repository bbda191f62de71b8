/**
 Deleting a machine comes to an end. Every call of a deletion can be answered, every reconcile of it
 takes a bounded number of calls, a reconcile leaves off where the next one can start, and with what
 the cloud does in between the finalizer is gone after a bounded number of reconciles.
 */
module Finalizing {
  import opened Prelude
  import opened Owners
  import opened CloudApi
  import opened Client
  import opened Reconcile
  import opened Protocol
  import opened Ownership
  import opened Targets
  import opened Fleet
  import opened Draining

  // Every call of a deletion has a clean answer.

  lemma {:induction false} SomeInstances(c: Cloud, ids: set<Id>) returns (rows: seq<InstanceRow>)
    requires forall id :: id in ids ==> id in c.instances
    ensures forall r :: r in rows <==> r.id in ids && c.instances[r.id] == r.inst
    decreases |ids|
  {
    rows := [];
    if ids != {} {
      var id :| id in ids;
      rows := SomeInstances(c, ids - {id});
      rows := rows + [InstanceRow(id, c.instances[id])];
    }
  }

  lemma {:induction false} SomeScripts(c: Cloud, ids: set<Id>) returns (rows: seq<ScriptRow>)
    requires forall id :: id in ids ==> id in c.scripts
    ensures forall r :: r in rows <==> r.id in ids && c.scripts[r.id] == r.name
    ensures |rows| == |ids|
    decreases |ids|
  {
    rows := [];
    if ids != {} {
      var id :| id in ids;
      rows := SomeScripts(c, ids - {id});
      rows := rows + [ScriptRow(id, c.scripts[id])];
    }
  }

  lemma InstancesListed(c: Cloud) returns (rows: seq<InstanceRow>)
    ensures Lists(c, rows)
  {
    rows := SomeInstances(c, set id | id in c.instances && !Gone(c.instances[id].status));
  }

  lemma ScriptsListed(c: Cloud) returns (rows: seq<ScriptRow>)
    ensures ListsScripts(c, rows) && |rows| == |c.scripts|
  {
    rows := SomeScripts(c, c.scripts.Keys);
  }

  predicate Reads(call: Call) {
    || call.GetInstance? || call.ListInstances? || call.ListScripts?
    || call.GetVolume? || call.ListTrash? || call.ReadClock?
  }

  predicate Removes(call: Call) {
    call.ShutdownInstance? || call.DeleteInstance? || call.DeleteScript? || call.DestroyVolume?
  }

  lemma ReadAnswered(now: nat, c: Cloud, call: Call) returns (a: Response)
    requires Reads(call)
    ensures CleanAnswer(now, call, c, a, c) && (call.ListScripts? ==> a.Scripts? && |a.names| == |c.scripts|)
  {
    match call
    case GetInstance(id) => a := if id in c.instances then OneInstance(InstanceRow(id, c.instances[id])) else Missing;
    case ListInstances =>
      var rows := InstancesListed(c);
      a := Instances(rows);
    case ListScripts =>
      var rows := ScriptsListed(c);
      a := Scripts(rows);
    case GetVolume(id) => a := if id in c.volumes then OneVolume(VolumeRow(id, c.volumes[id])) else Missing;
    case ListTrash => a := Trash(set v | v in c.volumes && c.volumes[v].trashed);
    case ReadClock => a := Time(now);
  }

  /** A removal can be carried out, unless it is to shut down what is already gone. */
  lemma RemovalAnswered(now: nat, c: Cloud, call: Call) returns (a: Response, d: Cloud)
    requires Removes(call)
    requires call.ShutdownInstance? && call.id in c.instances ==> !Gone(c.instances[call.id].status)
    ensures CleanAnswer(now, call, c, a, d)
  {
    a, d := Done, c;
    match call
    case ShutdownInstance(id) =>
      if id in c.instances {
        d := c.(instances := c.instances[id := c.instances[id].(status := Offline)]);
      } else {
        a := Missing;
      }
    case DeleteInstance(id, _) =>
      if id !in c.instances {
        a := Missing;
      } else if !Gone(c.instances[id].status) {
        d := c.(instances := c.instances[id := c.instances[id].(status := Deleting)]);
        assert d.instances == c.instances[id := d.instances[id]];
      } else {
        assert c.instances == c.instances[id := c.instances[id]];
      }
    case DeleteScript(id) =>
      if id in c.scripts { d := c.(scripts := c.scripts - {id}); } else { a := Missing; }
    case DestroyVolume(id) =>
      if id in c.volumes { d := c.(volumes := c.volumes - {id}); } else { a := Missing; }
  }

  lemma CallAnswered(now: nat, c: Cloud, call: Call) returns (a: Response, d: Cloud)
    requires Reads(call) || Removes(call)
    requires call.ShutdownInstance? && call.id in c.instances ==> !Gone(c.instances[call.id].status)
    ensures CleanAnswer(now, call, c, a, d) && (call.ListScripts? ==> a.Scripts? && |a.names| == |c.scripts|)
  {
    if Reads(call) {
      a := ReadAnswered(now, c, call);
      d := c;
    } else {
      a, d := RemovalAnswered(now, c, call);
    }
  }

  // How many calls a reconcile has left.

  function Left(c: Cloud, r: Run): nat {
    match r.pc
    case AtLookup(_, _) => 7 + |VolumesOfRecord(c, r.mem.primary.instance)| + |c.scripts|
    case AtPurgeGet(_, _, _) => 6 + |VolumesOfRecord(c, r.mem.primary.instance)| + |c.scripts|
    case AtPurgeTrash(_, _, vols, _) => 5 + |vols| + |c.scripts|
    case AtPurge(_, _, vols, n, _, _, _) => if n < |vols| then 4 + |vols| - n + |c.scripts| else 0
    case AtScriptList(_, _) => 4 + |c.scripts|
    case AtScriptForget(_) => 4
    case AtScriptDelete(_, _, ids) => 3 + |ids|
    case AtDueCheck(_, _) => 3
    case AtOsGet => 3
    case AtDeleteGet(_, _, _) => 2
    case AtOsCheck => 2
    case AtShutdown(_, _, _) => 1
    case AtDelete(_, _, _, _) => 1
    case AtOsDelete => 1
    case _ => 0
  }

  ghost predicate Waiting(o: Owner, c0: Cloud, m: Object, c: Cloud, r: Run) {
    c == c0 && (r == Start(o, m) || r == Stop(Start(o, m).mem.(state := Deleting)))
  }

  /** Where a reconcile without errors can be, by the height at which it found the instance. */
  ghost predicate Drains(o: Owner, c0: Cloud, m: Object, x: Point) {
    var h := HeightOf(c0, o, m.primary.instance);
    if h >= 2 then Falling(o, c0, m, h, x.cloud, x.run)
    else if h == 1 then Waiting(o, c0, m, x.cloud, x.run)
    else Emptying(o, c0, m.primary.instance, x.cloud, x.run)
  }

  lemma DrainStarts(o: Owner, c: Cloud, m: Object)
    requires Ours(c, o, m)
    ensures Drains(o, c, m, Point(c, Start(o, m)))
  {
  }

  lemma DrainStep(now: nat, o: Owner, c0: Cloud, m: Object, x: Point, a: Response, d: Cloud)
    requires Ours(c0, o, m) && Due(m, now)
    requires Drains(o, c0, m, x) && !x.run.pc.Finished? && Clean(now, o, x.run, x.cloud, a, d)
    ensures Drains(o, c0, m, Point(d, Handle(o, x.run, a)))
  {
    var h := HeightOf(c0, o, m.primary.instance);
    if h >= 2 {
      FallStep(now, o, c0, m, h, x.cloud, x.run, a, d);
    } else if h == 1 {
      LookupDeleting(now, o, c0, m, x.run, a, d);
    } else {
      EmptyStep(now, o, c0, m, x.cloud, x.run, a, d);
    }
  }

  lemma FallingCalls(o: Owner, c0: Cloud, m: Object, h: nat, c: Cloud, r: Run)
    requires Falling(o, c0, m, h, c, r) && !r.pc.Finished?
    ensures var call := NextCall(o, r);
            && (Reads(call) || Removes(call)) && !call.ListScripts? && !r.pc.AtCreate?
            && (call.ShutdownInstance? && call.id in c.instances ==> !Gone(c.instances[call.id].status))
  {
  }

  lemma EmptyingCalls(o: Owner, c0: Cloud, rec: Option<Id>, c: Cloud, r: Run)
    requires Emptying(o, c0, rec, c, r) && !r.pc.Finished?
    ensures var call := NextCall(o, r);
            && (Reads(call) || Removes(call)) && !call.ShutdownInstance? && !r.pc.AtCreate?
            && (call.ListScripts? ==> r.pc.AtScriptList?)
  {
  }

  lemma DrainCalls(o: Owner, c0: Cloud, m: Object, x: Point)
    requires Ours(c0, o, m) && Drains(o, c0, m, x) && !x.run.pc.Finished?
    ensures var call := NextCall(o, x.run);
            && (Reads(call) || Removes(call)) && !x.run.pc.AtCreate?
            && (call.ShutdownInstance? && call.id in x.cloud.instances ==> !Gone(x.cloud.instances[call.id].status))
  {
    var h := HeightOf(c0, o, m.primary.instance);
    if h >= 2 {
      FallingCalls(o, c0, m, h, x.cloud, x.run);
    } else if h == 0 {
      EmptyingCalls(o, c0, m.primary.instance, x.cloud, x.run);
    }
  }

  // Each clean answer leaves fewer calls.

  lemma ScriptsShorter(o: Owner, m: Object, c: Cloud)
    requires o.Machine?
    ensures Left(c, StartScripts(o, m, Primary)) <= 4 + |c.scripts| && Left(c, AfterScripts(o, m, Primary)) <= 3
  {
  }

  lemma {:induction false} ScriptsNamedFewer(rows: seq<ScriptRow>, name: string)
    ensures |ScriptsNamed(rows, name)| <= |rows|
  {
    if rows != [] {
      ScriptsNamedFewer(rows[1..], name);
    }
  }

  lemma LookupShorter(o: Owner, c: Cloud, r: Run, a: Response)
    requires o.Machine? && r.pc == AtLookup(Primary, Teardown)
    ensures Left(c, Handle(o, r, a)) < Left(c, r)
  {
    ScriptsShorter(o, r.mem, c);
  }

  lemma FallShorter(now: nat, o: Owner, c0: Cloud, m: Object, h: nat, c: Cloud, r: Run, a: Response, d: Cloud)
    requires Falling(o, c0, m, h, c, r) && !r.pc.Finished? && Falling(o, c0, m, h, d, Handle(o, r, a))
    requires Clean(now, o, r, c, a, d)
    ensures Left(d, Handle(o, r, a)) < Left(c, r)
  {
    if r.pc.AtLookup? {
      LookupReads(now, o, r, c, a, d);
      LookupShorter(o, c, r, a);
    } else if r.pc.AtDueCheck? {
      DueShorter(o, c, r, a, d);
    } else {
      AskShorter(o, c0, m, h, c, r, a, d);
    }
  }

  lemma DueShorter(o: Owner, c: Cloud, r: Run, a: Response, d: Cloud)
    requires r.pc.AtDueCheck?
    ensures Left(d, Handle(o, r, a)) < Left(c, r)
  {
  }

  lemma AskShorter(o: Owner, c0: Cloud, m: Object, h: nat, c: Cloud, r: Run, a: Response, d: Cloud)
    requires (r.pc.AtDeleteGet? || r.pc.AtShutdown? || r.pc.AtDelete?) && r.pc.dwhy.TeardownAsk?
    requires Falling(o, c0, m, h, d, Handle(o, r, a))
    ensures Left(d, Handle(o, r, a)) < Left(c, r)
  {
  }

  lemma PurgeNextShorter(o: Owner, m: Object, id: Id, vols: seq<Id>, n: nat, trash: set<Id>, pending: nat, c: Cloud)
    requires o.Machine? && n <= |vols|
    ensures Left(c, PurgeNext(o, m, Primary, id, vols, n, trash, pending, InTeardown)) <= 4 + |vols| - n + |c.scripts|
  {
    ScriptsShorter(o, m, c);
  }

  lemma PurgeStartShorter(o: Owner, c: Cloud, r: Run, a: Response)
    requires (r.pc.AtPurgeGet? || r.pc.AtPurgeTrash?) && o.Machine? && r.pc.s.Primary? && r.pc.pwhy.InTeardown?
    requires r.pc.AtPurgeGet? ==> r.mem.primary.instance == Some(r.pc.id)
    requires r.pc.AtPurgeGet? && a.OneInstance? ==> r.pc.id in c.instances && a.row.inst == c.instances[r.pc.id]
    ensures Left(c, HandlePurge(o, r.mem, r.pc, a)) < Left(c, r)
  {
    if r.pc.AtPurgeGet? {
      ScriptsShorter(o, r.mem, c);
    } else if a.Trash? {
      PurgeNextShorter(o, r.mem, r.pc.id, r.pc.vols, 0, a.ids, 0, c);
    }
  }

  lemma PurgeOneShorter(o: Owner, c: Cloud, r: Run, a: Response, d: Cloud)
    requires r.pc.AtPurge? && o.Machine? && r.pc.s.Primary? && r.pc.pwhy.InTeardown? && r.pc.n < |r.pc.vols|
    requires d.scripts == c.scripts
    ensures Left(d, HandlePurge(o, r.mem, r.pc, a)) < Left(c, r)
  {
    PurgeNextShorter(o, r.mem, r.pc.id, r.pc.vols, r.pc.n + 1, r.pc.trash, r.pc.pending, d);
    PurgeNextShorter(o, r.mem, r.pc.id, r.pc.vols, r.pc.n + 1, r.pc.trash, r.pc.pending + 1, d);
  }

  lemma CleanPurge(now: nat, o: Owner, c0: Cloud, rec: Option<Id>, c: Cloud, r: Run, a: Response, d: Cloud)
    requires PartOf(r.pc).Purging? && Emptying(o, c0, rec, c, r) && Clean(now, o, r, c, a, d)
    ensures d.scripts == c.scripts && (!r.pc.AtPurge? ==> d == c)
    ensures r.pc.AtPurgeGet? && a.OneInstance? ==> r.pc.id in c.instances && a.row.inst == c.instances[r.pc.id]
  {
  }

  lemma PurgeShorter(now: nat, o: Owner, c0: Cloud, rec: Option<Id>, c: Cloud, r: Run, a: Response, d: Cloud)
    requires PartOf(r.pc).Purging? && Emptying(o, c0, rec, c, r) && Clean(now, o, r, c, a, d)
    ensures Left(d, HandlePurge(o, r.mem, r.pc, a)) < Left(c, r)
  {
    CleanPurge(now, o, c0, rec, c, r, a, d);
    if r.pc.AtPurge? {
      PurgeOneShorter(o, c, r, a, d);
    } else {
      PurgeStartShorter(o, c, r, a);
    }
  }

  lemma ScriptWorkShorter(o: Owner, c0: Cloud, rec: Option<Id>, c: Cloud, r: Run, a: Response, d: Cloud)
    requires PartOf(r.pc).ScriptWork? && Emptying(o, c0, rec, c, r)
    requires r.pc.AtScriptList? ==> a.Scripts? && |a.names| <= |c.scripts|
    ensures Left(d, HandleScripts(o, r.mem, r.pc, a)) < Left(c, r)
  {
    ScriptsShorter(o, r.mem, d);
    ScriptsShorter(o, r.mem.(primary := r.mem.primary.(script := None)), d);
    if r.pc.AtScriptList? {
      ScriptsNamedFewer(a.names, Hostname(o, Primary));
    }
  }

  lemma CloneShorter(o: Owner, m: Object, pc: Pc, c: Cloud, a: Response, d: Cloud)
    requires PartOf(pc).CloneRemoval?
    ensures Left(d, HandleCloneRemoval(o, m, pc, a)) < Left(c, Run(m, pc))
  {
  }

  lemma EmptyShorter(now: nat, o: Owner, c0: Cloud, rec: Option<Id>, c: Cloud, r: Run, a: Response, d: Cloud)
    requires Emptying(o, c0, rec, c, r) && !r.pc.Finished? && Clean(now, o, r, c, a, d)
    requires r.pc.AtScriptList? ==> a.Scripts? && |a.names| <= |c.scripts|
    ensures Left(d, Handle(o, r, a)) < Left(c, r)
  {
    if r.pc.AtLookup? {
      LookupReads(now, o, r, c, a, d);
      LookupShorter(o, c, r, a);
    } else {
      EmptyWorkShorter(now, o, c0, rec, c, r, a, d);
    }
  }

  lemma EmptyWorkShorter(now: nat, o: Owner, c0: Cloud, rec: Option<Id>, c: Cloud, r: Run, a: Response, d: Cloud)
    requires Emptying(o, c0, rec, c, r) && !r.pc.Finished? && !r.pc.AtLookup? && Clean(now, o, r, c, a, d)
    requires r.pc.AtScriptList? ==> a.Scripts? && |a.names| <= |c.scripts|
    ensures Left(d, Handle(o, r, a)) < Left(c, r)
  {
    match PartOf(r.pc)
    case Purging => PurgeShorter(now, o, c0, rec, c, r, a, d);
    case ScriptWork => ScriptWorkShorter(o, c0, rec, c, r, a, d);
    case CloneRemoval => CloneShorter(o, r.mem, r.pc, c, a, d);
  }

  lemma WaitShorter(now: nat, o: Owner, c0: Cloud, m: Object, x: Point, a: Response, d: Cloud)
    requires Ours(c0, o, m) && HeightOf(c0, o, m.primary.instance) == 1
    requires Waiting(o, c0, m, x.cloud, x.run) && !x.run.pc.Finished? && Clean(now, o, x.run, x.cloud, a, d)
    ensures Left(d, Handle(o, x.run, a)) < Left(x.cloud, x.run)
  {
    LookupReads(now, o, x.run, x.cloud, a, d);
    LookupShorter(o, x.cloud, x.run, a);
  }

  lemma DrainShorter(now: nat, o: Owner, c0: Cloud, m: Object, x: Point, a: Response, d: Cloud)
    requires Ours(c0, o, m) && Due(m, now) && Drains(o, c0, m, x) && !x.run.pc.Finished?
    requires Clean(now, o, x.run, x.cloud, a, d) && Drains(o, c0, m, Point(d, Handle(o, x.run, a)))
    requires NextCall(o, x.run).ListScripts? ==> a.Scripts? && |a.names| <= |x.cloud.scripts|
    ensures Left(d, Handle(o, x.run, a)) < Left(x.cloud, x.run)
  {
    var h := HeightOf(c0, o, m.primary.instance);
    if h >= 2 {
      FallShorter(now, o, c0, m, h, x.cloud, x.run, a, d);
    } else if h == 1 {
      WaitShorter(now, o, c0, m, x, a, d);
    } else {
      EmptyShorter(now, o, c0, m.primary.instance, x.cloud, x.run, a, d);
    }
  }

  /** Wherever a reconcile without errors is, its next call can be answered and brings it nearer to its end. */
  lemma DrainMoves(now: nat, o: Owner, c0: Cloud, m: Object, x: Point) returns (y: Point)
    requires Ours(c0, o, m) && Due(m, now) && Drains(o, c0, m, x) && !x.run.pc.Finished?
    ensures CleanCall(now, o)(x, y) && Drains(o, c0, m, y) && Left(y.cloud, y.run) < Left(x.cloud, x.run)
  {
    DrainCalls(o, c0, m, x);
    var a, d := CallAnswered(now, x.cloud, NextCall(o, x.run));
    DrainStep(now, o, c0, m, x, a, d);
    DrainShorter(now, o, c0, m, x, a, d);
    y := Point(d, Handle(o, x.run, a));
    assert Clean(now, o, x.run, x.cloud, a, y.cloud) && y.run == Handle(o, x.run, a);
  }

  lemma DrainsAlong(now: nat, o: Owner, c: Cloud, m: Object, x: Point, k: nat)
    requires Ours(c, o, m) && Due(m, now) && Path(CleanCall(now, o), Point(c, Start(o, m)), x, k)
    ensures Drains(o, c, m, x)
  {
    var step, inv := CleanCall(now, o), (y: Point) => Drains(o, c, m, y);
    DrainStarts(o, c, m);
    forall y, z | inv(y) && step(y, z) ensures inv(z) {
      var a :| Clean(now, o, y.run, y.cloud, a, z.cloud) && z.run == Handle(o, y.run, a);
      DrainStep(now, o, c, m, y, a, z.cloud);
    }
    PathKeeps(step, inv, Point(c, Start(o, m)), x, k);
  }

  /**
   However many calls a reconcile has made without errors, it can be completed without errors, in at
   most as many calls as it has left.
   */
  lemma RoundFinishes(now: nat, o: Owner, c: Cloud, m: Object, x: Point, k: nat) returns (d: Cloud, m': Object, n: nat)
    requires Ours(c, o, m) && Due(m, now) && Path(CleanCall(now, o), Point(c, Start(o, m)), x, k)
    ensures n <= Left(x.cloud, x.run) && Path(CleanCall(now, o), x, Point(d, Run(m', Finished)), n)
  {
    var step, inv := CleanCall(now, o), (y: Point) => Drains(o, c, m, y);
    var done, rank := (y: Point) => y.run.pc.Finished?, (y: Point) => Left(y.cloud, y.run);
    DrainsAlong(now, o, c, m, x, k);
    forall y | inv(y) && !done(y) ensures exists z :: step(y, z) && inv(z) && rank(z) < rank(y) {
      var z := DrainMoves(now, o, c, m, y);
      assert step(y, z) && inv(z) && rank(z) < rank(y);
    }
    var y: Point;
    y, n := PathTo(step, inv, done, rank, x);
    d, m' := y.cloud, y.run.mem;
  }

  /** A reconcile without errors exists, and takes at most seven calls more than there are volumes and scripts. */
  lemma RoundExists(now: nat, o: Owner, c: Cloud, m: Object) returns (d: Cloud, m': Object, n: nat)
    requires Ours(c, o, m) && Due(m, now)
    ensures Reaches(now, o, c, m, d, m', n)
    ensures n <= 7 + |VolumesOfRecord(c, m.primary.instance)| + |c.scripts|
  {
    d, m', n := RoundFinishes(now, o, c, m, Point(c, Start(o, m)), 0);
  }

  // Where a reconcile leaves off, the next one can start.

  lemma TameEvolves(c: Cloud, d: Cloud, o: Owner, rec: Option<Id>)
    requires Tame(c, o, rec) && Evolves(c, d) && Shrinks(c, d, o, Primary)
    ensures Tame(d, o, rec)
  {
    forall id | LiveFor(d, o, Primary, id) ensures d.instances[id].managed {
      assert LiveFor(c, o, Primary, id);
    }
  }

  lemma TameStep(now: nat, o: Owner, c0: Cloud, m: Object, x: Point, a: Response, d: Cloud)
    requires Ours(c0, o, m) && Drains(o, c0, m, x) && !x.run.pc.Finished?
    requires Tame(x.cloud, o, m.primary.instance) && Clean(now, o, x.run, x.cloud, a, d)
    ensures Tame(d, o, m.primary.instance)
  {
    DrainCalls(o, c0, m, x);
    assert HasSlot(o, Primary);
    QuietShrinks(o, x.cloud, x.run, a, d);
    AnswersEvolve(x.cloud, NextCall(o, x.run), d, a);
    TameEvolves(x.cloud, d, o, m.primary.instance);
  }

  lemma RoundTame(now: nat, o: Owner, c: Cloud, m: Object, d: Cloud, m': Object, n: nat)
    requires Ours(c, o, m) && Due(m, now) && Reaches(now, o, c, m, d, m', n)
    ensures Tame(d, o, m.primary.instance)
  {
    var step := CleanCall(now, o);
    var inv := (y: Point) => Drains(o, c, m, y) && Tame(y.cloud, o, m.primary.instance);
    DrainStarts(o, c, m);
    forall y, z | inv(y) && step(y, z) ensures inv(z) {
      var a :| Clean(now, o, y.run, y.cloud, a, z.cloud) && z.run == Handle(o, y.run, a);
      DrainStep(now, o, c, m, y, a, z.cloud);
      TameStep(now, o, c, m, y, a, z.cloud);
    }
    PathKeeps(step, inv, Point(c, Start(o, m)), Point(d, Run(m', Finished)), n);
  }

  /** What one reconcile does to the distance, by the height at which it finds the instance. */
  lemma RoundOutcome(now: nat, o: Owner, c: Cloud, m: Object, d: Cloud, m': Object, n: nat)
    requires Ours(c, o, m) && Due(m, now) && Reaches(now, o, c, m, d, m', n)
    ensures var rec := m.primary.instance;
            var h, k := HeightOf(c, o, rec), HeightOf(d, o, rec);
            && m'.primary.instance == rec
            && (h >= 2 ==> k < h && m'.finalizer)
            && (h == 1 ==> k == 1 && m'.finalizer)
            && (h == 0 ==> k == 0 && (m'.finalizer <==> PendingOf(c, rec) > 0))
            && (h == 0 && m'.finalizer ==> PendingOf(d, rec) == PendingOf(c, rec))
  {
    var h := HeightOf(c, o, m.primary.instance);
    if h >= 2 {
      RoundFalls(now, o, c, m, d, m', n);
    } else if h == 1 {
      RoundWaits(now, o, c, m, d, m', n);
    } else {
      RoundEmpties(now, o, c, m, d, m', n);
    }
  }

  // Many reconciles.

  /** One error-free reconcile of the machine: cloud and object before, cloud after, object as patched. */
  datatype Round = Round(now: nat, before: Cloud, obj: Object, after: Cloud, patched: Object)

  ghost predicate Happens(o: Owner, x: Round) {
    && Due(x.obj, x.now)
    && exists mem, n :: Reaches(x.now, o, x.before, x.obj, x.after, mem, n)
                        && x.patched == Patched(x.obj, mem, true, true, true)
  }

  /**
   What happens until the next reconcile, at the state `c` of the cloud: others do what they may do,
   the instance is not started again, the cloud finishes deleting, of the pending volumes it releases
   at least one, and the clone keeps its tag.
   */
  ghost predicate Settles(o: Owner, x: Round, c: Cloud, most: nat) {
    var rec := x.obj.primary.instance;
    var h, k := HeightOf(x.after, o, rec), HeightOf(c, o, rec);
    && Rely(o, x.after, c) && CloneManaged(c, o, x.patched)
    && k <= h && (h == 1 ==> k == 0)
    && (k == 0 ==> PendingOf(c, rec) <= most)
    && (h == 0 && PendingOf(x.after, rec) > 0 ==> PendingOf(c, rec) < PendingOf(x.after, rec))
  }

  /** As long as the finalizer is there, the next reconcile starts where this one could. */
  lemma OursAgain(o: Owner, x: Round, c: Cloud)
    requires Ours(x.before, o, x.obj) && Happens(o, x) && x.patched.finalizer
    requires Rely(o, x.after, c) && CloneManaged(c, o, x.patched)
    ensures Ours(c, o, x.patched)
  {
    var mem, n :| Reaches(x.now, o, x.before, x.obj, x.after, mem, n)
                  && x.patched == Patched(x.obj, mem, true, true, true);
    RoundTame(x.now, o, x.before, x.obj, x.after, mem, n);
    RoundOutcome(x.now, o, x.before, x.obj, x.after, mem, n);
    assert HasSlot(o, Primary);
    RelyShrinks(o, x.after, c, Primary);
    TameEvolves(x.after, c, o, x.obj.primary.instance);
  }

  /** Where a deletion stands: how far up the instance is, then how many volumes are pending. */
  ghost function Distance(c: Cloud, o: Owner, rec: Option<Id>, most: nat): nat {
    var h := HeightOf(c, o, rec);
    h * (most + 1) + if h == 0 then PendingOf(c, rec) else most
  }

  ghost function DistanceOf(o: Owner, x: Round, most: nat): nat {
    Distance(x.before, o, x.obj.primary.instance, most)
  }

  lemma Further(h: nat, k: nat, p: nat, most: nat)
    requires k < h && p <= most
    ensures k * (most + 1) + p < h * (most + 1)
  {
    assert (k + 1) * (most + 1) <= h * (most + 1);
  }

  lemma RoundLowers(o: Owner, x: Round, c: Cloud, most: nat)
    requires Ours(x.before, o, x.obj) && Happens(o, x) && x.patched.finalizer && Settles(o, x, c, most)
    ensures var rec := x.obj.primary.instance;
            var h, k := HeightOf(x.before, o, rec), HeightOf(c, o, rec);
            && x.patched.primary.instance == rec
            && if h > 0 then k < h && (k == 0 ==> PendingOf(c, rec) <= most)
               else k == 0 && PendingOf(c, rec) < PendingOf(x.before, rec)
  {
    var mem, n :| Reaches(x.now, o, x.before, x.obj, x.after, mem, n)
                  && x.patched == Patched(x.obj, mem, true, true, true);
    RoundOutcome(x.now, o, x.before, x.obj, x.after, mem, n);
  }

  /** Every reconcile, with what the cloud does after it, leaves less to be done. */
  lemma RoundProgress(o: Owner, x: Round, c: Cloud, most: nat)
    requires Ours(x.before, o, x.obj) && Happens(o, x) && x.patched.finalizer && Settles(o, x, c, most)
    ensures x.patched.primary.instance == x.obj.primary.instance
    ensures Distance(c, o, x.patched.primary.instance, most) < DistanceOf(o, x, most)
  {
    var rec := x.obj.primary.instance;
    RoundLowers(o, x, c, most);
    Nearer(HeightOf(x.before, o, rec), PendingOf(x.before, rec), HeightOf(c, o, rec), PendingOf(c, rec), most);
  }

  /** Lower, or as low with fewer volumes pending. */
  lemma Nearer(h: nat, p: nat, k: nat, r: nat, most: nat)
    requires (h > 0 && k < h && (k == 0 ==> r <= most)) || (h == 0 && k == 0 && r < p)
    ensures k * (most + 1) + (if k == 0 then r else most) < h * (most + 1) + if h == 0 then p else most
  {
    if h > 0 {
      Further(h, k, if k == 0 then r else most, most);
    }
  }

  lemma NoDistance(c: Cloud, o: Owner, rec: Option<Id>, most: nat)
    requires Distance(c, o, rec, most) == 0
    ensures HeightOf(c, o, rec) == 0 && PendingOf(c, rec) == 0
  {
    if HeightOf(c, o, rec) > 0 {
      Further(HeightOf(c, o, rec), 0, 0, most);
    }
  }

  lemma LastRound(o: Owner, x: Round, most: nat)
    requires Ours(x.before, o, x.obj) && Happens(o, x) && DistanceOf(o, x, most) == 0
    ensures !x.patched.finalizer
  {
    NoDistance(x.before, o, x.obj.primary.instance, most);
    var mem, n :| Reaches(x.now, o, x.before, x.obj, x.after, mem, n)
                  && x.patched == Patched(x.obj, mem, true, true, true);
    RoundOutcome(x.now, o, x.before, x.obj, x.after, mem, n);
  }

  ghost predicate Follows(o: Owner, x: Round, y: Round, most: nat) {
    y.obj == x.patched && Settles(o, x, y.before, most)
  }

  /** Error-free reconciles, one after the other. */
  ghost predicate Rounds(o: Owner, rounds: seq<Round>, most: nat) {
    && (forall i :: 0 <= i < |rounds| ==> Happens(o, rounds[i]))
    && (forall i :: 0 < i < |rounds| ==> Follows(o, rounds[i - 1], rounds[i], most))
  }

  lemma {:induction false} LaterRounds(o: Owner, rounds: seq<Round>, most: nat)
    requires |rounds| > 1 && Rounds(o, rounds, most)
    ensures Rounds(o, rounds[1..], most)
  {
    var tail := rounds[1..];
    forall i | 0 < i < |tail| ensures Follows(o, tail[i - 1], tail[i], most) {
      assert Follows(o, rounds[i + 1 - 1], rounds[i + 1], most);
    }
  }

  /**
   From wherever a deletion can start, error-free reconciles take the finalizer away: the reconcile
   that does so is among the first ones, up to the distance.
   */
  lemma {:induction false} DeletionEnds(o: Owner, rounds: seq<Round>, most: nat) returns (i: nat)
    requires rounds != [] && Ours(rounds[0].before, o, rounds[0].obj) && Rounds(o, rounds, most)
    requires |rounds| > DistanceOf(o, rounds[0], most)
    ensures i <= DistanceOf(o, rounds[0], most) && !rounds[i].patched.finalizer
    decreases |rounds|
  {
    var x := rounds[0];
    assert Happens(o, x);
    if !x.patched.finalizer {
      i := 0;
    } else if |rounds| == 1 {
      LastRound(o, x, most);
    } else {
      var y := rounds[1];
      assert Follows(o, rounds[1 - 1], y, most);
      OursAgain(o, x, y.before);
      RoundProgress(o, x, y.before, most);
      LaterRounds(o, rounds, most);
      var j := DeletionEnds(o, rounds[1..], most);
      i := j + 1;
    }
  }

  /** What a cloud does after a reconcile, and the time at which the next one begins. */
  type Habit = Round -> (nat, Cloud)

  /** The cloud settles after every reconcile, and the next one begins when a request is due. */
  ghost predicate Cooperates(o: Owner, habit: Habit, most: nat) {
    forall x: Round :: Ours(x.before, o, x.obj) && Happens(o, x) && x.patched.finalizer ==>
      Settles(o, x, habit(x).1, most) && Due(x.patched, habit(x).0)
  }

  lemma NothingLeftSettles(o: Owner, x: Round, most: nat)
    ensures Settles(o, x, Cloud(map[], map[], map[], x.after.next), most)
  {
  }

  /** There are such clouds: one that lets go of everything, for example. */
  lemma SomeCloudCooperates(o: Owner, most: nat) returns (habit: Habit)
    ensures Cooperates(o, habit, most)
  {
    habit := (x: Round) =>
      (if Primary in x.patched.asked then x.patched.asked[Primary].at * SECOND + DELETE_RETRY else 0,
       Cloud(map[], map[], map[], x.after.next));
    forall x: Round ensures Settles(o, x, habit(x).1, most) && Due(x.patched, habit(x).0) {
      NothingLeftSettles(o, x, most);
    }
  }

  lemma {:induction false} PutFirst(o: Owner, x: Round, rounds: seq<Round>, most: nat)
    requires rounds != [] && Happens(o, x) && Rounds(o, rounds, most) && Follows(o, x, rounds[0], most)
    ensures Rounds(o, [x] + rounds, most)
  {
    var all := [x] + rounds;
    forall i | 0 < i < |all| ensures Follows(o, all[i - 1], all[i], most) {
      if i > 1 {
        assert Follows(o, rounds[i - 1 - 1], rounds[i - 1], most);
      }
    }
  }

  /**
   Whatever a cooperating cloud does between the reconciles, the deletion can be carried through: there
   are reconciles without errors, no more of them than the distance and one, of which the last one
   takes the finalizer away.
   */
  lemma DeletionCompletes(o: Owner, now: nat, c: Cloud, m: Object, habit: Habit, most: nat) returns (rounds: seq<Round>)
    requires Ours(c, o, m) && Due(m, now) && Cooperates(o, habit, most)
    ensures rounds != [] && rounds[0].before == c && rounds[0].obj == m && Rounds(o, rounds, most)
    ensures |rounds| <= Distance(c, o, m.primary.instance, most) + 1 && !rounds[|rounds| - 1].patched.finalizer
    decreases Distance(c, o, m.primary.instance, most)
  {
    var d, m', n := RoundExists(now, o, c, m);
    var x := Round(now, c, m, d, Patched(m, m', true, true, true));
    assert Happens(o, x);
    rounds := [x];
    if x.patched.finalizer {
      var next := habit(x);
      assert Settles(o, x, next.1, most) && Due(x.patched, next.0);
      OursAgain(o, x, next.1);
      RoundProgress(o, x, next.1, most);
      var rest := DeletionCompletes(o, next.0, next.1, x.patched, habit, most);
      PutFirst(o, x, rest, most);
      rounds := [x] + rest;
    }
  }

  // Where deletions start.

  /** Whatever carries a tag of the owner is managed. */
  ghost predicate TaggedManaged(c: Cloud, o: Owner) {
    forall id :: id in c.instances && CarriesTagOf(o, c.instances[id]) ==> c.instances[id].managed
  }

  lemma RelyManaged(o: Owner, c: Cloud, d: Cloud)
    requires TaggedManaged(c, o) && Rely(o, c, d)
    ensures TaggedManaged(d, o)
  {
    forall id | id in d.instances && CarriesTagOf(o, d.instances[id]) ensures d.instances[id].managed {
      assert id in c.instances && InstanceEvolves(c.instances[id], d.instances[id]);
      SameTags(o, c.instances[id], d.instances[id]);
    }
  }

  lemma SameTags(o: Owner, i: Instance, j: Instance)
    requires i.tags == j.tags && CarriesTagOf(o, j)
    ensures CarriesTagOf(o, i)
  {
    var s :| HasSlot(o, s) && Tag(j, TagKeyOf(o, s)) == TagValue(o);
    assert Tag(i, TagKeyOf(o, s)) == TagValue(o);
  }

  lemma CallManaged(o: Owner, c: Cloud, call: Call, d: Cloud, a: Response)
    requires WellFormed(c) && TaggedManaged(c, o) && Answers(c, call, d, a)
    ensures TaggedManaged(d, o)
  {
    InstancesEvolve(c, call, d, a);
    NewOnesManaged(c, call, d, a);
    forall id | id in d.instances && CarriesTagOf(o, d.instances[id]) ensures d.instances[id].managed {
      if id in c.instances {
        SameTags(o, c.instances[id], d.instances[id]);
      }
    }
  }

  lemma NewOnesManaged(c: Cloud, call: Call, d: Cloud, a: Response)
    requires Answers(c, call, d, a)
    ensures forall id :: id in d.instances && id !in c.instances ==> d.instances[id].managed
  {
  }

  lemma ManagedStep(a: System, act: Action, b: System, o: Owner)
    requires SystemInv(a) && Next(a, act, b) && o in a.owners && TaggedManaged(a.cloud, o)
    ensures o in b.owners && TaggedManaged(b.cloud, o)
  {
    if act.World? {
      RelyManaged(o, a.cloud, b.cloud);
    } else if act.event.Api? {
      assert OwnerInv(a.cloud, act.owner, a.owners[act.owner]);
      CallManaged(o, a.cloud, NextCall(act.owner, a.owners[act.owner].run.value), b.cloud, act.event.answer);
    }
  }

  lemma ManagedOn(states: seq<System>, acts: seq<Action>, i: nat, k: nat, o: Owner)
    requires Execution(states, acts) && i < |acts| && k == i + 1
    requires o in states[i].owners && TaggedManaged(states[i].cloud, o)
    ensures o in states[k].owners && TaggedManaged(states[k].cloud, o)
  {
    ExecutionStep(states, acts, i, k);
    ManagedStep(states[i], acts[i], states[k], o);
  }

  lemma {:induction false} ManagedAlways(states: seq<System>, acts: seq<Action>, i: nat, o: Owner)
    requires Execution(states, acts) && i < |states| && o in states[0].owners && TaggedManaged(states[0].cloud, o)
    ensures o in states[i].owners && TaggedManaged(states[i].cloud, o)
  {
    if i > 0 {
      ManagedAlways(states, acts, i - 1, o);
      ManagedOn(states, acts, i - 1, i, o);
    }
  }

  /** A machine being deleted, in whatever execution, is where a deletion can start. */
  lemma DeletionStarts(states: seq<System>, acts: seq<Action>, i: nat, o: Owner)
    requires Execution(states, acts) && i < |states| && o in states[0].owners && TaggedManaged(states[0].cloud, o)
    requires o.Machine? && o in states[i].owners && states[i].owners[o].stored.Some?
    requires var m := states[i].owners[o].stored.value; m.deleting && m.finalizer && CloneManaged(states[i].cloud, o, m)
    ensures Ours(states[i].cloud, o, states[i].owners[o].stored.value)
  {
    var c, x := states[i].cloud, states[i].owners[o];
    ManagedAlways(states, acts, i, o);
    ExecutionInv(states, acts, i);
    assert OwnerInv(c, o, x);
    assert SlotInv(c, o, x, Primary) && StoredTargets(c, o, x, Primary);
    forall id | id in c.instances && Tag(c.instances[id], TagKeyOf(o, Primary)) == TagValue(o)
      ensures c.instances[id].managed
    {
      assert HasSlot(o, Primary);
      assert CarriesTagOf(o, c.instances[id]);
    }
  }
}
