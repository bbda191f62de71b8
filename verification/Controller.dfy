/**
 The reconcilers as the program writes them: methods that update the object in memory between cloud
 calls. `World` answers each call in any way the cloud may, after any interference, and logs what
 happened. Every method is proved to log nothing but steps of the protocol, whatever the answers.
 */
module Controller {
  import opened Prelude
  import opened Owners
  import opened CloudApi
  import opened Client
  import opened Reconcile
  import opened Protocol

  datatype Snapshot = Snapshot(cloud: Cloud, state: OwnerState)

  /** A step of the owner, or one of the rest of the world. */
  datatype Cause = Own(event: Event) | Foreign

  ghost predicate Linked(o: Owner, a: Snapshot, w: Cause, b: Snapshot) {
    match w
    case Own(e) => Step(o, a.cloud, a.state, e, b.cloud, b.state)
    case Foreign => Rely(o, a.cloud, b.cloud) && a.state == b.state
  }

  /** Something that happened, and how things stood after it. */
  datatype Entry = Entry(cause: Cause, after: Snapshot)

  /** How things stood before entry i. */
  ghost function Prior(origin: Snapshot, log: seq<Entry>, i: nat): Snapshot
    requires i <= |log|
  {
    if i == 0 then origin else log[i - 1].after
  }

  /** Marks the entries that a proof looks at. */
  predicate Marked(i: nat) {
    true
  }

  ghost predicate Chained(o: Owner, origin: Snapshot, log: seq<Entry>) {
    forall i: nat {:trigger Marked(i)} :: i < |log| && Marked(i) ==>
      Linked(o, Prior(origin, log, i), log[i].cause, log[i].after)
  }

  /** A cloud call of the owner, or something that others did. */
  predicate IsCall(w: Cause) {
    w.Foreign? || w.event.Api?
  }

  /** The log has only grown, and by calls alone. */
  ghost predicate Extends(a: seq<Entry>, b: seq<Entry>) {
    a <= b && forall i {:trigger b[i].cause} :: |a| <= i < |b| ==> IsCall(b[i].cause)
  }

  /** The run was given up before its first call. */
  ghost predicate GaveUp(a: seq<Entry>, b: seq<Entry>) {
    |b| == |a| + 1 && a <= b && b[|a|].cause == Own(Event.GiveUp(true))
  }

  /**
   What a reconcile adds to the log. An object without a finalizer gets it and nothing else. Any other
   is loaded and patched, and in between come the calls that take the run to its end; only a machine
   that waits for its cluster or its bootstrap data gives up before them.
   */
  ghost predicate Reconciled(o: Owner, m: Option<Object>, waiting: bool, meta: bool, status: bool, conds: bool,
      a: seq<Entry>, b: seq<Entry>)
  {
    if m.None? then b == a
    else if !m.value.deleting && !m.value.finalizer then
      |b| == |a| + 1 && a <= b && b[|a|].cause == Own(FinalizerAdded)
    else
      && |b| >= |a| + 2 && a <= b
      && b[|a|].cause == Own(Event.Load) && b[|b| - 1].cause == Own(Event.Patch(meta, status, conds))
      && if o.Machine? && waiting && !m.value.deleting && !m.value.provisioned
         then GaveUp(b[..|a| + 1], b[..|b| - 1]) else Extends(b[..|a| + 1], b[..|b| - 1])
  }

  class World {
    const owner: Owner
    ghost var cloud: Cloud
    var stored: Option<Object>
    ghost var run: Option<Run>
    ghost const origin: Snapshot
    ghost var log: seq<Entry>

    constructor (owner: Owner, ghost cloud: Cloud, stored: Option<Object>)
      requires WellFormed(cloud)
      ensures Valid() && this.owner == owner && Now() == origin == Snapshot(cloud, OwnerState(stored, None))
    {
      this.owner, this.cloud, this.stored, this.run := owner, cloud, stored, None;
      origin := Snapshot(cloud, OwnerState(stored, None));
      log := [];
    }

    ghost function Now(): Snapshot
      reads this
    {
      Snapshot(cloud, OwnerState(stored, run))
    }

    /** The log leads from the origin to now and every entry follows from the one before. */
    ghost predicate Valid()
      reads this
    {
      WellFormed(cloud) && Prior(origin, log, |log|) == Now() && Chained(owner, origin, log)
    }

    /** Since then nothing was taken out of the log, and only calls were added. */
    twostate predicate Called()
      reads this
    {
      Extends(old(log), log)
    }

    ghost method Record(w: Cause)
      requires Chained(owner, origin, log)
      requires WellFormed(cloud) && Linked(owner, Prior(origin, log, |log|), w, Now())
      modifies this`log
      ensures Valid() && log == old(log) + [Entry(w, Now())]
    {
      log := log + [Entry(w, Now())];
    }

    /** Other owners, users and the cloud itself act. */
    ghost method Interfere()
      requires Valid()
      modifies this`cloud, this`log
      ensures Valid() && Called()
    {
      assert Rely(owner, cloud, cloud);
      var d :| Rely(owner, cloud, d);
      assert Rely(owner, cloud, d);
      cloud := d;
      Record(Foreign);
    }

    /**
     One API call. Callers see the contract alone, which admits every answer the cloud may give,
     failures that took effect included; the body shows one of them.
     */
    method Call(call: Call) returns (a: Response)
      requires Valid() && run.Some? && !run.value.pc.Finished? && NextCall(owner, run.value) == call
      modifies this
      ensures Valid() && Called() && stored == old(stored)
      ensures run == Some(Handle(owner, old(run.value), a))
    {
      Interfere();
      a := if call.ReadClock? then Time(0) else Failed;
      run := Some(Handle(owner, run.value, a));
      Record(Own(Api(a)));
    }

    ghost method Load()
      requires Valid() && run.None? && stored.Some? && (stored.value.deleting || stored.value.finalizer)
      modifies this`run, this`log
      ensures Valid() && run == Some(Start(owner, stored.value)) && log == old(log) + [Entry(Own(Event.Load), Now())]
    {
      run := Some(Start(owner, stored.value));
      Record(Own(Event.Load));
    }

    /** The deferred patch; any of its requests may be lost. */
    method Patch(mem: Object, meta: bool, status: bool, conds: bool)
      requires Valid() && run == Some(Run(mem, Finished))
      modifies this
      ensures Valid() && run.None?
      ensures old(stored).Some? ==> stored == Some(Patched(old(stored).value, mem, meta, status, conds))
      ensures old(stored).None? ==> stored.None?
      ensures log == old(log) + [Entry(Own(Event.Patch(meta, status, conds)), Now())]
    {
      stored := if stored.Some? then Some(Patched(stored.value, mem, meta, status, conds)) else None;
      run := None;
      Record(Own(Event.Patch(meta, status, conds)));
    }

    /** The first reconcile of an object only adds the finalizer. */
    method AddFinalizer()
      requires Valid() && run.None? && stored.Some? && !stored.value.deleting
      modifies this
      ensures Valid() && run.None? && stored == Some(old(stored).value.(finalizer := true))
      ensures log == old(log) + [Entry(Own(FinalizerAdded), Now())]
    {
      stored := Some(stored.value.(finalizer := true));
      Record(Own(FinalizerAdded));
    }

    /** Something other than the cloud fails or is not there yet; the run stops before its next call. */
    ghost method GiveUp(clearReady: bool)
      requires Valid() && run.Some?
      modifies this`run, this`log
      ensures Valid() && log == old(log) + [Entry(Own(Event.GiveUp(clearReady)), Now())]
      ensures run == Some(if clearReady then StopNotReady(old(run.value.mem)) else Stop(old(run.value.mem)))
    {
      run := Some(if clearReady then StopNotReady(run.value.mem) else Stop(run.value.mem));
      Record(Own(Event.GiveUp(clearReady)));
    }
  }

  class Scope {
    const owner: Owner
    const world: World
    var mem: Object

    constructor (world: World, mem: Object)
      ensures this.world == world && this.owner == world.owner && this.mem == mem
    {
      this.owner, this.world, this.mem := world.owner, world, mem;
    }

    /** The run stands at `pc` with the memory of this object. */
    ghost predicate At(pc: Pc)
      reads this, world
    {
      world.Valid() && world.owner == owner && world.run == Some(Run(mem, pc))
    }

    /** The run stands where `r` says. */
    ghost predicate Follows(r: Run)
      reads world
    {
      world.Valid() && world.owner == owner && world.run == Some(r)
    }

    method FindInstance(s: Slot, ghost goal: Goal) returns (l: Lookup)
      requires At(AtLookup(s, goal))
      modifies world
      ensures world.Called() && world.stored == old(world.stored)
      ensures Follows(AfterLookup(owner, mem, s, goal, l))
    {
      if Rec(mem, s).instance.Some? {
        var a := world.Call(GetInstance(Rec(mem, s).instance.value));
        match a {
          case OneInstance(row) => return Found(row);
          case Missing => return Found(Stub(Rec(mem, s).instance.value));
          case _ => return LookupFailed;
        }
      }
      var a := world.Call(ListInstances);
      if !a.Instances? {
        return LookupFailed;
      }
      var f := FindInstanceByTag(a.rows, TagKeyOf(owner, s), TagValue(owner));
      if f.None? || (Gone(f.value.inst.status) && !KeepsGone(owner, s)) {
        return Nothing;
      }
      return Found(f.value);
    }

    method ResyncInstance()
      requires At(AtLookup(Primary, Resync))
      modifies this, world
      ensures world.Called() && world.stored == old(world.stored)
      ensures At(Finished)
    {
      var l := FindInstance(Primary, Resync);
      if l.LookupFailed? {
        return;
      }
      var status := if l.Found? then l.row.inst.status else NotFound;
      mem := mem.(state := status);
      if status.Running? {
        mem := mem.(ready := true);
      } else {
        mem := mem.(ready := false);
      }
    }

    // The boot volume of a machine.

    method ResolveOSVolume() returns (source: Result<Id>)
      requires Follows(SourceStart(mem)) && mem.source.Source?
      modifies world
      ensures world.Called() && world.stored == old(world.stored)
      ensures source.Ok? ==> At(AtClone(source.value))
      ensures source.Err? ==> Follows(StopVolume(mem))
    {
      if mem.source.asId.Some? {
        var a := world.Call(GetVolume(mem.source.asId.value));
        if a.OneVolume? {
          return Ok(a.vol.id);
        } else if !a.Missing? {
          return Err;
        }
      }
      var a := world.Call(ListVolumes);
      if !a.Volumes? {
        return Err;
      }
      var volume := VolumeNamed(a.vols, mem.source.name);
      if volume.None? || !volume.value.vol.isOS {
        return Err;
      }
      return Ok(volume.value.id);
    }

    method CloneOSVolume() returns (volume: Result<VolumeRow>)
      requires Follows(SourceStart(mem)) && mem.source.Source?
      modifies this, world
      ensures world.Called() && world.stored == old(world.stored)
      ensures volume.Ok? ==> mem == old(mem) && Follows(VolumeKnown(mem, volume.value)) && !volume.value.vol.managed
      ensures volume.Err? ==> At(Finished)
    {
      var source := ResolveOSVolume();
      if source.Err? {
        mem := mem.(osVolumeReady := false);
        return Err;
      }
      volume := CloneAndTag(source.value);
      if volume.Err? {
        mem := mem.(osVolumeReady := false);
      }
    }

    method CloneAndTag(source: Id) returns (volume: Result<VolumeRow>)
      requires At(AtClone(source))
      modifies world
      ensures world.Called() && world.stored == old(world.stored)
      ensures volume.Ok? ==> Follows(VolumeKnown(mem, volume.value)) && !volume.value.vol.managed
      ensures volume.Err? ==> Follows(StopVolume(mem))
    {
      var a := world.Call(CloneVolume(source, CloneName(owner)));
      if !a.NewId? {
        return Err;
      }
      var id := a.id;
      a := world.Call(TagVolume(id));
      return Ok(VolumeRow(id, Volume(CloneName(owner), VolumeOther("cloning"), false, false, false)));
    }

    method FindOSVolume() returns (volume: Result<VolumeRow>)
      requires At(AtVolumeLookup) && mem.source.Source?
      modifies this, world
      ensures world.Called() && world.stored == old(world.stored)
      ensures volume.Ok? ==> mem == old(mem) && Follows(VolumeKnown(mem, volume.value))
      ensures volume.Err? ==> At(Finished)
    {
      var row: Option<VolumeRow> := None;
      if mem.osVolume.Some? {
        var a := world.Call(GetVolume(mem.osVolume.value));
        if !a.OneVolume? && !a.Missing? {
          return Err;
        }
        row := if a.OneVolume? then Some(a.vol) else None;
      } else {
        var a := world.Call(ListVolumes);
        if !a.Volumes? {
          return Err;
        }
        row := VolumeNamed(a.vols, CloneName(owner));
      }
      if row.Some? {
        return Ok(row.value);
      }
      volume := CloneOSVolume();
    }

    method EnsureOSVolume() returns (volume: Result<VolumeRow>)
      requires At(AtVolumeLookup) && mem.source.Source?
      modifies this, world
      ensures world.Called() && world.stored == old(world.stored)
      ensures volume.Ok? && volume.value.vol.status.Detached? ==> At(AtHostCheck(Primary, FromVolume(volume.value.id)))
      ensures volume.Ok? && !volume.value.vol.status.Detached? ==> Follows(StopNotReady(mem))
      ensures volume.Err? ==> At(Finished)
    {
      volume := FindOSVolume();
      if volume.Err? {
        return;
      }
      mem := mem.(osVolume := Some(volume.value.id));
      var known := TagClone(volume.value);
      RecordVolumeReady(known);
      return Ok(known);
    }

    method TagClone(row: VolumeRow) returns (known: VolumeRow)
      requires Follows(if row.vol.managed then VolumeSettled(mem, row) else Run(mem, AtVolumeTag(row)))
      modifies world
      ensures world.Called() && world.stored == old(world.stored)
      ensures Follows(VolumeSettled(mem, known))
    {
      known := row;
      if !known.vol.managed {
        var a := world.Call(TagVolume(known.id));
        if a.Done? {
          known := known.(vol := known.vol.(managed := true));
        }
      }
    }

    method RecordVolumeReady(known: VolumeRow)
      requires Follows(VolumeSettled(mem, known))
      modifies this`mem
      ensures known.vol.status.Detached? ==> At(AtHostCheck(Primary, FromVolume(known.id)))
      ensures !known.vol.status.Detached? ==> Follows(StopNotReady(mem))
    {
      if known.vol.status.Detached? || known.vol.status.Attached? {
        mem := mem.(osVolumeReady := known.vol.managed);
      } else {
        mem := mem.(osVolumeReady := false);
      }
    }

    /** Tag the recorded clone if that is still to be done; failures are left for the next reconcile. */
    method EnsureOSVolumeTag(found: InstanceRow)
      requires Follows(if mem.osVolume.Some? && !mem.osVolumeReady then Run(mem, AtOsTagGet(found))
                       else Settle(mem, found))
      modifies this`mem, world
      ensures world.Called() && world.stored == old(world.stored)
      ensures mem == old(mem).(osVolumeReady := mem.osVolumeReady)
      ensures Follows(Settle(mem, found))
    {
      if mem.osVolume.Some? && !mem.osVolumeReady {
        var tagged := TagOSVolume(found);
        if tagged {
          mem := mem.(osVolumeReady := true);
        }
      }
    }

    method TagOSVolume(found: InstanceRow) returns (tagged: bool)
      requires mem.osVolume.Some? && At(AtOsTagGet(found))
      modifies world
      ensures world.Called() && world.stored == old(world.stored)
      ensures Follows(Settle(if tagged then mem.(osVolumeReady := true) else mem, found))
    {
      var a := world.Call(GetVolume(mem.osVolume.value));
      if !a.OneVolume? {
        return false;
      }
      if a.vol.vol.managed {
        return true;
      }
      a := world.Call(TagVolume(mem.osVolume.value));
      return a.Done?;
    }

    // Startup scripts.

    method DeleteStartupScriptByName(s: Slot, ghost why: ScriptWhy) returns (ok: bool)
      requires At(AtScriptList(s, why))
      modifies world
      ensures world.Called() && world.stored == old(world.stored)
      ensures Follows(if ok then ScriptsNext(owner, mem, s, why, []) else StopScripts(mem, why))
    {
      var a := world.Call(ListScripts);
      if !a.Scripts? {
        return false;
      }
      var ids := ScriptsNamed(a.names, Hostname(owner, s));
      while ids != []
        invariant world.Called() && world.stored == old(world.stored)
        invariant Follows(ScriptsNext(owner, mem, s, why, ids))
        decreases |ids|
      {
        a := world.Call(DeleteScript(ids[0]));
        if !a.Done? && !a.Missing? {
          return false;
        }
        ids := ids[1..];
      }
      return true;
    }

    method CreateInstance(s: Slot, boot: Boot) returns (found: Result<InstanceRow>)
      requires At(AtHostCheck(s, boot))
      modifies world
      ensures world.Called() && world.stored == old(world.stored)
      ensures found.Ok? ==> Follows(AfterFound(owner, mem, s, found.value))
      ensures found.Err? ==> Follows(StopNotReady(mem))
    {
      var free := ClearHostname(s, boot);
      if !free {
        return Err;
      }
      var a := world.Call(AddScript(Hostname(owner, s)));
      if !a.NewId? {
        return Err;
      }
      found := Boot(s, boot, a.id);
    }

    /** Nobody else has the hostname, and no script is left from an earlier attempt. */
    method ClearHostname(s: Slot, boot: Boot) returns (ok: bool)
      requires At(AtHostCheck(s, boot))
      modifies world
      ensures world.Called() && world.stored == old(world.stored)
      ensures ok ==> At(AtScriptAdd(s, boot))
      ensures !ok ==> Follows(StopNotReady(mem))
    {
      var a := world.Call(ListInstances);
      if !a.Instances? || HostnameTaken(a.rows, Hostname(owner, s)) {
        return false;
      }
      ok := DeleteStartupScriptByName(s, ForCreate(boot));
    }

    method Boot(s: Slot, boot: Boot, script: Id) returns (found: Result<InstanceRow>)
      requires At(AtCreate(s, boot, script))
      modifies world
      ensures world.Called() && world.stored == old(world.stored)
      ensures found.Ok? ==> Follows(AfterFound(owner, mem, s, found.value))
      ensures found.Err? ==> Follows(StopNotReady(mem))
    {
      var a := world.Call(Call.CreateInstance(Hostname(owner, s), TagKeyOf(owner, s), TagValue(owner), boot, script));
      if !a.OneInstance? {
        a := world.Call(DeleteScript(script));
        return Err;
      }
      var row := a.row;
      if row.inst.script.None? {
        row := row.(inst := row.inst.(script := Some(script)));
      }
      return Ok(row);
    }

    // Two-phase deletion.

    method PurgeInstanceVolumes(s: Slot, id: Id, ghost why: PurgeWhy) returns (pending: Result<nat>)
      requires At(AtPurgeGet(s, id, why))
      modifies world
      ensures world.Called() && world.stored == old(world.stored)
      ensures Follows(if pending.Ok? then AfterPurge(owner, mem, s, pending.value, why) else Stop(mem))
    {
      var a := world.Call(GetInstance(id));
      if a.Missing? {
        return Ok(0);
      }
      if !a.OneInstance? || !a.row.inst.managed {
        return Err;
      }
      var ids := InstanceVolumeIDs(a.row.inst);
      pending := PurgeVolumes(s, id, ids, why);
    }

    method PurgeVolumes(s: Slot, ghost id: Id, ids: seq<Id>, ghost why: PurgeWhy) returns (pending: Result<nat>)
      requires At(AtPurgeTrash(s, id, ids, why))
      modifies world
      ensures world.Called() && world.stored == old(world.stored)
      ensures Follows(if pending.Ok? then AfterPurge(owner, mem, s, pending.value, why) else Stop(mem))
    {
      var a := world.Call(ListTrash);
      if !a.Trash? {
        return Err;
      }
      var count, n := 0, 0;
      while n < |ids|
        invariant 0 <= n <= |ids| && world.Called() && world.stored == old(world.stored)
        invariant Follows(PurgeNext(owner, mem, s, id, ids, n, a.ids, count, why))
      {
        var more := PurgeVolume(s, id, ids, n, a.ids, count, why);
        if more.Err? {
          return Err;
        }
        count := count + more.value;
        n := n + 1;
      }
      return Ok(count);
    }

    /** One volume: destroyed if in the trash, else pending unless it is gone. */
    method PurgeVolume(s: Slot, ghost id: Id, ids: seq<Id>, n: nat, inTrash: set<Id>, ghost count: nat,
        ghost why: PurgeWhy)
      returns (more: Result<nat>)
      requires n < |ids| && At(AtPurge(s, id, ids, n, inTrash, count, why))
      modifies world
      ensures world.Called() && world.stored == old(world.stored)
      ensures Follows(if more.Ok? then PurgeNext(owner, mem, s, id, ids, n + 1, inTrash, count + more.value, why)
                      else Stop(mem))
    {
      if ids[n] in inTrash {
        var a := world.Call(DestroyVolume(ids[n]));
        return if a.Failed? then Err else Ok(0);
      }
      var a := world.Call(GetVolume(ids[n]));
      if a.Failed? {
        return Err;
      }
      return Ok(if a.OneVolume? && !a.vol.vol.status.VolumeDeleted? then 1 else 0);
    }

    method DeleteInstance(s: Slot, id: Id, ghost why: DeleteWhy) returns (ok: bool)
      requires At(AtDeleteGet(s, id, why))
      modifies world
      ensures world.Called() && world.stored == old(world.stored)
      ensures Follows(if ok then AfterDelete(owner, mem, why) else Stop(mem))
    {
      var a := world.Call(GetInstance(id));
      if a.Missing? {
        return true;
      }
      if !a.OneInstance? || !a.row.inst.managed {
        return false;
      }
      ok := DeleteByStatus(s, a.row, why);
    }

    method DeleteByStatus(s: Slot, row: InstanceRow, ghost why: DeleteWhy) returns (ok: bool)
      requires row.inst.managed && Follows(DeleteSwitch(owner, mem, s, row, why))
      modifies world
      ensures world.Called() && world.stored == old(world.stored)
      ensures Follows(if ok then AfterDelete(owner, mem, why) else Stop(mem))
    {
      match row.inst.status {
        case Discontinued =>
          var pending := PurgeInstanceVolumes(s, row.id, InDelete(why));
          return pending.Ok?;
        case Deleted =>
          var pending := PurgeInstanceVolumes(s, row.id, InDelete(why));
          return pending.Ok?;
        case Deleting =>
          return true;
        case _ =>
          ok := DeleteOrShutdown(s, row, why);
      }
    }

    /** An instance that is not offline yet is shut down first; a later request deletes it. */
    method DeleteOrShutdown(s: Slot, row: InstanceRow, ghost why: DeleteWhy) returns (ok: bool)
      requires At(if row.inst.status.Offline? then AtDelete(s, row.id, VolumesOf(row.inst), why)
                  else AtShutdown(s, row.id, why))
      modifies world
      ensures world.Called() && world.stored == old(world.stored)
      ensures Follows(if ok then AfterDelete(owner, mem, why) else Stop(mem))
    {
      var a;
      if row.inst.status.Offline? {
        var ids := InstanceVolumeIDs(row.inst);
        a := world.Call(Call.DeleteInstance(row.id, ids));
      } else {
        a := world.Call(ShutdownInstance(row.id));
      }
      return a.Done? || a.Missing?;
    }

    // Tearing a slot down: a machine, the service or the control plane load balancer.

    method ForgetScripts(s: Slot) returns (ok: bool)
      requires Follows(StartScripts(owner, mem, s))
      modifies this, world
      ensures world.Called() && world.stored == old(world.stored)
      ensures ok ==> Follows(AfterScripts(owner, mem, s)) && mem.deleting == old(mem.deleting)
      ensures !ok ==> At(Finished)
    {
      if Rec(mem, s).script.Some? {
        var a := world.Call(DeleteScript(Rec(mem, s).script.value));
        if !a.Done? && !a.Missing? {
          return false;
        }
        mem := SetRec(mem, s, Rec(mem, s).(script := None));
        return true;
      }
      if owner.Cluster? && s.Primary? && !mem.primaryEnabled {
        return true;
      }
      ok := DeleteStartupScriptByName(s, ForTeardown);
    }

    method RequestDeletion(s: Slot, row: InstanceRow)
      requires At(AtDueCheck(s, row))
      modifies this, world
      ensures world.Called() && world.stored == old(world.stored)
      ensures At(Finished)
      ensures mem.asked == old(mem.asked) ||
                exists now :: RequestDue(old(mem), s, row.inst.status, now)
                              && mem.asked == NoteRequest(old(mem), s, row.inst.status, now).asked
    {
      var a := world.Call(ReadClock);
      if a.Time? && RequestDue(mem, s, row.inst.status, a.now) {
        mem := NoteRequest(mem, s, row.inst.status, a.now);
        assert RequestDue(old(mem), s, row.inst.status, a.now);
        var ok := DeleteInstance(s, row.id, TeardownAsk(row.inst.status));
        if !ok {
          return;
        }
      }
      if owner.Machine? {
        mem := mem.(state := row.inst.status);
      }
    }

    method Teardown(s: Slot) returns (done: bool)
      requires At(AtLookup(s, Goal.Teardown))
      modifies this, world
      ensures world.Called() && world.stored == old(world.stored)
      ensures done ==> Follows(AfterScripts(owner, mem, s)) && mem.deleting == old(mem.deleting)
      ensures !done ==> At(Finished)
    {
      var l := FindInstance(s, Goal.Teardown);
      if l.LookupFailed? {
        return false;
      }
      if l.Found? && !Gone(l.row.inst.status) {
        if !l.row.inst.status.Deleting? {
          RequestDeletion(s, l.row);
        } else if owner.Machine? {
          mem := mem.(state := l.row.inst.status);
        }
        return false;
      }
      if l.Found? && !l.row.inst.status.NotFound? {
        var pending := PurgeInstanceVolumes(s, l.row.id, InTeardown);
        if pending.Err? || pending.value > 0 {
          return false;
        }
      }
      done := ForgetScripts(s);
    }

    // The machine reconciler.

    method ActOnState(row: InstanceRow)
      requires Follows(Settle(mem, row))
      modifies this, world
      ensures world.Called() && world.stored == old(world.stored)
      ensures At(Finished)
    {
      match row.inst.status {
        case Running =>
          mem := mem.(ready := true);
          mem := mem.(provisioned := true);
        case NoCapacity =>
          var ok := DeleteInstance(Primary, row.id, NoCapacityRetry);
          if ok {
            mem := mem.(primary := mem.primary.(instance := None));
            mem := mem.(ready := false);
          }
        case _ =>
          mem := mem.(ready := false);
      }
    }

    method RecordInstance(row: InstanceRow)
      requires owner.Machine? && Follows(AfterFound(owner, mem, Primary, row))
      modifies this, world
      ensures world.Called() && world.stored == old(world.stored)
      ensures At(Finished)
    {
      mem := mem.(primary := mem.primary.(instance := Some(row.id)), state := row.inst.status);
      if row.inst.script.Some? {
        mem := mem.(primary := mem.primary.(script := row.inst.script));
      }
      EnsureOSVolumeTag(row);
      ActOnState(row);
    }

    /** `waiting`: the cluster infrastructure or the bootstrap data is not there yet. */
    method ReconcileMachine(waiting: bool)
      requires owner.Machine? && !mem.deleting && Follows(Start(owner, mem))
      modifies this, world
      ensures world.stored == old(world.stored)
      ensures if waiting && !old(mem.provisioned) then GaveUp(old(world.log), world.log) else world.Called()
      ensures At(Finished)
    {
      if mem.provisioned {
        ResyncInstance();
        return;
      }
      if waiting {
        mem := mem.(ready := false);
        world.GiveUp(true);
        return;
      }
      var l := FindInstance(Primary, Ensure);
      if l.LookupFailed? {
        return;
      }
      if l.Found? {
        RecordInstance(l.row);
        return;
      }
      var boot := FromImage;
      if mem.source.Source? {
        var volume := EnsureOSVolume();
        if volume.Err? {
          return;
        }
        if !volume.value.vol.status.Detached? {
          mem := mem.(ready := false);
          return;
        }
        boot := FromVolume(volume.value.id);
      }
      var created := CreateInstance(Primary, boot);
      if created.Err? {
        mem := mem.(ready := false);
        return;
      }
      RecordInstance(created.value);
    }

    method DeleteOSVolume() returns (ok: bool)
      requires owner.Machine? && Follows(AfterScripts(owner, mem, Primary))
      modifies this, world
      ensures world.Called() && world.stored == old(world.stored)
      ensures ok ==> mem.osVolume.None? && Follows(Release(mem))
      ensures !ok ==> At(Finished)
    {
      if mem.osVolume.None? {
        return true;
      }
      ok := RemoveClone(mem.osVolume.value);
      if ok {
        mem := mem.(osVolume := None);
      }
    }

    /** A volume with another name, or one already on its way out, is left alone. */
    method RemoveClone(id: Id) returns (ok: bool)
      requires mem.osVolume == Some(id) && At(AtOsGet)
      modifies world
      ensures world.Called() && world.stored == old(world.stored)
      ensures Follows(if ok then Release(mem.(osVolume := None)) else Stop(mem))
    {
      var a := world.Call(GetVolume(id));
      if !a.OneVolume? {
        return a.Missing?;
      }
      if a.vol.vol.name != CloneName(owner) || a.vol.vol.status.VolumeDeleting? || a.vol.vol.status.VolumeDeleted? {
        return true;
      }
      ok := DestroyOSVolume(id);
    }

    method DestroyOSVolume(id: Id) returns (ok: bool)
      requires At(AtOsCheck) && mem.osVolume == Some(id)
      modifies world
      ensures world.Called() && world.stored == old(world.stored)
      ensures Follows(if ok then Release(mem.(osVolume := None)) else Stop(mem))
    {
      var a := world.Call(GetVolume(id));
      if a.Missing? {
        return true;
      }
      if !a.OneVolume? || !a.vol.vol.managed {
        return false;
      }
      a := world.Call(DestroyVolume(id));
      return a.Done? || a.Missing?;
    }

    method ReconcileMachineDelete()
      requires owner.Machine? && mem.deleting && Follows(Start(owner, mem))
      modifies this, world
      ensures world.Called() && world.stored == old(world.stored)
      ensures At(Finished)
    {
      mem := mem.(ready := false);
      var done := Teardown(Primary);
      if !done {
        return;
      }
      done := DeleteOSVolume();
      if !done {
        return;
      }
      mem := mem.(finalizer := false);
    }

    // The cluster reconciler.

    method EnsureBalancer(s: Slot) returns (ok: bool)
      requires owner.Cluster? && At(AtLookup(s, Ensure))
      modifies this, world
      ensures world.Called() && world.stored == old(world.stored)
      ensures ok ==> Follows(if s.Primary? then StartService(mem) else Stop(mem))
      ensures ok ==> mem.serviceEnabled == old(mem.serviceEnabled) && mem.deleting == old(mem.deleting)
      ensures !ok ==> At(Finished)
    {
      var l := FindInstance(s, Ensure);
      if l.LookupFailed? {
        return false;
      }
      var row;
      if l.Found? {
        row := l.row;
      } else {
        var created := CreateInstance(s, FromImage);
        if created.Err? {
          mem := mem.(ready := false);
          return false;
        }
        row := created.value;
      }
      RecordBalancer(s, row);
      return true;
    }

    method RecordBalancer(s: Slot, row: InstanceRow)
      requires owner.Cluster? && Follows(AfterFound(owner, mem, s, row))
      modifies this`mem
      ensures Follows(if s.Primary? then StartService(mem) else Stop(mem))
      ensures mem.serviceEnabled == old(mem.serviceEnabled) && mem.deleting == old(mem.deleting)
    {
      mem := SetRec(mem, s, Rec(mem, s).(instance := Some(row.id)));
      if row.inst.script.Some? {
        mem := SetRec(mem, s, Rec(mem, s).(script := row.inst.script));
      }
      if row.inst.status.Running? && row.inst.ip != "" {
        mem := SetRec(mem, s, Rec(mem, s).(address := row.inst.ip));
      }
    }

    method ReconcileCluster()
      requires owner.Cluster? && !mem.deleting && Follows(Start(owner, mem))
      modifies this, world
      ensures world.Called() && world.stored == old(world.stored)
      ensures At(Finished)
    {
      if mem.primaryEnabled {
        var ok := EnsureBalancer(Primary);
        if !ok {
          return;
        }
      }
      if !mem.serviceEnabled {
        if mem.service.instance.Some? || mem.service.address != "" {
          var done := Teardown(Service);
          if !done {
            return;
          }
          mem := mem.(service := NO_RECORD);
        }
        return;
      }
      var _ := EnsureBalancer(Service);
    }

    method ReconcileClusterDelete()
      requires owner.Cluster? && mem.deleting && Follows(Start(owner, mem))
      modifies this, world
      ensures world.Called() && world.stored == old(world.stored)
      ensures At(Finished)
    {
      var done := Teardown(Service);
      if !done {
        return;
      }
      done := Teardown(Primary);
      if !done {
        return;
      }
      mem := mem.(finalizer := false);
    }
  }

  /** One reconcile, from loading the object to its patch, of which any part may be lost. */
  method ReconcileAndPatch(world: World, waiting: bool, meta: bool, status: bool, conds: bool)
    requires world.Valid() && world.run.None?
    modifies world
    ensures world.Valid() && world.run.None?
    ensures Reconciled(world.owner, old(world.stored), waiting, meta, status, conds, old(world.log), world.log)
  {
    if world.stored.None? {
      return;
    }
    var loaded := world.stored.value;
    if !loaded.deleting && !loaded.finalizer {
      world.AddFinalizer();
      return;
    }
    var scope := new Scope(world, loaded);
    world.Load();
    ghost var before := world.log;
    ReconcileLoaded(scope, waiting);
    ghost var after := world.log;
    world.Patch(scope.mem, meta, status, conds);
    assert world.log[..|world.log| - 1] == after;
    assert world.log[..|before|] == before;
  }

  method ReconcileLoaded(scope: Scope, waiting: bool)
    requires scope.Follows(Start(scope.owner, scope.mem))
    modifies scope, scope.world
    ensures scope.At(Finished) && scope.world.stored == old(scope.world.stored)
    ensures if scope.owner.Machine? && waiting && !old(scope.mem).deleting && !old(scope.mem).provisioned
            then GaveUp(old(scope.world.log), scope.world.log) else Extends(old(scope.world.log), scope.world.log)
  {
    if scope.mem.deleting {
      if scope.owner.Machine? {
        scope.ReconcileMachineDelete();
      } else {
        scope.ReconcileClusterDelete();
      }
    } else if scope.owner.Machine? {
      scope.ReconcileMachine(waiting);
    } else {
      scope.ReconcileCluster();
    }
  }
}
