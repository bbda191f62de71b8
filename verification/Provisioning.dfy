/**
 The status of a machine: once provisioned it stays so, keeps its instance number and never leads to
 another create or clone call; ready means provisioned and last seen running.
 */
module Provisioning {
  import opened Prelude
  import opened Owners
  import opened CloudApi
  import opened Client
  import opened Reconcile
  import opened Protocol
  import opened Ownership

  /**
   `whole` says that the status and the conditions of a patch arrive together or not at all; ready is
   a condition, while provisioned and the state last seen are in the status.
   */
  predicate RecordOK(whole: bool, o: Owner, m: Object) {
    && (m.provisioned ==> m.primary.instance.Some?)
    && (whole && m.ready ==> m.provisioned && m.state.Running?)
    && (o.Cluster? ==> !m.provisioned && !m.ready)
  }

  predicate AsksForTeardown(why: DeleteWhy) {
    why.TeardownAsk?
  }

  /** Points of the program a provisioned machine can be at. */
  predicate Settled(pc: Pc) {
    match pc
    case AtLookup(_, goal) => !goal.Ensure?
    case AtDueCheck(_, _) => true
    case AtDeleteGet(_, _, why) => AsksForTeardown(why)
    case AtShutdown(_, _, why) => AsksForTeardown(why)
    case AtDelete(_, _, _, why) => AsksForTeardown(why)
    case AtPurgeGet(_, _, why) => why.InTeardown? || AsksForTeardown(why.why)
    case AtPurgeTrash(_, _, _, why) => why.InTeardown? || AsksForTeardown(why.why)
    case AtPurge(_, _, _, _, _, _, why) => why.InTeardown? || AsksForTeardown(why.why)
    case Finished => true
    case _ => PhaseOf(pc).Cleaning?
  }

  predicate RunOK(whole: bool, o: Owner, r: Run) {
    && RecordOK(whole, o, r.mem)
    && (r.mem.deleting ==> !r.mem.ready)
    && (!Settled(r.pc) ==> !r.mem.provisioned && !r.mem.deleting)
    && (o.Machine? && Settled(r.pc) && !r.pc.Finished? ==> r.mem.deleting || (r.pc.AtLookup? && r.pc.goal.Resync?))
    && (r.pc.AtLookup? && r.pc.goal.Resync? ==> o.Machine? && r.mem.provisioned && !r.mem.deleting)
    && (r.pc.AtOsTagGet? || r.pc.AtOsTagSet? ==> r.mem.state == r.pc.found.inst.status && r.mem.primary.instance.Some?)
    && (PartOf(r.pc).VolumeWork? ==> o.Machine?)
  }

  /** Going from `m` to `n` forgets nothing about a provisioned machine. */
  predicate Keeps(m: Object, n: Object) {
    && n.deleting == m.deleting
    && (m.provisioned ==> n.provisioned && n.primary.instance == m.primary.instance)
  }

  ghost predicate StatusInv(whole: bool, o: Owner, x: OwnerState) {
    && (x.stored.Some? ==> RecordOK(whole, o, x.stored.value))
    && (x.run.Some? ==> RunOK(whole, o, x.run.value))
    && (x.run.Some? && x.stored.Some? ==> Keeps(x.stored.value.(deleting := x.run.value.mem.deleting), x.run.value.mem))
  }

  predicate Good(whole: bool, o: Owner, r: Run, q: Run) {
    RunOK(whole, o, q) && Keeps(r.mem, q.mem)
  }

  lemma SettleGood(whole: bool, o: Owner, r: Run, m: Object, row: InstanceRow)
    requires o.Machine? && Keeps(r.mem, m) && RecordOK(whole, o, m) && !m.deleting && !m.provisioned
    requires m.state == row.inst.status && m.primary.instance.Some?
    ensures Good(whole, o, r, Settle(m, row))
  {
  }

  lemma AfterFoundGood(whole: bool, o: Owner, r: Run, s: Slot, row: InstanceRow)
    requires HasSlot(o, s) && RecordOK(whole, o, r.mem) && !r.mem.deleting && !r.mem.provisioned
    ensures Good(whole, o, r, AfterFound(o, r.mem, s, row))
  {
    if o.Machine? {
      SettleGood(whole, o, r, Note(r.mem, s, row).(state := row.inst.status), row);
    }
  }

  lemma AfterScriptsGood(whole: bool, o: Owner, r: Run, m: Object, s: Slot)
    requires Keeps(r.mem, m) && RecordOK(whole, o, m) && (m.deleting ==> !m.ready) && (o.Machine? ==> m.deleting)
    ensures Good(whole, o, r, AfterScripts(o, m, s))
  {
  }

  lemma StartScriptsGood(whole: bool, o: Owner, r: Run, s: Slot)
    requires RecordOK(whole, o, r.mem) && (r.mem.deleting ==> !r.mem.ready) && (o.Machine? ==> r.mem.deleting)
    ensures Good(whole, o, r, StartScripts(o, r.mem, s))
  {
    AfterScriptsGood(whole, o, r, r.mem, s);
  }

  lemma AfterPurgeGood(whole: bool, o: Owner, r: Run, s: Slot, pending: nat, why: PurgeWhy)
    requires RecordOK(whole, o, r.mem) && (r.mem.deleting ==> !r.mem.ready)
    requires r.mem.provisioned || r.mem.deleting ==> why.InTeardown? || why.why.TeardownAsk?
    requires o.Machine? && (why.InTeardown? || why.why.TeardownAsk?) ==> r.mem.deleting
    ensures Good(whole, o, r, AfterPurge(o, r.mem, s, pending, why))
  {
    if why.InDelete? {
      AfterDeleteGood(whole, o, r, why.why);
    } else {
      StartScriptsGood(whole, o, r, s);
    }
  }

  lemma TeardownGood(whole: bool, o: Owner, r: Run, l: Lookup)
    requires r.pc.AtLookup? && r.pc.goal.Teardown? && RunOK(whole, o, r) && HasSlot(o, r.pc.s)
    ensures Good(whole, o, r, AfterLookup(o, r.mem, r.pc.s, r.pc.goal, l))
  {
    if l.Found? && !Gone(l.row.inst.status) {
      TeardownLiveGood(whole, o, r, l);
    } else if !l.LookupFailed? {
      StartScriptsGood(whole, o, r, r.pc.s);
    }
  }

  lemma TeardownLiveGood(whole: bool, o: Owner, r: Run, l: Lookup)
    requires r.pc.AtLookup? && r.pc.goal.Teardown? && RunOK(whole, o, r) && HasSlot(o, r.pc.s)
    requires l.Found? && !Gone(l.row.inst.status)
    ensures Good(whole, o, r, AfterLookup(o, r.mem, r.pc.s, r.pc.goal, l))
  {
  }

  lemma LookupGood(whole: bool, o: Owner, r: Run, l: Lookup)
    requires r.pc.AtLookup? && RunOK(whole, o, r) && HasSlot(o, r.pc.s)
    ensures Good(whole, o, r, AfterLookup(o, r.mem, r.pc.s, r.pc.goal, l))
  {
    match r.pc.goal
    case Ensure => if l.Found? { AfterFoundGood(whole, o, r, r.pc.s, l.row); }
    case Resync =>
    case Teardown => TeardownGood(whole, o, r, l);
  }

  lemma VolumeKnownGood(whole: bool, o: Owner, r: Run, row: VolumeRow)
    requires o.Machine? && RecordOK(whole, o, r.mem) && !r.mem.deleting && !r.mem.provisioned
    ensures Good(whole, o, r, VolumeKnown(r.mem, row))
  {
  }

  lemma VolumeGood(whole: bool, o: Owner, r: Run, a: Response)
    requires PartOf(r.pc).VolumeWork? && RunOK(whole, o, r)
    ensures Good(whole, o, r, HandleVolume(o, r.mem, r.pc, a))
  {
    if r.pc.AtOsTagGet? || r.pc.AtOsTagSet? {
      TagGood(whole, o, r, a);
    } else if r.pc.AtVolumeLookup? {
      VolumeLookupGood(whole, o, r, a);
    } else {
      CloneGood(whole, o, r, a);
    }
  }

  lemma TagGood(whole: bool, o: Owner, r: Run, a: Response)
    requires (r.pc.AtOsTagGet? || r.pc.AtOsTagSet?) && RunOK(whole, o, r)
    ensures Good(whole, o, r, HandleVolume(o, r.mem, r.pc, a))
  {
    SettleGood(whole, o, r, r.mem, r.pc.found);
    SettleGood(whole, o, r, r.mem.(osVolumeReady := true), r.pc.found);
  }

  lemma VolumeLookupGood(whole: bool, o: Owner, r: Run, a: Response)
    requires r.pc.AtVolumeLookup? && RunOK(whole, o, r)
    ensures Good(whole, o, r, HandleVolume(o, r.mem, r.pc, a))
  {
    if a.OneVolume? {
      VolumeKnownGood(whole, o, r, a.vol);
    } else if a.Volumes? && VolumeNamed(a.vols, CloneName(o)).Some? {
      VolumeKnownGood(whole, o, r, VolumeNamed(a.vols, CloneName(o)).value);
    }
  }

  lemma CloneGood(whole: bool, o: Owner, r: Run, a: Response)
    requires PartOf(r.pc).VolumeWork? && !r.pc.AtOsTagGet? && !r.pc.AtOsTagSet? && !r.pc.AtVolumeLookup?
    requires RunOK(whole, o, r)
    ensures Good(whole, o, r, HandleVolume(o, r.mem, r.pc, a))
  {
    if r.pc.AtCloneTag? || r.pc.AtVolumeTag? {
      CloneTagGood(whole, o, r, a);
    } else {
      SourceGood(whole, o, r, a);
    }
  }

  lemma SourceGood(whole: bool, o: Owner, r: Run, a: Response)
    requires (r.pc.AtSourceGet? || r.pc.AtSourceList? || r.pc.AtClone?) && RunOK(whole, o, r)
    ensures Good(whole, o, r, HandleVolume(o, r.mem, r.pc, a))
  {
  }

  lemma CloneTagGood(whole: bool, o: Owner, r: Run, a: Response)
    requires (r.pc.AtCloneTag? || r.pc.AtVolumeTag?) && RunOK(whole, o, r)
    ensures Good(whole, o, r, HandleVolume(o, r.mem, r.pc, a))
  {
    if r.pc.AtCloneTag? {
      VolumeKnownGood(whole, o, r,
                      VolumeRow(r.pc.vol, Volume(CloneName(o), VolumeOther("cloning"), false, false, false)));
    } else {
      var row := r.pc.row;
      VolumeSettledGood(whole, o, r, if a.Done? then row.(vol := row.vol.(managed := true)) else row);
    }
  }

  lemma VolumeSettledGood(whole: bool, o: Owner, r: Run, row: VolumeRow)
    requires o.Machine? && RecordOK(whole, o, r.mem) && !r.mem.deleting && !r.mem.provisioned
    ensures Good(whole, o, r, VolumeSettled(r.mem, row))
  {
  }

  lemma CreationGood(whole: bool, o: Owner, r: Run, a: Response)
    requires PartOf(r.pc).Creation? && RunOK(whole, o, r) && HasSlot(o, r.pc.s)
    ensures Good(whole, o, r, HandleCreation(o, r.mem, r.pc, a))
  {
    if r.pc.AtCreate? && a.OneInstance? {
      var row := a.row;
      AfterFoundGood(whole, o, r, r.pc.s, WithScript(row, r.pc.script));
    }
  }

  lemma ScriptsNextGood(whole: bool, o: Owner, r: Run, ids: seq<Id>)
    requires (r.pc.AtScriptList? || r.pc.AtScriptDelete?) && RunOK(whole, o, r)
    ensures Good(whole, o, r, ScriptsNext(o, r.mem, r.pc.s, r.pc.swhy, ids))
  {
    if ids == [] && r.pc.swhy.ForTeardown? {
      AfterScriptsGood(whole, o, r, r.mem, r.pc.s);
    }
  }

  lemma ScriptGood(whole: bool, o: Owner, r: Run, a: Response)
    requires PartOf(r.pc).ScriptWork? && RunOK(whole, o, r)
    ensures Good(whole, o, r, HandleScripts(o, r.mem, r.pc, a))
  {
    if r.pc.AtScriptForget? {
      ScriptForgetGood(whole, o, r, a);
    } else if r.pc.AtScriptList? && a.Scripts? {
      ScriptsNextGood(whole, o, r, ScriptsNamed(a.names, Hostname(o, r.pc.s)));
    } else if r.pc.AtScriptDelete? && (a.Done? || a.Missing?) && r.pc.scripts != [] {
      ScriptsNextGood(whole, o, r, r.pc.scripts[1..]);
    }
  }

  lemma ScriptForgetGood(whole: bool, o: Owner, r: Run, a: Response)
    requires r.pc.AtScriptForget? && RunOK(whole, o, r)
    ensures Good(whole, o, r, HandleScripts(o, r.mem, r.pc, a))
  {
    AfterScriptsGood(whole, o, r, SetRec(r.mem, r.pc.s, Rec(r.mem, r.pc.s).(script := None)), r.pc.s);
  }

  lemma AfterDeleteGood(whole: bool, o: Owner, r: Run, why: DeleteWhy)
    requires RecordOK(whole, o, r.mem) && (r.mem.deleting ==> !r.mem.ready) && (r.mem.provisioned ==> why.TeardownAsk?)
    requires why.TeardownAsk? && o.Machine? ==> !r.mem.ready
    ensures Good(whole, o, r, AfterDelete(o, r.mem, why))
  {
  }

  lemma DeleteSwitchGood(whole: bool, o: Owner, r: Run, row: InstanceRow)
    requires r.pc.AtDeleteGet? && RunOK(whole, o, r)
    ensures Good(whole, o, r, DeleteSwitch(o, r.mem, r.pc.s, row, r.pc.dwhy))
  {
    AfterDeleteGood(whole, o, r, r.pc.dwhy);
  }

  lemma DeletionGood(whole: bool, o: Owner, r: Run, a: Response)
    requires PartOf(r.pc).Deletion? && RunOK(whole, o, r)
    ensures Good(whole, o, r, HandleDeletion(o, r.mem, r.pc, a))
  {
    if r.pc.AtDueCheck? {
      DueGood(whole, o, r, a);
    } else {
      AfterDeleteGood(whole, o, r, r.pc.dwhy);
      if r.pc.AtDeleteGet? && a.OneInstance? {
        DeleteSwitchGood(whole, o, r, a.row);
      }
    }
  }

  lemma DueGood(whole: bool, o: Owner, r: Run, a: Response)
    requires r.pc.AtDueCheck? && RunOK(whole, o, r)
    ensures Good(whole, o, r, HandleDeletion(o, r.mem, r.pc, a))
  {
  }

  lemma PurgeGood(whole: bool, o: Owner, r: Run, a: Response)
    requires PartOf(r.pc).Purging? && RunOK(whole, o, r)
    ensures Good(whole, o, r, HandlePurge(o, r.mem, r.pc, a))
  {
    if r.pc.AtPurge? {
      PurgeOneGood(whole, o, r, a);
    } else {
      PurgeStartGood(whole, o, r, a);
    }
  }

  lemma PurgeStartGood(whole: bool, o: Owner, r: Run, a: Response)
    requires (r.pc.AtPurgeGet? || r.pc.AtPurgeTrash?) && RunOK(whole, o, r)
    ensures Good(whole, o, r, HandlePurge(o, r.mem, r.pc, a))
  {
    if r.pc.AtPurgeGet? {
      PurgeGetGood(whole, o, r, a);
    } else {
      PurgeTrashGood(whole, o, r, a);
    }
  }

  lemma PurgeTrashGood(whole: bool, o: Owner, r: Run, a: Response)
    requires r.pc.AtPurgeTrash? && RunOK(whole, o, r)
    ensures Good(whole, o, r, HandlePurge(o, r.mem, r.pc, a))
  {
    if r.pc.vols == [] {
      AfterPurgeGood(whole, o, r, r.pc.s, 0, r.pc.pwhy);
    }
  }

  lemma PurgeGetGood(whole: bool, o: Owner, r: Run, a: Response)
    requires r.pc.AtPurgeGet? && RunOK(whole, o, r)
    ensures Good(whole, o, r, HandlePurge(o, r.mem, r.pc, a))
  {
    if a.Missing? {
      AfterPurgeGood(whole, o, r, r.pc.s, 0, r.pc.pwhy);
    }
  }

  lemma PurgeOneGood(whole: bool, o: Owner, r: Run, a: Response)
    requires r.pc.AtPurge? && RunOK(whole, o, r)
    ensures Good(whole, o, r, HandlePurge(o, r.mem, r.pc, a))
  {
    AfterPurgeGood(whole, o, r, r.pc.s, r.pc.pending, r.pc.pwhy);
    AfterPurgeGood(whole, o, r, r.pc.s, r.pc.pending + 1, r.pc.pwhy);
  }

  lemma CloneRemovalGood(whole: bool, o: Owner, r: Run, a: Response)
    requires PartOf(r.pc).CloneRemoval? && RunOK(whole, o, r)
    ensures Good(whole, o, r, HandleCloneRemoval(o, r.mem, r.pc, a))
  {
    ReleaseGood(whole, o, r);
    if r.pc.AtOsGet? {
      OsGetGood(whole, o, r, a);
    } else {
      OsDeleteGood(whole, o, r, a);
    }
  }

  lemma OsGetGood(whole: bool, o: Owner, r: Run, a: Response)
    requires r.pc.AtOsGet? && RunOK(whole, o, r) && Good(whole, o, r, Release(r.mem.(osVolume := None)))
    ensures Good(whole, o, r, HandleCloneRemoval(o, r.mem, r.pc, a))
  {
  }

  lemma OsDeleteGood(whole: bool, o: Owner, r: Run, a: Response)
    requires (r.pc.AtOsCheck? || r.pc.AtOsDelete?) && RunOK(whole, o, r)
    requires Good(whole, o, r, Release(r.mem.(osVolume := None)))
    ensures Good(whole, o, r, HandleCloneRemoval(o, r.mem, r.pc, a))
  {
  }

  lemma ReleaseGood(whole: bool, o: Owner, r: Run)
    requires RecordOK(whole, o, r.mem) && (r.mem.deleting ==> !r.mem.ready)
    ensures Good(whole, o, r, Release(r.mem.(osVolume := None)))
  {
  }

  lemma HandleGood(whole: bool, o: Owner, r: Run, a: Response)
    requires !r.pc.Finished? && RunOK(whole, o, r) && HasSlot(o, SlotOf(r.pc).value)
    ensures Good(whole, o, r, Handle(o, r, a))
  {
    match PartOf(r.pc)
    case LookingUp => LookupGood(whole, o, r, LookupResult(o, r.mem, r.pc.s, a));
    case VolumeWork => VolumeGood(whole, o, r, a);
    case Creation => CreationGood(whole, o, r, a);
    case ScriptWork => ScriptGood(whole, o, r, a);
    case Deletion => DeletionGood(whole, o, r, a);
    case Purging => PurgeGood(whole, o, r, a);
    case CloneRemoval => CloneRemovalGood(whole, o, r, a);
  }

  lemma LoadKeepsStatus(whole: bool, o: Owner, x: OwnerState)
    requires StatusInv(whole, o, x) && x.stored.Some?
    ensures StatusInv(whole, o, x.(run := Some(Start(o, x.stored.value))))
  {
  }

  lemma ApiKeepsStatus(whole: bool, o: Owner, x: OwnerState, a: Response)
    requires StatusInv(whole, o, x) && x.run.Some? && !x.run.value.pc.Finished?
    requires HasSlot(o, SlotOf(x.run.value.pc).value)
    ensures StatusInv(whole, o, x.(run := Some(Handle(o, x.run.value, a))))
  {
    HandleGood(whole, o, x.run.value, a);
  }

  lemma GiveUpKeepsStatus(whole: bool, o: Owner, x: OwnerState, clearReady: bool)
    requires StatusInv(whole, o, x) && x.run.Some?
    ensures var m := x.run.value.mem;
            StatusInv(whole, o, x.(run := Some(if clearReady then StopNotReady(m) else Stop(m))))
  {
  }

  lemma PatchKeepsStatus(whole: bool, o: Owner, x: OwnerState, meta: bool, status: bool, conds: bool)
    requires StatusInv(whole, o, x) && x.run.Some? && x.stored.Some? && (whole ==> status == conds)
    ensures StatusInv(whole, o, OwnerState(Some(Patched(x.stored.value, x.run.value.mem, meta, status, conds)), None))
  {
  }

  lemma StepKeepsStatus(whole: bool, o: Owner, c: Cloud, x: OwnerState, e: Event, d: Cloud, y: OwnerState)
    requires Inv(c, o, x) && StatusInv(whole, o, x) && Step(o, c, x, e, d, y)
    requires whole && e.Patch? ==> e.status == e.conds
    ensures StatusInv(whole, o, y)
  {
    match e
    case Load => LoadKeepsStatus(whole, o, x);
    case Api(a) => ApiKeepsStatus(whole, o, x, a);
    case GiveUp(clearReady) => GiveUpKeepsStatus(whole, o, x, clearReady);
    case Patch(meta, status, conds) => if x.stored.Some? { PatchKeepsStatus(whole, o, x, meta, status, conds); }
    case _ =>
  }

  /** A patch is sure to keep ready meaning running if and only if status and conditions arrive together. */
  lemma SplitPatchMisleads(o: Owner, meta: bool, status: bool, conds: bool)
    requires o.Machine?
    ensures (forall m, n :: RecordOK(true, o, m) && RecordOK(true, o, n) ==>
               RecordOK(true, o, Patched(m, n, meta, status, conds)))
            <==> status == conds
  {
    var m := Object(false, true, map[], false, false, NoSource, Record(Some(0), None, ""), NO_RECORD, None, false,
                    true, false, Offline);
    var n := m.(ready := true, state := Running);
    assert RecordOK(true, o, m) && RecordOK(true, o, n);
    if status != conds {
      assert !RecordOK(true, o, Patched(m, n, meta, status, conds))
             || !RecordOK(true, o, Patched(n, m, meta, status, conds));
    }
  }

  /** A provisioned machine stays provisioned, with the same instance, for as long as the object lives. */
  lemma ProvisionedForever(whole: bool, o: Owner, c: Cloud, x: OwnerState, e: Event, d: Cloud, y: OwnerState)
    requires Inv(c, o, x) && StatusInv(whole, o, x) && Step(o, c, x, e, d, y)
    requires x.stored.Some? && x.stored.value.provisioned && y.stored.Some?
    ensures y.stored.value.provisioned && x.stored.value.primary.instance.Some?
    ensures y.stored.value.primary.instance == x.stored.value.primary.instance
  {
    if e.Patch? {
      PatchKeepsProvisioned(x.stored.value, x.run.value.mem, e.meta, e.status, e.conds);
    }
  }

  lemma PatchKeepsProvisioned(m: Object, n: Object, meta: bool, status: bool, conds: bool)
    requires m.provisioned && n.provisioned && n.primary.instance == m.primary.instance
    ensures var p := Patched(m, n, meta, status, conds); p.provisioned && p.primary.instance == m.primary.instance
  {
  }

  /** No reconcile creates or clones anything for a provisioned machine. */
  lemma ProvisionedNeverCreates(whole: bool, o: Owner, c: Cloud, x: OwnerState)
    requires Inv(c, o, x) && StatusInv(whole, o, x)
    requires x.run.Some? && !x.run.value.pc.Finished? && x.stored.Some? && x.stored.value.provisioned
    ensures var call := NextCall(o, x.run.value);
            !call.CreateInstance? && !call.CloneVolume? && !call.AddScript?
  {
    OnlyCreateCreates(o, x.run.value);
  }
}
