/**
 What a reconcile may shut down, delete or purge: only managed instances that carry the owner's own
 tag, and of a gone instance only the volumes it lists. When a slot is torn down, every volume of its
 recorded instance has been released.
 */
module Targets {
  import opened Prelude
  import opened Owners
  import opened CloudApi
  import opened Client
  import opened Reconcile
  import opened Protocol
  import opened Ownership
  import opened Provisioning

  ghost predicate OwnTag(c: Cloud, o: Owner, s: Slot, id: Id) {
    id < c.next && (id in c.instances ==> Tag(c.instances[id], TagKeyOf(o, s)) == TagValue(o))
  }

  ghost predicate GoneOrAbsent(c: Cloud, id: Id) {
    id < c.next && (id in c.instances ==> Gone(c.instances[id].status))
  }

  /** The volume no longer exists, or the cloud reports it as deleted. */
  ghost predicate Released(c: Cloud, v: Id) {
    v < c.next && (v in c.volumes ==> c.volumes[v].status.VolumeDeleted?)
  }

  /** If the instance is still listed, all its volumes are released. */
  ghost predicate Purged(c: Cloud, id: Id) {
    id < c.next && (id in c.instances ==> forall v :: ListsVolume(c.instances[id], v) ==> Released(c, v))
  }

  /** The instance a program point is about. */
  function TargetOf(pc: Pc): Option<Id> {
    match pc
    case AtOsTagGet(found) => Some(found.id)
    case AtOsTagSet(found) => Some(found.id)
    case AtDueCheck(_, found) => Some(found.id)
    case AtDeleteGet(_, id, _) => Some(id)
    case AtShutdown(_, id, _) => Some(id)
    case AtDelete(_, id, _, _) => Some(id)
    case AtPurgeGet(_, id, _) => Some(id)
    case AtPurgeTrash(_, id, _, _) => Some(id)
    case AtPurge(_, id, _, _, _, _, _) => Some(id)
    case _ => None
  }

  ghost predicate PurgeKnows(c: Cloud, pc: Pc) {
    match pc
    case AtPurgeGet(_, id, _) => GoneOrAbsent(c, id)
    case AtPurgeTrash(_, id, vols, _) =>
      && GoneOrAbsent(c, id) && (forall v :: v in vols ==> v < c.next)
      && (id in c.instances ==> vols == VolumesOf(c.instances[id]))
    case AtPurge(_, id, vols, n, _, pending, _) =>
      && GoneOrAbsent(c, id) && (forall v :: v in vols ==> v < c.next)
      && (id in c.instances ==> vols == VolumesOf(c.instances[id]))
      && n <= |vols|
      && (pending == 0 ==> forall k :: 0 <= k < n ==> Released(c, vols[k]))
    case AtShutdown(_, id, _) => id in c.instances ==> c.instances[id].managed
    case AtDelete(_, id, _, _) => id in c.instances ==> c.instances[id].managed
    case _ => true
  }

  /** Slot `s` has been torn down as far as its volumes are concerned. */
  predicate Torn(o: Owner, r: Run, s: Slot) {
    || (SlotOf(r.pc) == Some(s) && PhaseOf(r.pc).Cleaning? && !PartOf(r.pc).Purging?)
    || (o.Cluster? && r.mem.deleting && s.Service? && SlotOf(r.pc) == Some(Primary))
    || !r.mem.finalizer
  }

  ghost predicate SlotTargets(c: Cloud, o: Owner, r: Run, s: Slot) {
    && (Rec(r.mem, s).instance.Some? ==> OwnTag(c, o, s, Rec(r.mem, s).instance.value))
    && (Torn(o, r, s) && Rec(r.mem, s).instance.Some? ==> Purged(c, Rec(r.mem, s).instance.value))
    // in a teardown, the target is the recorded instance if there is one
    && (SlotOf(r.pc) == Some(s) && PartOf(r.pc).Purging? && PhaseOf(r.pc).Cleaning? && Rec(r.mem, s).instance.Some? ==>
          TargetOf(r.pc) == Rec(r.mem, s).instance)
  }

  ghost predicate RunTargets(c: Cloud, o: Owner, r: Run) {
    && PurgeKnows(c, r.pc)
    && (TargetOf(r.pc).Some? ==> SlotOf(r.pc).Some? && OwnTag(c, o, SlotOf(r.pc).value, TargetOf(r.pc).value))
    && forall s :: HasSlot(o, s) ==> SlotTargets(c, o, r, s)
  }

  ghost predicate StoredTargets(c: Cloud, o: Owner, x: OwnerState, s: Slot) {
    x.stored.Some? ==>
      var rec := Rec(x.stored.value, s).instance;
      && (rec.Some? ==> OwnTag(c, o, s, rec.value))
      && (!x.stored.value.finalizer && rec.Some? ==> Purged(c, rec.value))
      // a run that deletes leaves the recorded instance alone
      && (x.run.Some? && x.run.value.mem.deleting ==> Rec(x.run.value.mem, s).instance == rec)
  }

  ghost predicate TargetInv(c: Cloud, o: Owner, x: OwnerState) {
    && (forall s :: HasSlot(o, s) ==> StoredTargets(c, o, x, s))
    && (x.run.Some? ==> RunTargets(c, o, x.run.value))
  }

  // Everything above survives whatever the cloud does.

  lemma OwnTagEvolves(c: Cloud, d: Cloud, o: Owner, s: Slot, id: Id)
    requires Evolves(c, d) && OwnTag(c, o, s, id)
    ensures OwnTag(d, o, s, id)
  {
  }

  lemma PurgedEvolves(c: Cloud, d: Cloud, o: Owner, id: Id)
    requires Evolves(c, d) && Purged(c, id) && GoneOrAbsent(c, id)
    ensures Purged(d, id)
  {
    if id in d.instances {
      forall v | ListsVolume(d.instances[id], v) ensures Released(d, v) {
        assert ListsVolume(c.instances[id], v);
      }
    }
  }

  lemma PurgeKnowsEvolves(c: Cloud, d: Cloud, pc: Pc)
    requires Evolves(c, d) && PurgeKnows(c, pc)
    requires (pc.AtShutdown? || pc.AtDelete?) ==> pc.id < c.next
    ensures PurgeKnows(d, pc)
  {
  }

  /** A slot without live instances: the recorded one is gone or absent. */
  lemma NoneLiveGone(c: Cloud, o: Owner, s: Slot, id: Id)
    requires NoneLive(c, o, s) && OwnTag(c, o, s, id)
    ensures GoneOrAbsent(c, id)
  {
    assert !LiveFor(c, o, s, id);
  }

  lemma TornGone(c: Cloud, o: Owner, x: OwnerState, s: Slot)
    requires Inv(c, o, x) && x.run.Some? && RunTargets(c, o, x.run.value) && HasSlot(o, s) && Torn(o, x.run.value, s)
    requires Rec(x.run.value.mem, s).instance.Some?
    ensures GoneOrAbsent(c, Rec(x.run.value.mem, s).instance.value)
  {
    assert SlotInv(c, o, x, s) && SlotTargets(c, o, x.run.value, s);
    NoneLiveGone(c, o, s, Rec(x.run.value.mem, s).instance.value);
  }

  lemma SlotTargetsEvolve(c: Cloud, d: Cloud, o: Owner, x: OwnerState, s: Slot)
    requires Inv(c, o, x) && x.run.Some? && RunTargets(c, o, x.run.value) && Evolves(c, d) && HasSlot(o, s)
    ensures SlotTargets(d, o, x.run.value, s)
  {
    var r := x.run.value;
    assert SlotTargets(c, o, r, s);
    if Rec(r.mem, s).instance.Some? {
      OwnTagEvolves(c, d, o, s, Rec(r.mem, s).instance.value);
      if Torn(o, r, s) {
        TornGone(c, o, x, s);
        PurgedEvolves(c, d, o, Rec(r.mem, s).instance.value);
      }
    }
  }

  lemma RunTargetsEvolve(c: Cloud, d: Cloud, o: Owner, x: OwnerState)
    requires Inv(c, o, x) && x.run.Some? && RunTargets(c, o, x.run.value) && Evolves(c, d)
    ensures RunTargets(d, o, x.run.value)
  {
    var r := x.run.value;
    if TargetOf(r.pc).Some? {
      OwnTagEvolves(c, d, o, SlotOf(r.pc).value, TargetOf(r.pc).value);
    }
    PurgeKnowsEvolves(c, d, r.pc);
    forall s | HasSlot(o, s) ensures SlotTargets(d, o, r, s) {
      SlotTargetsEvolve(c, d, o, x, s);
    }
  }

  lemma StoredTargetsEvolve(c: Cloud, d: Cloud, o: Owner, x: OwnerState, s: Slot)
    requires Inv(c, o, x) && HasSlot(o, s) && StoredTargets(c, o, x, s) && Evolves(c, d)
    ensures StoredTargets(d, o, x, s)
  {
    if x.stored.Some? && Rec(x.stored.value, s).instance.Some? {
      var id := Rec(x.stored.value, s).instance.value;
      OwnTagEvolves(c, d, o, s, id);
      if !x.stored.value.finalizer {
        assert SlotInv(c, o, x, s);
        NoneLiveGone(c, o, s, id);
        PurgedEvolves(c, d, o, id);
      }
    }
  }

  lemma EvolvesKeepsTargets(o: Owner, c: Cloud, x: OwnerState, d: Cloud)
    requires Inv(c, o, x) && TargetInv(c, o, x) && Evolves(c, d)
    ensures TargetInv(d, o, x)
  {
    forall s | HasSlot(o, s) ensures StoredTargets(d, o, x, s) {
      StoredTargetsEvolve(c, d, o, x, s);
    }
    if x.run.Some? {
      RunTargetsEvolve(c, d, o, x);
    }
  }

  // From one answer to the next call.

  predicate SameRecords(r: Run, q: Run) {
    && q.mem.deleting == r.mem.deleting
    && (q.mem.primary.instance == r.mem.primary.instance || (!r.mem.deleting && q.mem.primary.instance.None?))
    && (q.mem.service.instance == r.mem.service.instance || (!r.mem.deleting && q.mem.service.instance.None?))
  }

  /** The target stays the same or is dropped, and no slot becomes torn down. */
  predicate Tracks(o: Owner, r: Run, q: Run) {
    && SameRecords(r, q)
    && (TargetOf(q.pc).Some? ==> TargetOf(q.pc) == TargetOf(r.pc) && SlotOf(q.pc) == SlotOf(r.pc))
    && (Torn(o, q, Primary) ==> Torn(o, r, Primary))
    && (o.Cluster? && Torn(o, q, Service) ==> Torn(o, r, Service))
    && (PartOf(q.pc).Purging? && PhaseOf(q.pc).Cleaning? ==> PartOf(r.pc).Purging? && PhaseOf(r.pc).Cleaning?)
  }

  lemma TracksTargets(c: Cloud, o: Owner, r: Run, q: Run)
    requires RunTargets(c, o, r) && Tracks(o, r, q) && PurgeKnows(c, q.pc)
    ensures RunTargets(c, o, q)
  {
    forall s | HasSlot(o, s) ensures SlotTargets(c, o, q, s) {
      assert SlotTargets(c, o, r, s);
    }
  }

  lemma FollowsTracks(o: Owner, r: Run, q: Run)
    requires Follows(r, q) || (Clears(r, q) && !r.mem.deleting)
    requires TargetOf(q.pc).Some? ==> TargetOf(q.pc) == TargetOf(r.pc)
    requires PartOf(r.pc).Purging? && PhaseOf(q.pc).Cleaning? ==> PartOf(q.pc).Purging?
    requires PartOf(q.pc).Purging? && PhaseOf(q.pc).Cleaning? ==> PartOf(r.pc).Purging?
    requires q.pc.Finished? ==> TargetOf(q.pc).None?
    ensures Tracks(o, r, q)
  {
  }

  lemma SlotDoneTracks(o: Owner, r: Run, q: Run)
    requires SlotDone(o, r, q) && !PartOf(r.pc).Purging? && HasSlot(o, SlotOf(r.pc).value)
    requires SlotOf(r.pc) == Some(Primary) ==> r.mem.deleting
    ensures Tracks(o, r, q)
  {
    DoneMemorySame(r);
    LeavesTracks(o, r, DoneMemory(r), SlotOf(r.pc).value);
  }

  lemma LeavesTracks(o: Owner, r: Run, m: Object, s: Slot)
    requires SameCore(r.mem, m)
    requires PhaseOf(r.pc).Cleaning? && !PartOf(r.pc).Purging? && SlotOf(r.pc) == Some(s) && HasSlot(o, s)
    requires s.Primary? ==> r.mem.deleting
    ensures Tracks(o, r, AfterScripts(o, m, s))
    ensures s.Primary? ==> Tracks(o, r, Release(m))
  {
    if s.Primary? {
      ReleaseTracks(o, r, m);
    }
  }

  lemma ReleaseTracks(o: Owner, r: Run, m: Object)
    requires SameCore(r.mem, m) && PhaseOf(r.pc).Cleaning? && !PartOf(r.pc).Purging?
    requires SlotOf(r.pc) == Some(Primary) && r.mem.deleting
    ensures Tracks(o, r, Release(m))
  {
  }

  /** Program points that carry no knowledge about instances or volumes. */
  predicate Unarmed(pc: Pc) {
    !PartOf(pc).Purging? && !pc.AtShutdown? && !pc.AtDelete?
  }

  predicate KeepsTarget(r: Run, q: Run) {
    TargetOf(q.pc).Some? ==> TargetOf(q.pc) == TargetOf(r.pc)
  }

  lemma VolumeUnarmed(o: Owner, r: Run, a: Response)
    requires PartOf(r.pc).VolumeWork?
    ensures var q := HandleVolume(o, r.mem, r.pc, a); Unarmed(q.pc) && KeepsTarget(r, q)
  {
    if r.pc.AtOsTagGet? || r.pc.AtOsTagSet? {
      TagUnarmed(o, r, a);
    } else {
      CloneUnarmed(o, r, a);
    }
  }

  lemma TagUnarmed(o: Owner, r: Run, a: Response)
    requires r.pc.AtOsTagGet? || r.pc.AtOsTagSet?
    ensures var q := HandleVolume(o, r.mem, r.pc, a); Unarmed(q.pc) && KeepsTarget(r, q)
  {
  }

  lemma CloneUnarmed(o: Owner, r: Run, a: Response)
    requires PartOf(r.pc).VolumeWork? && !r.pc.AtOsTagGet? && !r.pc.AtOsTagSet?
    ensures var q := HandleVolume(o, r.mem, r.pc, a); Unarmed(q.pc) && TargetOf(q.pc).None?
  {
  }

  lemma CreationUnarmed(o: Owner, r: Run, a: Response)
    requires PartOf(r.pc).Creation? && !r.pc.AtCreate?
    ensures var q := HandleCreation(o, r.mem, r.pc, a); Unarmed(q.pc) && KeepsTarget(r, q)
  {
  }

  lemma ScriptUnarmed(o: Owner, r: Run, a: Response)
    requires PartOf(r.pc).ScriptWork?
    ensures var q := HandleScripts(o, r.mem, r.pc, a); Unarmed(q.pc) && KeepsTarget(r, q)
  {
  }

  lemma CloneRemovalUnarmed(o: Owner, r: Run, a: Response)
    requires PartOf(r.pc).CloneRemoval?
    ensures var q := HandleCloneRemoval(o, r.mem, r.pc, a); Unarmed(q.pc) && KeepsTarget(r, q)
  {
  }

  lemma ForwardTracks(o: Owner, r: Run, a: Response)
    requires (PartOf(r.pc).VolumeWork? || PartOf(r.pc).Creation?) && !r.pc.AtCreate?
    ensures var q := Handle(o, r, a); Tracks(o, r, q) && Unarmed(q.pc)
  {
    if PartOf(r.pc).VolumeWork? {
      VolumeMoves(o, r.mem, r.pc, a);
      VolumeUnarmed(o, r, a);
    } else {
      CreationMoves(o, r.mem, r.pc, a);
      CreationUnarmed(o, r, a);
    }
    FollowsTracks(o, r, Handle(o, r, a));
  }

  lemma CleanupTracks(o: Owner, x: OwnerState, r: Run, a: Response)
    requires OnPath(o, x, r) && (PartOf(r.pc).ScriptWork? || PartOf(r.pc).CloneRemoval?)
    ensures var q := Handle(o, r, a); Tracks(o, r, q) && Unarmed(q.pc)
  {
    var q := Handle(o, r, a);
    if PartOf(r.pc).ScriptWork? {
      ScriptMoves(o, r.mem, r.pc, a);
      ScriptUnarmed(o, r, a);
    } else {
      CloneRemovalMoves(o, r.mem, r.pc, a);
      CloneRemovalUnarmed(o, r, a);
    }
    if Follows(r, q) {
      FollowsTracks(o, r, q);
    } else {
      SlotDoneTracks(o, r, q);
    }
  }

  // Deleting and purging.

  lemma DeletionTracks(o: Owner, r: Run, a: Response)
    requires PartOf(r.pc).Deletion? && RunOK(false, o, r)
    requires r.pc.AtDeleteGet? && a.OneInstance? ==> a.row.id == r.pc.id
    ensures Tracks(o, r, HandleDeletion(o, r.mem, r.pc, a))
  {
    var q := HandleDeletion(o, r.mem, r.pc, a);
    DeletionMoves(o, r.mem, r.pc, a);
    DeletionKeepsTarget(o, r, a);
    FollowsTracks(o, r, q);
  }

  lemma DeletionKeepsTarget(o: Owner, r: Run, a: Response)
    requires PartOf(r.pc).Deletion? && RunOK(false, o, r)
    requires r.pc.AtDeleteGet? && a.OneInstance? ==> a.row.id == r.pc.id
    ensures var q := HandleDeletion(o, r.mem, r.pc, a);
            && KeepsTarget(r, q) && !PhaseOf(q.pc).Cleaning?
            && (Clears(r, q) && !Follows(r, q) ==> !r.mem.deleting)
  {
  }

  lemma DeletionKnows(c: Cloud, o: Owner, r: Run, a: Response)
    requires PartOf(r.pc).Deletion? && RunTargets(c, o, r)
    requires r.pc.AtDeleteGet? && a.OneInstance? ==>
               a.row.id in c.instances && a.row.inst == c.instances[a.row.id] && a.row.id < c.next
    ensures PurgeKnows(c, HandleDeletion(o, r.mem, r.pc, a).pc)
  {
  }

  /** The purge of a teardown is over: the slot counts as torn down. */
  lemma PurgeOverTargets(c: Cloud, o: Owner, r: Run)
    requires PartOf(r.pc).Purging? && r.pc.pwhy.InTeardown? && RunTargets(c, o, r) && Purged(c, r.pc.id)
    ensures RunTargets(c, o, Run(r.mem, AtScriptList(r.pc.s, ForTeardown)))
  {
    forall s | HasSlot(o, s) ensures SlotTargets(c, o, Run(r.mem, AtScriptList(r.pc.s, ForTeardown)), s) {
      assert SlotTargets(c, o, r, s);
    }
  }

  lemma StartScriptsTargets(c: Cloud, o: Owner, m: Object, s: Slot)
    requires RunTargets(c, o, Run(m, AtScriptList(s, ForTeardown))) && HasSlot(o, s)
    requires s.Primary? ==> m.deleting
    ensures RunTargets(c, o, StartScripts(o, m, s))
  {
    var r, q := Run(m, AtScriptList(s, ForTeardown)), StartScripts(o, m, s);
    StartScriptsMoves(o, r, s);
    if Follows(r, q) {
      FollowsTargets(c, o, r, q);
    } else {
      LeavesTargets(c, o, m, s);
    }
  }

  lemma FollowsTargets(c: Cloud, o: Owner, r: Run, q: Run)
    requires RunTargets(c, o, r) && Follows(r, q) && Unarmed(r.pc) && Unarmed(q.pc) && KeepsTarget(r, q)
    ensures RunTargets(c, o, q)
  {
    FollowsTracks(o, r, q);
    TracksTargets(c, o, r, q);
  }

  lemma LeavesTargets(c: Cloud, o: Owner, m: Object, s: Slot)
    requires RunTargets(c, o, Run(m, AtScriptList(s, ForTeardown))) && HasSlot(o, s)
    requires s.Primary? ==> m.deleting
    ensures RunTargets(c, o, AfterScripts(o, m, s))
  {
    var r := Run(m, AtScriptList(s, ForTeardown));
    LeavesTracks(o, r, m, s);
    TracksTargets(c, o, r, AfterScripts(o, m, s));
  }

  lemma AfterPurgeTargets(c: Cloud, o: Owner, r: Run, pending: nat)
    requires PartOf(r.pc).Purging? && RunTargets(c, o, r) && RunOK(false, o, r) && HasSlot(o, r.pc.s)
    requires r.pc.s.Primary? && r.pc.pwhy.InTeardown? ==> r.mem.deleting
    requires r.pc.pwhy.InTeardown? && pending == 0 ==> Purged(c, r.pc.id)
    ensures RunTargets(c, o, AfterPurge(o, r.mem, r.pc.s, pending, r.pc.pwhy))
  {
    var q := AfterPurge(o, r.mem, r.pc.s, pending, r.pc.pwhy);
    if r.pc.pwhy.InDelete? {
      AfterDeleteMoves(o, r, r.pc.pwhy.why);
      FollowsTracks(o, r, q);
      TracksTargets(c, o, r, q);
    } else if pending == 0 {
      PurgeOverTargets(c, o, r);
      StartScriptsTargets(c, o, r.mem, r.pc.s);
    } else {
      FollowsTracks(o, r, q);
      TracksTargets(c, o, r, q);
    }
  }

  lemma AllReleased(c: Cloud, id: Id, vols: seq<Id>)
    requires id < c.next
    requires id in c.instances ==> vols == VolumesOf(c.instances[id])
    requires forall k :: 0 <= k < |vols| ==> Released(c, vols[k])
    ensures Purged(c, id)
  {
    if id in c.instances {
      VolumesOfIs(c.instances[id]);
      forall v | ListsVolume(c.instances[id], v) ensures Released(c, v) {
        assert v in vols;
      }
    }
  }

  lemma PurgeNextTargets(c: Cloud, o: Owner, r: Run, vols: seq<Id>, n: nat, trash: set<Id>, pending: nat)
    requires PartOf(r.pc).Purging? && RunTargets(c, o, r) && RunOK(false, o, r) && HasSlot(o, r.pc.s)
    requires r.pc.s.Primary? && r.pc.pwhy.InTeardown? ==> r.mem.deleting
    requires n <= |vols| && PurgeKnows(c, AtPurge(r.pc.s, r.pc.id, vols, n, trash, pending, r.pc.pwhy))
    ensures RunTargets(c, o, PurgeNext(o, r.mem, r.pc.s, r.pc.id, vols, n, trash, pending, r.pc.pwhy))
  {
    var q := PurgeNext(o, r.mem, r.pc.s, r.pc.id, vols, n, trash, pending, r.pc.pwhy);
    if n < |vols| {
      FollowsTracks(o, r, q);
      TracksTargets(c, o, r, q);
    } else {
      if pending == 0 {
        AllReleased(c, r.pc.id, vols);
      }
      AfterPurgeTargets(c, o, r, pending);
    }
  }

  lemma PurgeGetTargets(c: Cloud, o: Owner, r: Run, a: Response)
    requires r.pc.AtPurgeGet? && WellFormed(c) && RunTargets(c, o, r) && RunOK(false, o, r) && HasSlot(o, r.pc.s)
    requires r.pc.s.Primary? && r.pc.pwhy.InTeardown? ==> r.mem.deleting
    requires a.OneInstance? ==> a.row.id == r.pc.id && a.row.id in c.instances && a.row.inst == c.instances[a.row.id]
    requires a.Missing? ==> r.pc.id !in c.instances
    ensures RunTargets(c, o, HandlePurge(o, r.mem, r.pc, a))
  {
    var q := HandlePurge(o, r.mem, r.pc, a);
    if a.Missing? {
      AfterPurgeTargets(c, o, r, 0);
    } else {
      if a.OneInstance? {
        VolumesOfIs(a.row.inst);
      }
      FollowsTracks(o, r, q);
      TracksTargets(c, o, r, q);
    }
  }

  lemma PurgeLoopTargets(c: Cloud, o: Owner, r: Run, a: Response)
    requires (r.pc.AtPurgeTrash? || (r.pc.AtPurge? && r.pc.n < |r.pc.vols|)) && RunTargets(c, o, r)
    requires RunOK(false, o, r) && HasSlot(o, r.pc.s)
    requires r.pc.s.Primary? && r.pc.pwhy.InTeardown? ==> r.mem.deleting
    requires r.pc.AtPurge? && !a.Failed?
               && (r.pc.vols[r.pc.n] in r.pc.trash || !a.OneVolume? || a.vol.vol.status.VolumeDeleted?) ==>
               Released(c, r.pc.vols[r.pc.n])
    ensures RunTargets(c, o, HandlePurge(o, r.mem, r.pc, a))
  {
    if r.pc.AtPurgeTrash? && a.Trash? {
      PurgeNextTargets(c, o, r, r.pc.vols, 0, a.ids, 0);
    } else if r.pc.AtPurge? && !a.Failed? {
      PurgeOneTargets(c, o, r, a);
    } else {
      var q := Stop(r.mem);
      FollowsTracks(o, r, q);
      TracksTargets(c, o, r, q);
    }
  }

  lemma PurgeOneTargets(c: Cloud, o: Owner, r: Run, a: Response)
    requires r.pc.AtPurge? && r.pc.n < |r.pc.vols| && !a.Failed? && RunTargets(c, o, r) && RunOK(false, o, r)
    requires HasSlot(o, r.pc.s)
    requires r.pc.s.Primary? && r.pc.pwhy.InTeardown? ==> r.mem.deleting
    requires r.pc.vols[r.pc.n] in r.pc.trash || !a.OneVolume? || a.vol.vol.status.VolumeDeleted? ==>
               Released(c, r.pc.vols[r.pc.n])
    ensures RunTargets(c, o, HandlePurge(o, r.mem, r.pc, a))
  {
    var vols, n := r.pc.vols, r.pc.n;
    var more := vols[n] !in r.pc.trash && a.OneVolume? && !a.vol.vol.status.VolumeDeleted?;
    PurgeNextTargets(c, o, r, vols, n + 1, r.pc.trash, if more then r.pc.pending + 1 else r.pc.pending);
  }

  // Lookups and creation.

  ghost predicate FoundOwn(c: Cloud, o: Owner, s: Slot, l: Lookup) {
    && (l.Found? ==> OwnTag(c, o, s, l.row.id))
    && (l.Found? && l.row.inst.status.NotFound? ==> l.row.id !in c.instances)
    && (l.Found? && Gone(l.row.inst.status) ==> GoneOrAbsent(c, l.row.id))
  }

  lemma LookupFindsOwn(c: Cloud, d: Cloud, o: Owner, r: Run, a: Response)
    requires WellFormed(c) && r.pc.AtLookup? && HasSlot(o, r.pc.s) && RunTargets(c, o, r)
    requires Answers(c, NextCall(o, r), d, a)
    ensures d == c
    ensures var l := LookupResult(o, r.mem, r.pc.s, a);
            && FoundOwn(c, o, r.pc.s, l)
            && (Rec(r.mem, r.pc.s).instance.Some? ==>
                !l.Nothing? && (l.Found? ==> Some(l.row.id) == Rec(r.mem, r.pc.s).instance))
  {
    assert SlotTargets(c, o, r, r.pc.s);
    if Rec(r.mem, r.pc.s).instance.None? && a.Instances? {
      TagLookupExact(c, a.rows, TagKeyOf(o, r.pc.s), TagValue(o));
    }
  }

  lemma NoteTargets(c: Cloud, o: Owner, m: Object, s: Slot, row: InstanceRow, pc: Pc, n: Object)
    requires RunTargets(c, o, Run(m, pc)) && HasSlot(o, s) && OwnTag(c, o, s, row.id) && m.finalizer && !m.deleting
    requires SameCore(Note(m, s, row), n)
    ensures RunTargets(c, o, Stop(n))
  {
    forall t | HasSlot(o, t) ensures SlotTargets(c, o, Stop(n), t) {
      assert SlotTargets(c, o, Run(m, pc), t);
    }
  }

  /** From a stopped run, a new program point whose target is known. */
  lemma ResumeTargets(c: Cloud, o: Owner, m: Object, pc: Pc)
    requires RunTargets(c, o, Stop(m)) && m.finalizer && !m.deleting && Unarmed(pc) && !PhaseOf(pc).Cleaning?
    requires TargetOf(pc).Some? ==> SlotOf(pc).Some? && OwnTag(c, o, SlotOf(pc).value, TargetOf(pc).value)
    ensures RunTargets(c, o, Run(m, pc))
  {
    forall t | HasSlot(o, t) ensures SlotTargets(c, o, Run(m, pc), t) {
      assert SlotTargets(c, o, Stop(m), t);
    }
  }

  lemma SettleTargets(c: Cloud, o: Owner, m: Object, row: InstanceRow)
    requires RunTargets(c, o, Stop(m)) && m.finalizer && !m.deleting && OwnTag(c, o, Primary, row.id)
    ensures RunTargets(c, o, Settle(m, row))
  {
    ResumeTargets(c, o, m, AtDeleteGet(Primary, row.id, NoCapacityRetry));
    forall n | SameCore(m, n) ensures RunTargets(c, o, Stop(n)) {
      forall t | HasSlot(o, t) ensures SlotTargets(c, o, Stop(n), t) {
        assert SlotTargets(c, o, Stop(m), t);
      }
    }
  }

  lemma AfterFoundTargets(c: Cloud, o: Owner, m: Object, s: Slot, row: InstanceRow, pc: Pc)
    requires RunTargets(c, o, Run(m, pc)) && !m.deleting && m.finalizer && HasSlot(o, s) && OwnTag(c, o, s, row.id)
    ensures RunTargets(c, o, AfterFound(o, m, s, row))
  {
    if o.Machine? {
      var n := Note(m, s, row).(state := row.inst.status);
      NoteTargets(c, o, m, s, row, pc, n);
      ResumeTargets(c, o, n, AtOsTagGet(row));
      SettleTargets(c, o, n, row);
    } else {
      var n := NoteAddress(Note(m, s, row), s, row);
      NoteTargets(c, o, m, s, row, pc, n);
      BalancerTargets(c, o, n, s);
    }
  }

  lemma BalancerTargets(c: Cloud, o: Owner, n: Object, s: Slot)
    requires o.Cluster? && n.finalizer && !n.deleting && RunTargets(c, o, Stop(n))
    ensures RunTargets(c, o, if s.Primary? then StartService(n) else Stop(n))
  {
    ResumeTargets(c, o, n, AtLookup(Service, Ensure));
    ResumeTargets(c, o, n, AtLookup(Service, Teardown));
  }

  lemma EnsureTargets(c: Cloud, o: Owner, x: OwnerState, r: Run, l: Lookup)
    requires r.pc.AtLookup? && r.pc.goal.Ensure? && OnPath(o, x, r) && RunTargets(c, o, r) && FoundOwn(c, o, r.pc.s, l)
    ensures RunTargets(c, o, AfterLookup(o, r.mem, r.pc.s, r.pc.goal, l))
  {
    if l.Found? {
      AfterFoundTargets(c, o, r.mem, r.pc.s, l.row, r.pc);
    } else {
      var q := AfterLookup(o, r.mem, r.pc.s, r.pc.goal, l);
      assert Tracks(o, r, q);
      TracksTargets(c, o, r, q);
    }
  }

  lemma TeardownTargets(c: Cloud, o: Owner, x: OwnerState, r: Run, l: Lookup)
    requires r.pc.AtLookup? && r.pc.goal.Teardown? && OnPath(o, x, r) && RunTargets(c, o, r)
    requires FoundOwn(c, o, r.pc.s, l)
    requires Rec(r.mem, r.pc.s).instance.Some? ==>
               !l.Nothing? && (l.Found? ==> Some(l.row.id) == Rec(r.mem, r.pc.s).instance)
    ensures RunTargets(c, o, AfterLookup(o, r.mem, r.pc.s, r.pc.goal, l))
  {
    var m, s, q := r.mem, r.pc.s, AfterLookup(o, r.mem, r.pc.s, r.pc.goal, l);
    if l.Nothing? || (l.Found? && l.row.inst.status.NotFound?) {
      var p := Run(m, AtScriptList(s, ForTeardown));
      forall t | HasSlot(o, t) ensures SlotTargets(c, o, p, t) {
        assert SlotTargets(c, o, r, t);
      }
      StartScriptsTargets(c, o, m, s);
    } else {
      forall t | HasSlot(o, t) ensures SlotTargets(c, o, q, t) {
        assert SlotTargets(c, o, r, t);
      }
    }
  }

  lemma LookupTargets(c: Cloud, d: Cloud, o: Owner, x: OwnerState, r: Run, a: Response)
    requires WellFormed(c) && r.pc.AtLookup? && OnPath(o, x, r) && RunTargets(c, o, r)
    requires Answers(c, NextCall(o, r), d, a)
    ensures d == c && RunTargets(d, o, Handle(o, r, a))
  {
    LookupFindsOwn(c, d, o, r, a);
    var l := LookupResult(o, r.mem, r.pc.s, a);
    match r.pc.goal
    case Ensure => EnsureTargets(c, o, x, r, l);
    case Teardown => TeardownTargets(c, o, x, r, l);
    case Resync => ResyncTargets(c, o, r, l);
  }

  lemma ResyncTargets(c: Cloud, o: Owner, r: Run, l: Lookup)
    requires r.pc.AtLookup? && r.pc.goal.Resync? && RunTargets(c, o, r)
    ensures RunTargets(c, o, AfterLookup(o, r.mem, r.pc.s, r.pc.goal, l))
  {
    var q := AfterLookup(o, r.mem, r.pc.s, r.pc.goal, l);
    FollowsTracks(o, r, q);
    TracksTargets(c, o, r, q);
  }

  lemma CreateTargets(c: Cloud, d: Cloud, o: Owner, x: OwnerState, r: Run, a: Response)
    requires r.pc.AtCreate? && OnPath(o, x, r) && RunTargets(d, o, r)
    requires Answers(c, NextCall(o, r), d, a)
    ensures RunTargets(d, o, Handle(o, r, a))
  {
    if a.OneInstance? {
      CreatedTargets(c, d, o, x, r, a);
    } else {
      var q := Handle(o, r, a);
      assert Tracks(o, r, q);
      TracksTargets(d, o, r, q);
    }
  }

  lemma CreatedTargets(c: Cloud, d: Cloud, o: Owner, x: OwnerState, r: Run, a: Response)
    requires r.pc.AtCreate? && OnPath(o, x, r) && RunTargets(d, o, r) && a.OneInstance?
    requires Answers(c, NextCall(o, r), d, a)
    ensures RunTargets(d, o, HandleCreation(o, r.mem, r.pc, a))
  {
    var row := a.row;
    assert OwnTag(d, o, r.pc.s, row.id);
    AfterFoundTargets(d, o, r.mem, r.pc.s,
                      WithScript(row, r.pc.script), r.pc);
  }

  // Every step.

  predicate SameInstances(m: Object, n: Object) {
    n.deleting == m.deleting && n.primary.instance == m.primary.instance && n.service.instance == m.service.instance
  }

  lemma PurgeRecords(o: Owner, r: Run, a: Response)
    requires PartOf(r.pc).Purging? && RunOK(false, o, r) && r.mem.deleting
    ensures SameInstances(r.mem, HandlePurge(o, r.mem, r.pc, a).mem)
  {
    if r.pc.AtPurgeGet? {
      AfterPurgeRecords(o, r, r.pc.s, 0, r.pc.pwhy);
    } else if r.pc.AtPurgeTrash? {
      AfterPurgeRecords(o, r, r.pc.s, 0, r.pc.pwhy);
    } else {
      AfterPurgeRecords(o, r, r.pc.s, r.pc.pending, r.pc.pwhy);
      AfterPurgeRecords(o, r, r.pc.s, r.pc.pending + 1, r.pc.pwhy);
    }
  }

  lemma AfterPurgeRecords(o: Owner, r: Run, s: Slot, pending: nat, why: PurgeWhy)
    requires PartOf(r.pc).Purging? && RunOK(false, o, r) && r.mem.deleting && why == r.pc.pwhy
    ensures SameInstances(r.mem, AfterPurge(o, r.mem, s, pending, why).mem)
  {
  }

  lemma DeleteGetRecords(o: Owner, r: Run, a: Response)
    requires r.pc.AtDeleteGet? && RunOK(false, o, r) && r.mem.deleting
    ensures SameInstances(r.mem, HandleDeletion(o, r.mem, r.pc, a).mem)
  {
    if a.OneInstance? {
      assert SameInstances(r.mem, DeleteSwitch(o, r.mem, r.pc.s, a.row, r.pc.dwhy).mem);
    }
  }

  lemma DeletionRecords(o: Owner, r: Run, a: Response)
    requires PartOf(r.pc).Deletion? && RunOK(false, o, r) && r.mem.deleting
    ensures SameInstances(r.mem, HandleDeletion(o, r.mem, r.pc, a).mem)
  {
    if r.pc.AtDeleteGet? {
      DeleteGetRecords(o, r, a);
    } else if r.pc.AtDueCheck? {
      DueCheckRecords(o, r, a);
    }
  }

  lemma DueCheckRecords(o: Owner, r: Run, a: Response)
    requires r.pc.AtDueCheck? && r.mem.deleting
    ensures SameInstances(r.mem, HandleDeletion(o, r.mem, r.pc, a).mem)
  {
  }

  lemma CleanupRecords(o: Owner, r: Run, a: Response)
    requires (PartOf(r.pc).ScriptWork? || PartOf(r.pc).CloneRemoval?) && r.mem.deleting
    ensures SameInstances(r.mem, Handle(o, r, a).mem)
  {
    if PartOf(r.pc).ScriptWork? {
      ScriptMoves(o, r.mem, r.pc, a);
    } else {
      CloneRemovalMoves(o, r.mem, r.pc, a);
    }
    DoneMemorySame(r);
  }

  /** A run that deletes never changes which instance is recorded. */
  lemma LookupRecords(o: Owner, r: Run, l: Lookup)
    requires r.pc.AtLookup? && RunOK(false, o, r) && r.mem.deleting && HasSlot(o, r.pc.s)
    ensures SameInstances(r.mem, AfterLookup(o, r.mem, r.pc.s, r.pc.goal, l).mem)
  {
  }

  lemma DeletingKeepsRecords(o: Owner, r: Run, a: Response)
    requires !r.pc.Finished? && RunOK(false, o, r) && r.mem.deleting && HasSlot(o, SlotOf(r.pc).value)
    ensures SameInstances(r.mem, Handle(o, r, a).mem)
  {
    match PartOf(r.pc)
    case LookingUp => LookupRecords(o, r, LookupResult(o, r.mem, r.pc.s, a));
    case Deletion => DeletionRecords(o, r, a);
    case Purging => PurgeRecords(o, r, a);
    case ScriptWork => CleanupRecords(o, r, a);
    case CloneRemoval => CleanupRecords(o, r, a);
    case _ =>
  }

  lemma PurgingTargets(c: Cloud, d: Cloud, o: Owner, x: OwnerState, r: Run, a: Response)
    requires WellFormed(d) && PartOf(r.pc).Purging? && OnPath(o, x, r) && RunOK(false, o, r)
    requires RunTargets(d, o, r) && Answers(c, NextCall(o, r), d, a)
    ensures RunTargets(d, o, HandlePurge(o, r.mem, r.pc, a))
  {
    if r.pc.AtPurgeGet? {
      PurgeGetTargets(d, o, r, a);
    } else if r.pc.AtPurge? && r.pc.n >= |r.pc.vols| {
      PurgeStopTargets(d, o, r, a);
    } else {
      assert r.pc.AtPurge? ==> r.pc.vols[r.pc.n] in r.pc.vols;
      PurgeLoopTargets(d, o, r, a);
    }
  }

  lemma PurgeStopTargets(d: Cloud, o: Owner, r: Run, a: Response)
    requires r.pc.AtPurge? && r.pc.n >= |r.pc.vols| && RunTargets(d, o, r)
    ensures RunTargets(d, o, HandlePurge(o, r.mem, r.pc, a))
  {
    var q := HandlePurge(o, r.mem, r.pc, a);
    FollowsTracks(o, r, q);
    TracksTargets(d, o, r, q);
  }

  lemma QuietTargets(c: Cloud, d: Cloud, o: Owner, x: OwnerState, r: Run, a: Response)
    requires WellFormed(d) && !r.pc.Finished? && !r.pc.AtLookup? && !r.pc.AtCreate? && OnPath(o, x, r)
    requires RunOK(false, o, r)
    requires RunTargets(d, o, r) && Answers(c, NextCall(o, r), d, a)
    ensures RunTargets(d, o, Handle(o, r, a))
  {
    match PartOf(r.pc)
    case VolumeWork => ForwardTargets(d, o, r, a);
    case Creation => ForwardTargets(d, o, r, a);
    case ScriptWork => CleanupTargets(d, o, x, r, a);
    case CloneRemoval => CleanupTargets(d, o, x, r, a);
    case Deletion => DeletionTargets(c, d, o, r, a);
    case Purging => PurgingTargets(c, d, o, x, r, a);
  }

  lemma ForwardTargets(d: Cloud, o: Owner, r: Run, a: Response)
    requires (PartOf(r.pc).VolumeWork? || PartOf(r.pc).Creation?) && !r.pc.AtCreate? && RunTargets(d, o, r)
    ensures RunTargets(d, o, Handle(o, r, a))
  {
    ForwardTracks(o, r, a);
    TracksTargets(d, o, r, Handle(o, r, a));
  }

  lemma CleanupTargets(d: Cloud, o: Owner, x: OwnerState, r: Run, a: Response)
    requires OnPath(o, x, r) && (PartOf(r.pc).ScriptWork? || PartOf(r.pc).CloneRemoval?) && RunTargets(d, o, r)
    ensures RunTargets(d, o, Handle(o, r, a))
  {
    CleanupTracks(o, x, r, a);
    TracksTargets(d, o, r, Handle(o, r, a));
  }

  lemma DeletionTargets(c: Cloud, d: Cloud, o: Owner, r: Run, a: Response)
    requires WellFormed(d) && PartOf(r.pc).Deletion? && RunOK(false, o, r) && RunTargets(d, o, r)
    requires Answers(c, NextCall(o, r), d, a)
    ensures RunTargets(d, o, Handle(o, r, a))
  {
    DeletionTracks(o, r, a);
    DeletionKnows(d, o, r, a);
    TracksTargets(d, o, r, Handle(o, r, a));
  }

  lemma ApiKeepsTargets(o: Owner, c: Cloud, x: OwnerState, a: Response, d: Cloud)
    requires Inv(c, o, x) && StatusInv(false, o, x) && TargetInv(c, o, x) && x.run.Some? && !x.run.value.pc.Finished?
    requires Answers(c, NextCall(o, x.run.value), d, a)
    ensures TargetInv(d, o, x.(run := Some(Handle(o, x.run.value, a))))
  {
    var r, q := x.run.value, Handle(o, x.run.value, a);
    AnswersEvolve(c, NextCall(o, r), d, a);
    EvolvesKeepsTargets(o, c, x, d);
    HandleGood(false, o, r, a);
    if r.mem.deleting {
      DeletingKeepsRecords(o, r, a);
    }
    forall s | HasSlot(o, s) ensures StoredTargets(d, o, x.(run := Some(q)), s) {
      assert StoredTargets(d, o, x, s);
    }
    if r.pc.AtLookup? {
      LookupTargets(c, d, o, x, r, a);
    } else if r.pc.AtCreate? {
      CreateTargets(c, d, o, x, r, a);
    } else {
      QuietTargets(c, d, o, x, r, a);
    }
  }

  lemma LoadKeepsTargets(o: Owner, c: Cloud, x: OwnerState)
    requires TargetInv(c, o, x) && x.run.None? && x.stored.Some?
    ensures TargetInv(c, o, x.(run := Some(Start(o, x.stored.value))))
  {
    var r := Start(o, x.stored.value);
    forall s | HasSlot(o, s) ensures StoredTargets(c, o, x.(run := Some(r)), s) && SlotTargets(c, o, r, s) {
      assert StoredTargets(c, o, x, s);
    }
  }

  lemma PatchKeepsTargets(o: Owner, c: Cloud, x: OwnerState, meta: bool, status: bool, conds: bool)
    requires Inv(c, o, x) && TargetInv(c, o, x) && x.run.Some? && x.run.value.pc.Finished? && x.stored.Some?
    ensures TargetInv(c, o, OwnerState(Some(Patched(x.stored.value, x.run.value.mem, meta, status, conds)), None))
  {
    forall s | HasSlot(o, s)
      ensures StoredTargets(c, o,
                            OwnerState(Some(Patched(x.stored.value, x.run.value.mem, meta, status, conds)), None), s)
    {
      assert StoredTargets(c, o, x, s) && SlotTargets(c, o, x.run.value, s);
    }
  }

  lemma GiveUpKeepsTargets(o: Owner, c: Cloud, x: OwnerState, q: Run)
    requires TargetInv(c, o, x) && x.run.Some? && q.pc.Finished? && SameCore(x.run.value.mem, q.mem)
    ensures TargetInv(c, o, x.(run := Some(q)))
  {
    FollowsTracks(o, x.run.value, q);
    TracksTargets(c, o, x.run.value, q);
    forall s | HasSlot(o, s) ensures StoredTargets(c, o, x.(run := Some(q)), s) {
      assert StoredTargets(c, o, x, s);
    }
  }

  lemma UserKeepsTargets(o: Owner, c: Cloud, x: OwnerState, e: Event, d: Cloud, y: OwnerState)
    requires TargetInv(c, o, x) && Step(o, c, x, e, d, y)
    requires !e.Api? && !e.Load? && !e.Patch? && !e.GiveUp?
    ensures TargetInv(d, o, y)
  {
    forall s | HasSlot(o, s) ensures StoredTargets(d, o, y, s) {
      assert StoredTargets(c, o, x, s);
    }
  }

  lemma StepKeepsTargets(o: Owner, c: Cloud, x: OwnerState, e: Event, d: Cloud, y: OwnerState)
    requires Inv(c, o, x) && StatusInv(false, o, x) && TargetInv(c, o, x) && Step(o, c, x, e, d, y)
    ensures TargetInv(d, o, y)
  {
    match e
    case Api(a) => ApiKeepsTargets(o, c, x, a, d);
    case Load => LoadKeepsTargets(o, c, x);
    case Patch(meta, status, conds) => if x.stored.Some? { PatchKeepsTargets(o, c, x, meta, status, conds); }
    case GiveUp(_) => GiveUpKeepsTargets(o, c, x, y.run.value);
    case _ => UserKeepsTargets(o, c, x, e, d, y);
  }

  /** Only managed instances carrying the owner's own tag are shut down or deleted. */
  lemma DestroysOnlyOwn(o: Owner, c: Cloud, x: OwnerState)
    requires Inv(c, o, x) && TargetInv(c, o, x) && x.run.Some? && !x.run.value.pc.Finished?
    ensures var call := NextCall(o, x.run.value);
            (call.ShutdownInstance? || call.DeleteInstance?) && call.id in c.instances ==>
              c.instances[call.id].managed && CarriesTagOf(o, c.instances[call.id])
  {
    var r := x.run.value;
    if r.pc.AtShutdown? || r.pc.AtDelete? {
      assert OwnTag(c, o, SlotOf(r.pc).value, r.pc.id);
      assert HasSlot(o, SlotOf(r.pc).value);
    }
  }
}
