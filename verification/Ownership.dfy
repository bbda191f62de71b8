/**
 Ownership: at most one live instance per tag, always the recorded one if one is recorded, and none
 once the finalizer is gone. Inductive over every step of the owner and of the rest of the world.
 */
module Ownership {
  import opened Prelude
  import opened Owners
  import opened CloudApi
  import opened Client
  import opened Reconcile
  import opened Protocol

  ghost predicate LiveFor(c: Cloud, o: Owner, s: Slot, id: Id) {
    id in c.instances && !Gone(c.instances[id].status) && Tag(c.instances[id], TagKeyOf(o, s)) == TagValue(o)
  }

  ghost predicate AtMostOneLive(c: Cloud, o: Owner, s: Slot) {
    forall a, b :: LiveFor(c, o, s, a) && LiveFor(c, o, s, b) ==> a == b
  }

  ghost predicate NoneLive(c: Cloud, o: Owner, s: Slot) {
    forall a :: !LiveFor(c, o, s, a)
  }

  /** A recorded instance is the only one that can be live. */
  ghost predicate Pinned(c: Cloud, o: Owner, s: Slot, rec: Option<Id>) {
    rec.Some? ==> rec.value < c.next && forall a :: LiveFor(c, o, s, a) ==> a == rec.value
  }

  /**
   What the run is doing: on its way to create an instance, cleaning up after a lookup that found
   nothing live, or neither.
   */
  datatype Phase = Creating | Cleaning | Neither

  function ScriptPhase(why: ScriptWhy): Phase {
    if why.ForCreate? then Creating else Cleaning
  }

  function PurgePhase(why: PurgeWhy): Phase {
    if why.InTeardown? then Cleaning else Neither
  }

  function PhaseOf(pc: Pc): Phase {
    match pc
    case AtVolumeLookup => Creating
    case AtSourceGet => Creating
    case AtSourceList => Creating
    case AtClone(_) => Creating
    case AtCloneTag(_) => Creating
    case AtVolumeTag(_) => Creating
    case AtHostCheck(_, _) => Creating
    case AtScriptList(_, why) => ScriptPhase(why)
    case AtScriptDelete(_, why, _) => ScriptPhase(why)
    case AtScriptAdd(_, _) => Creating
    case AtCreate(_, _, _) => Creating
    case AtPurgeGet(_, _, why) => PurgePhase(why)
    case AtPurgeTrash(_, _, _, why) => PurgePhase(why)
    case AtPurge(_, _, _, _, _, _, why) => PurgePhase(why)
    case AtScriptForget(_) => Cleaning
    case AtOsGet => Cleaning
    case AtOsCheck => Cleaning
    case AtOsDelete => Cleaning
    case _ => Neither
  }

  /** The slot the run is working on. */
  function SlotOf(pc: Pc): (s: Option<Slot>)
    ensures s.None? <==> pc.Finished?
  {
    match pc
    case AtLookup(s, _) => Some(s)
    case AtVolumeLookup => Some(Primary)
    case AtSourceGet => Some(Primary)
    case AtSourceList => Some(Primary)
    case AtClone(_) => Some(Primary)
    case AtCloneTag(_) => Some(Primary)
    case AtVolumeTag(_) => Some(Primary)
    case AtHostCheck(s, _) => Some(s)
    case AtScriptList(s, _) => Some(s)
    case AtScriptDelete(s, _, _) => Some(s)
    case AtScriptAdd(s, _) => Some(s)
    case AtCreate(s, _, _) => Some(s)
    case AtCreateCleanup(s, _) => Some(s)
    case AtOsTagGet(_) => Some(Primary)
    case AtOsTagSet(_) => Some(Primary)
    case AtDueCheck(s, _) => Some(s)
    case AtDeleteGet(s, _, _) => Some(s)
    case AtShutdown(s, _, _) => Some(s)
    case AtDelete(s, _, _, _) => Some(s)
    case AtPurgeGet(s, _, _) => Some(s)
    case AtPurgeTrash(s, _, _, _) => Some(s)
    case AtPurge(s, _, _, _, _, _, _) => Some(s)
    case AtScriptForget(s) => Some(s)
    case AtOsGet => Some(Primary)
    case AtOsCheck => Some(Primary)
    case AtOsDelete => Some(Primary)
    case Finished => None
  }

  /** Where a run may be: the shape of the program, without the cloud. */
  ghost predicate OnPath(o: Owner, x: OwnerState, r: Run) {
    // a run that is not deleting works on a stored object that keeps its finalizer
    && (!r.mem.deleting ==> x.stored.Some? && x.stored.value.finalizer && r.mem.finalizer)
    && (!r.pc.Finished? ==>
          var s := SlotOf(r.pc).value;
          && HasSlot(o, s)
          && (PhaseOf(r.pc).Creating? || r.pc == AtLookup(s, Ensure) ==>
                !r.mem.deleting && Rec(r.mem, s).instance == Rec(x.stored.value, s).instance)
          && (PhaseOf(r.pc).Creating? ==> Rec(r.mem, s).instance.None?)
          && (s.Primary? && (PhaseOf(r.pc).Cleaning? || r.pc == AtLookup(s, Teardown)) ==> r.mem.deleting)
          // the service slot is reached after the primary one, so it is still as loaded
          && (s.Primary? && o.Cluster? && !r.mem.deleting ==>
              r.mem.service.instance == x.stored.value.service.instance))
  }

  /** What the run has learned about slot `s`. */
  ghost predicate Learned(c: Cloud, o: Owner, r: Run, s: Slot) {
    && Pinned(c, o, s, Rec(r.mem, s).instance)
    && (SlotOf(r.pc) == Some(s) && !PhaseOf(r.pc).Neither? ==> NoneLive(c, o, s))
    && (!r.mem.finalizer ==> NoneLive(c, o, s))
    // a cluster being deleted turns to its primary slot once the service slot is empty
    && (o.Cluster? && r.mem.deleting && s.Service? && SlotOf(r.pc) == Some(Primary) ==> NoneLive(c, o, s))
  }

  ghost predicate SlotInv(c: Cloud, o: Owner, x: OwnerState, s: Slot) {
    && AtMostOneLive(c, o, s)
    && (x.stored.Some? ==> Pinned(c, o, s, Rec(x.stored.value, s).instance))
    && (x.stored.None? || !x.stored.value.finalizer ==> NoneLive(c, o, s))
    && (x.run.Some? ==> Learned(c, o, x.run.value, s))
  }

  ghost predicate Inv(c: Cloud, o: Owner, x: OwnerState) {
    && WellFormed(c)
    && (x.run.Some? ==> OnPath(o, x, x.run.value))
    && forall s :: HasSlot(o, s) ==> SlotInv(c, o, x, s)
  }

  // The rest of the world takes a step.

  /** No instance becomes live for the slot, and numbers only grow. */
  ghost predicate Shrinks(c: Cloud, d: Cloud, o: Owner, s: Slot) {
    c.next <= d.next && forall id :: LiveFor(d, o, s, id) ==> LiveFor(c, o, s, id)
  }

  lemma RelyShrinks(o: Owner, c: Cloud, d: Cloud, s: Slot)
    requires Rely(o, c, d) && HasSlot(o, s)
    ensures Shrinks(c, d, o, s)
  {
    forall id | LiveFor(d, o, s, id) ensures LiveFor(c, o, s, id) {
      if id !in c.instances {
        assert CarriesTagOf(o, d.instances[id]);
      }
    }
  }

  lemma RelyKeepsInv(o: Owner, c: Cloud, x: OwnerState, d: Cloud)
    requires Inv(c, o, x)
    requires Rely(o, c, d)
    ensures Inv(d, o, x)
  {
    forall s | HasSlot(o, s) ensures SlotInv(d, o, x, s) {
      RelyShrinks(o, c, d, s);
    }
  }

  // The owner makes a call.

  lemma CallShrinks(o: Owner, c: Cloud, call: Call, d: Cloud, a: Response, s: Slot)
    requires WellFormed(c) && Answers(c, call, d, a)
    requires !call.CreateInstance? || call.key != TagKeyOf(o, s)
    ensures Shrinks(c, d, o, s)
  {
    AnswersEvolve(c, call, d, a);
  }

  /** A lookup that finds nothing live proves there is nothing live. */
  lemma LookupLearns(o: Owner, c: Cloud, m: Object, s: Slot, d: Cloud, a: Response)
    requires WellFormed(c) && AtMostOneLive(c, o, s) && Pinned(c, o, s, Rec(m, s).instance)
    requires Answers(c, if Rec(m, s).instance.Some? then GetInstance(Rec(m, s).instance.value) else ListInstances, d, a)
    ensures d == c
    ensures var l := LookupResult(o, m, s, a);
            && (l.Nothing? || (l.Found? && Gone(l.row.inst.status)) ==> NoneLive(c, o, s))
            && (l.Found? ==> Pinned(c, o, s, Some(l.row.id)))
            && (l.Found? && Rec(m, s).instance.Some? ==> l.row.id == Rec(m, s).instance.value)
  {
    if Rec(m, s).instance.None? && a.Instances? {
      TagLookupExact(c, a.rows, TagKeyOf(o, s), TagValue(o));
      var f := FindByTag(a.rows, TagKeyOf(o, s), TagValue(o));
      assert f.Some? && !Gone(f.value.inst.status) ==> LiveFor(c, o, s, f.value.id);
    }
  }

  // One answer to the next call: the steps that learn nothing.

  ghost predicate Safe(c: Cloud, o: Owner, x: OwnerState, r: Run) {
    OnPath(o, x, r) && forall s :: HasSlot(o, s) ==> Learned(c, o, r, s)
  }

  /** The part of the memory that ownership is about. */
  predicate SameCore(m: Object, n: Object) {
    && n.deleting == m.deleting && n.finalizer == m.finalizer
    && n.primary.instance == m.primary.instance && n.service.instance == m.service.instance
  }

  /** `q` stays in the slot and phase of `r`, or stops, or leaves the phase without a new lookup. */
  predicate Follows(r: Run, q: Run) {
    && SameCore(r.mem, q.mem)
    && (q.pc.Finished?
        || (SlotOf(q.pc) == SlotOf(r.pc) && (PhaseOf(q.pc) == PhaseOf(r.pc) || PhaseOf(q.pc).Neither?)
            && !q.pc.AtLookup?))
  }

  lemma FollowsSafe(c: Cloud, d: Cloud, o: Owner, x: OwnerState, r: Run, q: Run)
    requires Safe(c, o, x, r) && Follows(r, q)
    requires forall s :: HasSlot(o, s) ==> Shrinks(c, d, o, s)
    ensures Safe(d, o, x, q)
  {
    forall s | HasSlot(o, s) ensures Learned(d, o, q, s) {
      assert Learned(c, o, r, s) && Shrinks(c, d, o, s);
    }
  }

  /** The recorded instance is forgotten and the run stops. */
  predicate Clears(r: Run, q: Run) {
    q.pc.Finished? && q.mem.primary.instance.None? && SameCore(r.mem.(primary := q.mem.primary), q.mem)
  }

  /** The memory with which a cleaning step leaves its slot. */
  function DoneMemory(r: Run): Object {
    match r.pc
    case AtScriptForget(s) => SetRec(r.mem, s, Rec(r.mem, s).(script := None))
    case AtOsGet => r.mem.(osVolume := None)
    case AtOsCheck => r.mem.(osVolume := None)
    case AtOsDelete => r.mem.(osVolume := None)
    case _ => r.mem
  }

  predicate SlotDone(o: Owner, r: Run, q: Run) {
    && PhaseOf(r.pc).Cleaning? && SlotOf(r.pc).Some?
    && (q == AfterScripts(o, DoneMemory(r), SlotOf(r.pc).value)
        || (SlotOf(r.pc) == Some(Primary) && q == Release(DoneMemory(r))))
  }

  predicate Moves(o: Owner, r: Run, q: Run) {
    Follows(r, q) || Clears(r, q) || SlotDone(o, r, q)
  }

  lemma AfterDeleteMoves(o: Owner, r: Run, why: DeleteWhy)
    ensures var q := AfterDelete(o, r.mem, why); Follows(r, q) || Clears(r, q)
  {
  }

  lemma StartScriptsMoves(o: Owner, r: Run, s: Slot)
    requires SlotOf(r.pc) == Some(s) && PhaseOf(r.pc).Cleaning? && DoneMemory(r) == r.mem
    ensures var q := StartScripts(o, r.mem, s); Follows(r, q) || SlotDone(o, r, q)
  {
  }

  lemma AfterPurgeMoves(o: Owner, r: Run, s: Slot, pending: nat, why: PurgeWhy)
    requires SlotOf(r.pc) == Some(s) && PhaseOf(r.pc) == PurgePhase(why) && DoneMemory(r) == r.mem
    ensures Moves(o, r, AfterPurge(o, r.mem, s, pending, why))
  {
    if why.InDelete? {
      AfterDeleteMoves(o, r, why.why);
    } else {
      StartScriptsMoves(o, r, s);
    }
  }

  lemma SettleMoves(o: Owner, r: Run, m: Object, row: InstanceRow)
    requires SameCore(r.mem, m) && SlotOf(r.pc) == Some(Primary)
    ensures Follows(r, Settle(m, row))
  {
  }

  lemma VolumeMoves(o: Owner, m: Object, pc: Pc, a: Response)
    requires PartOf(pc).VolumeWork?
    ensures Follows(Run(m, pc), HandleVolume(o, m, pc, a))
  {
    if pc.AtOsTagGet? || pc.AtOsTagSet? {
      TagMoves(o, m, pc, a);
    } else if pc.AtVolumeLookup? {
      VolumeLookupMoves(o, m, pc, a);
    } else {
      CloneMoves(o, m, pc, a);
    }
  }

  lemma TagMoves(o: Owner, m: Object, pc: Pc, a: Response)
    requires pc.AtOsTagGet? || pc.AtOsTagSet?
    ensures Follows(Run(m, pc), HandleVolume(o, m, pc, a))
  {
    var r := Run(m, pc);
    if pc.AtOsTagSet? {
      SettleMoves(o, r, if a.Done? then m.(osVolumeReady := true) else m, pc.found);
    } else if !a.OneVolume? {
      SettleMoves(o, r, m, pc.found);
    } else if a.vol.vol.managed {
      SettleMoves(o, r, m.(osVolumeReady := true), pc.found);
    }
  }

  lemma VolumeKnownMoves(m: Object, row: VolumeRow)
    ensures Follows(Run(m, AtVolumeLookup), VolumeKnown(m, row))
  {
  }

  lemma VolumeLookupMoves(o: Owner, m: Object, pc: Pc, a: Response)
    requires pc.AtVolumeLookup?
    ensures Follows(Run(m, pc), HandleVolume(o, m, pc, a))
  {
    if m.osVolume.Some? {
      if a.OneVolume? {
        VolumeKnownMoves(m, a.vol);
      }
    } else if a.Volumes? && VolumeNamed(a.vols, CloneName(o)).Some? {
      VolumeKnownMoves(m, VolumeNamed(a.vols, CloneName(o)).value);
    }
  }

  lemma CloneMoves(o: Owner, m: Object, pc: Pc, a: Response)
    requires PartOf(pc).VolumeWork? && !pc.AtOsTagGet? && !pc.AtOsTagSet? && !pc.AtVolumeLookup?
    ensures Follows(Run(m, pc), HandleVolume(o, m, pc, a))
  {
  }

  lemma CreationMoves(o: Owner, m: Object, pc: Pc, a: Response)
    requires PartOf(pc).Creation? && !pc.AtCreate?
    ensures Follows(Run(m, pc), HandleCreation(o, m, pc, a))
  {
  }

  lemma ScriptMoves(o: Owner, m: Object, pc: Pc, a: Response)
    requires PartOf(pc).ScriptWork?
    ensures var q := HandleScripts(o, m, pc, a); Follows(Run(m, pc), q) || SlotDone(o, Run(m, pc), q)
  {
  }

  lemma DeleteSwitchMoves(o: Owner, r: Run, s: Slot, row: InstanceRow, why: DeleteWhy)
    requires SlotOf(r.pc) == Some(s)
    ensures var q := DeleteSwitch(o, r.mem, s, row, why); Follows(r, q) || Clears(r, q)
  {
    if row.inst.managed && row.inst.status.Deleting? {
      AfterDeleteMoves(o, r, why);
    }
  }

  lemma DeletionMoves(o: Owner, m: Object, pc: Pc, a: Response)
    requires PartOf(pc).Deletion?
    ensures var q := HandleDeletion(o, m, pc, a); Follows(Run(m, pc), q) || Clears(Run(m, pc), q)
  {
    if pc.AtDueCheck? {
      DueCheckMoves(o, m, pc, a);
    } else {
      AfterDeleteMoves(o, Run(m, pc), pc.dwhy);
      if pc.AtDeleteGet? && a.OneInstance? {
        DeleteSwitchMoves(o, Run(m, pc), pc.s, a.row, pc.dwhy);
      }
    }
  }

  lemma DueCheckMoves(o: Owner, m: Object, pc: Pc, a: Response)
    requires pc.AtDueCheck?
    ensures Follows(Run(m, pc), HandleDeletion(o, m, pc, a))
  {
    var seen := pc.found.inst.status;
    assert Follows(Run(m, pc), StopWaiting(o, m, seen));
    if a.Time? {
      assert Follows(Run(m, pc),
                     Run(NoteRequest(m, pc.s, seen, a.now), AtDeleteGet(pc.s, pc.found.id, TeardownAsk(seen))));
    }
  }

  lemma PurgeMoves(o: Owner, m: Object, pc: Pc, a: Response)
    requires PartOf(pc).Purging?
    ensures Moves(o, Run(m, pc), HandlePurge(o, m, pc, a))
  {
    if pc.AtPurge? {
      PurgeOneMoves(o, m, pc, a);
    } else {
      AfterPurgeMoves(o, Run(m, pc), pc.s, 0, pc.pwhy);
    }
  }

  lemma PurgeOneMoves(o: Owner, m: Object, pc: Pc, a: Response)
    requires pc.AtPurge?
    ensures Moves(o, Run(m, pc), HandlePurge(o, m, pc, a))
  {
    AfterPurgeMoves(o, Run(m, pc), pc.s, pc.pending, pc.pwhy);
    AfterPurgeMoves(o, Run(m, pc), pc.s, pc.pending + 1, pc.pwhy);
  }

  lemma CloneRemovalMoves(o: Owner, m: Object, pc: Pc, a: Response)
    requires PartOf(pc).CloneRemoval?
    ensures var q := HandleCloneRemoval(o, m, pc, a); Follows(Run(m, pc), q) || SlotDone(o, Run(m, pc), q)
  {
  }

  lemma StepMoves(o: Owner, r: Run, a: Response)
    requires !r.pc.Finished? && !r.pc.AtLookup? && !r.pc.AtCreate?
    ensures Moves(o, r, Handle(o, r, a))
  {
    match PartOf(r.pc)
    case VolumeWork => VolumeMoves(o, r.mem, r.pc, a);
    case Creation => CreationMoves(o, r.mem, r.pc, a);
    case ScriptWork => ScriptMoves(o, r.mem, r.pc, a);
    case Deletion => DeletionMoves(o, r.mem, r.pc, a);
    case Purging => PurgeMoves(o, r.mem, r.pc, a);
    case CloneRemoval => CloneRemovalMoves(o, r.mem, r.pc, a);
  }

  // The steps that finish a slot.

  ghost predicate Base(c: Cloud, o: Owner, x: OwnerState, m: Object) {
    && (!m.deleting ==> x.stored.Some? && x.stored.value.finalizer && m.finalizer)
    && forall s :: HasSlot(o, s) ==> Pinned(c, o, s, Rec(m, s).instance) && (!m.finalizer ==> NoneLive(c, o, s))
  }

  lemma SafeBase(c: Cloud, d: Cloud, o: Owner, x: OwnerState, r: Run, m: Object)
    requires Safe(c, o, x, r) && SameCore(r.mem, m)
    requires forall s :: HasSlot(o, s) ==> Shrinks(c, d, o, s)
    ensures Base(d, o, x, m)
  {
    forall s | HasSlot(o, s) ensures Pinned(d, o, s, Rec(m, s).instance) && (!m.finalizer ==> NoneLive(d, o, s)) {
      assert Learned(c, o, r, s) && Shrinks(c, d, o, s);
    }
  }

  lemma ReleaseSafe(c: Cloud, o: Owner, x: OwnerState, m: Object)
    requires Base(c, o, x, m) && m.deleting
    requires forall s :: HasSlot(o, s) ==> NoneLive(c, o, s)
    ensures Safe(c, o, x, Release(m))
  {
  }

  lemma AfterScriptsSafe(c: Cloud, o: Owner, x: OwnerState, m: Object, s: Slot)
    requires Base(c, o, x, m) && HasSlot(o, s) && NoneLive(c, o, s)
    requires s.Primary? ==> m.deleting
    requires s.Primary? && o.Cluster? ==> NoneLive(c, o, Service)
    ensures Safe(c, o, x, AfterScripts(o, m, s))
  {
    if s.Primary? {
      assert forall t :: HasSlot(o, t) ==> NoneLive(c, o, t);
      ReleaseSafe(c, o, x, m);
    }
  }

  lemma SlotEmpty(c: Cloud, d: Cloud, o: Owner, x: OwnerState, r: Run, t: Slot)
    requires Safe(c, o, x, r) && PhaseOf(r.pc).Cleaning? && !r.pc.Finished?
    requires HasSlot(o, t) && Shrinks(c, d, o, t)
    requires SlotOf(r.pc) == Some(t) || SlotOf(r.pc) == Some(Primary)
    ensures NoneLive(d, o, t)
  {
    assert Learned(c, o, r, t);
  }

  lemma DoneMemorySame(r: Run)
    ensures SameCore(r.mem, DoneMemory(r))
  {
  }

  lemma SlotLeft(c: Cloud, d: Cloud, o: Owner, x: OwnerState, r: Run, m: Object, s: Slot)
    requires Safe(c, o, x, r) && PhaseOf(r.pc).Cleaning? && SlotOf(r.pc) == Some(s) && SameCore(r.mem, m)
    requires forall s :: HasSlot(o, s) ==> Shrinks(c, d, o, s)
    ensures Safe(d, o, x, AfterScripts(o, m, s))
    ensures s.Primary? ==> Safe(d, o, x, Release(m))
  {
    SafeBase(c, d, o, x, r, m);
    SlotEmpty(c, d, o, x, r, s);
    if s.Primary? && o.Cluster? {
      SlotEmpty(c, d, o, x, r, Service);
    }
    AfterScriptsSafe(d, o, x, m, s);
    if s.Primary? {
      ReleaseSafe(d, o, x, m);
    }
  }

  lemma MovesSafe(c: Cloud, d: Cloud, o: Owner, x: OwnerState, r: Run, q: Run)
    requires Safe(c, o, x, r) && Moves(o, r, q)
    requires forall s :: HasSlot(o, s) ==> Shrinks(c, d, o, s)
    ensures Safe(d, o, x, q)
  {
    if Follows(r, q) {
      FollowsSafe(c, d, o, x, r, q);
    } else if SlotDone(o, r, q) {
      DoneMemorySame(r);
      SlotLeft(c, d, o, x, r, DoneMemory(r), SlotOf(r.pc).value);
    } else {
      FollowsSafe(c, d, o, x, r, Stop(r.mem));
    }
  }

  // The steps that record an instance.

  lemma StartServiceSafe(c: Cloud, o: Owner, x: OwnerState, m: Object)
    requires Base(c, o, x, m) && !m.deleting && o.Cluster?
    requires m.service.instance == x.stored.value.service.instance
    ensures Safe(c, o, x, StartService(m))
  {
  }

  lemma AfterFoundSafe(c: Cloud, o: Owner, x: OwnerState, m: Object, s: Slot, row: InstanceRow)
    requires Base(c, o, x, m) && !m.deleting && HasSlot(o, s)
    requires Pinned(c, o, s, Some(row.id))
    requires s.Primary? && o.Cluster? ==> m.service.instance == x.stored.value.service.instance
    ensures Safe(c, o, x, AfterFound(o, m, s, row))
  {
    var n := Note(m, s, row);
    assert Base(c, o, x, n);
    if o.Cluster? && s.Primary? {
      StartServiceSafe(c, o, x, NoteAddress(n, s, row));
    }
  }

  ghost predicate LookupSound(c: Cloud, o: Owner, s: Slot, l: Lookup) {
    && (l.Nothing? || (l.Found? && Gone(l.row.inst.status)) ==> NoneLive(c, o, s))
    && (l.Found? ==> Pinned(c, o, s, Some(l.row.id)))
  }

  lemma EnsureSafe(c: Cloud, o: Owner, x: OwnerState, m: Object, s: Slot, l: Lookup)
    requires Safe(c, o, x, Run(m, AtLookup(s, Ensure))) && LookupSound(c, o, s, l)
    requires l.Nothing? ==> Rec(m, s).instance.None?
    ensures Safe(c, o, x, AfterLookup(o, m, s, Ensure, l))
  {
    SafeBase(c, c, o, x, Run(m, AtLookup(s, Ensure)), m);
    if l.Found? {
      AfterFoundSafe(c, o, x, m, s, l.row);
    }
  }

  lemma TeardownSafe(c: Cloud, o: Owner, x: OwnerState, m: Object, s: Slot, l: Lookup)
    requires Safe(c, o, x, Run(m, AtLookup(s, Teardown))) && LookupSound(c, o, s, l)
    ensures Safe(c, o, x, AfterLookup(o, m, s, Teardown, l))
  {
    if l.Nothing? || (l.Found? && Gone(l.row.inst.status)) {
      SafeBase(c, c, o, x, Run(m, AtLookup(s, Teardown)), m);
      TeardownGoneSafe(c, o, x, m, s, l);
    } else {
      TeardownLiveSafe(c, o, x, m, s, l);
    }
  }

  lemma TeardownLiveSafe(c: Cloud, o: Owner, x: OwnerState, m: Object, s: Slot, l: Lookup)
    requires Safe(c, o, x, Run(m, AtLookup(s, Teardown)))
    requires l.LookupFailed? || (l.Found? && !Gone(l.row.inst.status))
    ensures Safe(c, o, x, AfterLookup(o, m, s, Teardown, l))
  {
    var r, q := Run(m, AtLookup(s, Teardown)), AfterLookup(o, m, s, Teardown, l);
    assert Follows(r, q);
    FollowsSafe(c, c, o, x, r, q);
  }

  lemma TeardownGoneSafe(c: Cloud, o: Owner, x: OwnerState, m: Object, s: Slot, l: Lookup)
    requires Safe(c, o, x, Run(m, AtLookup(s, Teardown))) && LookupSound(c, o, s, l) && Base(c, o, x, m)
    requires l.Nothing? || (l.Found? && Gone(l.row.inst.status))
    ensures Safe(c, o, x, AfterLookup(o, m, s, Teardown, l))
  {
    if s.Primary? && o.Cluster? {
      assert Learned(c, o, Run(m, AtLookup(s, Teardown)), Service);
    }
    CleaningSafe(c, o, x, m, s, l);
  }

  lemma CleaningSafe(c: Cloud, o: Owner, x: OwnerState, m: Object, s: Slot, l: Lookup)
    requires OnPath(o, x, Run(m, AtLookup(s, Teardown))) && Base(c, o, x, m) && NoneLive(c, o, s)
    requires s.Primary? && o.Cluster? ==> NoneLive(c, o, Service)
    requires l.Nothing? || (l.Found? && Gone(l.row.inst.status))
    ensures Safe(c, o, x, AfterLookup(o, m, s, Teardown, l))
  {
    AfterScriptsSafe(c, o, x, m, s);
  }

  lemma LookupSafe(c: Cloud, d: Cloud, o: Owner, x: OwnerState, a: Response)
    requires Inv(c, o, x) && x.run.Some? && x.run.value.pc.AtLookup?
    requires Answers(c, NextCall(o, x.run.value), d, a)
    ensures d == c && Safe(d, o, x, Handle(o, x.run.value, a))
  {
    var r := x.run.value;
    var m, s, l := r.mem, r.pc.s, LookupResult(o, r.mem, r.pc.s, a);
    assert SlotInv(c, o, x, s);
    LookupLearns(o, c, m, s, d, a);
    match r.pc.goal
    case Ensure => EnsureSafe(c, o, x, m, s, l);
    case Teardown => TeardownSafe(c, o, x, m, s, l);
    case Resync => FollowsSafe(c, c, o, x, r, Handle(o, r, a));
  }

  // Creation.

  lemma CreationLive(c: Cloud, d: Cloud, o: Owner, s: Slot, boot: Boot, script: Id, a: Response)
    requires WellFormed(c) && NoneLive(c, o, s)
    requires Answers(c, CreateInstance(Hostname(o, s), TagKeyOf(o, s), TagValue(o), boot, script), d, a)
    ensures forall id :: LiveFor(d, o, s, id) ==> id == c.next
    ensures a.OneInstance? ==> a.row.id == c.next < d.next
    ensures c.next <= d.next
  {
    forall id | LiveFor(d, o, s, id) ensures id == c.next {
      assert !LiveFor(c, o, s, id);
    }
  }

  lemma CreatedSafe(d: Cloud, o: Owner, x: OwnerState, r: Run, a: Response)
    requires r.pc.AtCreate? && OnPath(o, x, r) && Base(d, o, x, r.mem)
    requires a.OneInstance? ==> Pinned(d, o, r.pc.s, Some(a.row.id))
    ensures Safe(d, o, x, HandleCreation(o, r.mem, r.pc, a))
  {
    if a.OneInstance? {
      var row := a.row;
      AfterFoundSafe(d, o, x, r.mem, r.pc.s,
                     WithScript(row, r.pc.script));
    }
  }

  lemma CreateSafe(c: Cloud, d: Cloud, o: Owner, x: OwnerState, a: Response)
    requires Inv(c, o, x) && x.run.Some? && x.run.value.pc.AtCreate?
    requires Answers(c, NextCall(o, x.run.value), d, a)
    ensures forall t :: HasSlot(o, t) ==> AtMostOneLive(d, o, t) && Pinned(d, o, t, Rec(x.stored.value, t).instance)
    ensures Safe(d, o, x, Handle(o, x.run.value, a))
  {
    var r := x.run.value;
    var m, s := r.mem, r.pc.s;
    assert SlotInv(c, o, x, s);
    CreationLive(c, d, o, s, r.pc.boot, r.pc.script, a);
    forall t | HasSlot(o, t)
      ensures AtMostOneLive(d, o, t) && Pinned(d, o, t, Rec(x.stored.value, t).instance)
      ensures Pinned(d, o, t, Rec(m, t).instance)
    {
      assert SlotInv(c, o, x, t);
      if t != s {
        CallShrinks(o, c, NextCall(o, r), d, a, t);
      }
    }
    assert Base(d, o, x, m);
    CreatedSafe(d, o, x, r, a);
  }

  // Every step.

  lemma OnlyCreateCreates(o: Owner, r: Run)
    requires !r.pc.Finished?
    ensures NextCall(o, r).CreateInstance? <==> r.pc.AtCreate?
    ensures NextCall(o, r).AddScript? <==> r.pc.AtScriptAdd?
  {
  }

  lemma QuietShrinks(o: Owner, c: Cloud, r: Run, a: Response, d: Cloud)
    requires WellFormed(c) && !r.pc.Finished? && !r.pc.AtCreate?
    requires Answers(c, NextCall(o, r), d, a)
    ensures WellFormed(d)
    ensures forall s :: HasSlot(o, s) ==> Shrinks(c, d, o, s)
  {
    OnlyCreateCreates(o, r);
    AnswersEvolve(c, NextCall(o, r), d, a);
    forall s | HasSlot(o, s) ensures Shrinks(c, d, o, s) {
      CallShrinks(o, c, NextCall(o, r), d, a, s);
    }
  }

  /** Fewer live instances and a safe run: the invariant holds. */
  lemma SafeInv(o: Owner, c: Cloud, x: OwnerState, d: Cloud, q: Run)
    requires Inv(c, o, x) && WellFormed(d) && Safe(d, o, x, q)
    requires forall s :: HasSlot(o, s) ==> Shrinks(c, d, o, s)
    ensures Inv(d, o, x.(run := Some(q)))
  {
    forall s | HasSlot(o, s) ensures SlotInv(d, o, x.(run := Some(q)), s) {
      assert SlotInv(c, o, x, s) && Shrinks(c, d, o, s) && Learned(d, o, q, s);
    }
  }

  lemma ApiKeepsInv(o: Owner, c: Cloud, x: OwnerState, a: Response, d: Cloud)
    requires Inv(c, o, x) && x.run.Some? && !x.run.value.pc.Finished?
    requires Answers(c, NextCall(o, x.run.value), d, a)
    ensures Inv(d, o, x.(run := Some(Handle(o, x.run.value, a))))
  {
    if x.run.value.pc.AtCreate? {
      AnswersEvolve(c, NextCall(o, x.run.value), d, a);
      CreateSafe(c, d, o, x, a);
    } else {
      QuietKeepsInv(o, c, x, a, d);
    }
  }

  lemma QuietKeepsInv(o: Owner, c: Cloud, x: OwnerState, a: Response, d: Cloud)
    requires Inv(c, o, x) && x.run.Some? && !x.run.value.pc.Finished? && !x.run.value.pc.AtCreate?
    requires Answers(c, NextCall(o, x.run.value), d, a)
    ensures Inv(d, o, x.(run := Some(Handle(o, x.run.value, a))))
  {
    var r := x.run.value;
    QuietShrinks(o, c, r, a, d);
    if r.pc.AtLookup? {
      LookupSafe(c, d, o, x, a);
    } else {
      StepMoves(o, r, a);
      SafeRun(c, o, x);
      MovesSafe(c, d, o, x, r, Handle(o, r, a));
    }
    SafeInv(o, c, x, d, Handle(o, r, a));
  }

  lemma SafeRun(c: Cloud, o: Owner, x: OwnerState)
    requires Inv(c, o, x) && x.run.Some?
    ensures Safe(c, o, x, x.run.value)
  {
    forall s | HasSlot(o, s) ensures Learned(c, o, x.run.value, s) {
      assert SlotInv(c, o, x, s);
    }
  }

  lemma LoadKeepsInv(o: Owner, c: Cloud, x: OwnerState)
    requires Inv(c, o, x) && x.run.None? && x.stored.Some? && (x.stored.value.deleting || x.stored.value.finalizer)
    ensures Inv(c, o, x.(run := Some(Start(o, x.stored.value))))
  {
    var m := x.stored.value;
    forall s | HasSlot(o, s) ensures Pinned(c, o, s, Rec(m, s).instance) && (!m.finalizer ==> NoneLive(c, o, s)) {
      assert SlotInv(c, o, x, s);
    }
    if !m.deleting && o.Cluster? {
      StartServiceSafe(c, o, x, m);
    }
  }

  lemma PatchKeepsInv(o: Owner, c: Cloud, x: OwnerState, meta: bool, status: bool, conds: bool)
    requires Inv(c, o, x) && x.run.Some? && x.run.value.pc.Finished? && x.stored.Some?
    ensures Inv(c, o, OwnerState(Some(Patched(x.stored.value, x.run.value.mem, meta, status, conds)), None))
  {
    forall s | HasSlot(o, s)
      ensures SlotInv(c, o, OwnerState(Some(Patched(x.stored.value, x.run.value.mem, meta, status, conds)), None), s)
    {
      assert SlotInv(c, o, x, s);
    }
  }

  lemma StepKeepsInv(o: Owner, c: Cloud, x: OwnerState, e: Event, d: Cloud, y: OwnerState)
    requires Inv(c, o, x) && Step(o, c, x, e, d, y)
    ensures Inv(d, o, y)
  {
    match e
    case Api(a) => ApiKeepsInv(o, c, x, a, d);
    case Load => LoadKeepsInv(o, c, x);
    case Patch(meta, status, conds) => if x.stored.Some? { PatchKeepsInv(o, c, x, meta, status, conds); }
    case GiveUp(_) => FollowsSafe(c, d, o, x, x.run.value, y.run.value);
    case _ =>
      forall s | HasSlot(o, s) ensures SlotInv(d, o, y, s) {
        assert SlotInv(c, o, x, s);
      }
  }

  lemma NewOnesAreForeign(o: Owner, p: Owner, s: Slot, c: Cloud, call: Call, d: Cloud, a: Response)
    requires HasSlot(o, s) && Apart(o, p) && Answers(c, call, d, a)
    requires call.CreateInstance? ==> call.key == TagKeyOf(o, s) && call.value == TagValue(o)
    requires call.AddScript? ==> call.name == Hostname(o, s)
    ensures forall id :: id in d.instances && id !in c.instances ==> !CarriesTagOf(p, d.instances[id])
    ensures forall id :: id in d.scripts && id !in c.scripts ==> !HostnameOf(p, d.scripts[id])
  {
    forall id | id in d.instances && id !in c.instances ensures !CarriesTagOf(p, d.instances[id]) {
      assert d.instances[id].tags == map[TagKeyOf(o, s) := TagValue(o)];
    }
    forall id | id in d.scripts && id !in c.scripts ensures !HostnameOf(p, d.scripts[id]) {
      assert d.scripts[id] == Hostname(o, s);
    }
  }

  lemma CallIsForeign(o: Owner, p: Owner, c: Cloud, r: Run, a: Response, d: Cloud)
    requires WellFormed(c) && !r.pc.Finished? && HasSlot(o, SlotOf(r.pc).value) && Apart(o, p)
    requires Answers(c, NextCall(o, r), d, a)
    ensures Rely(p, c, d)
  {
    var call, s := NextCall(o, r), SlotOf(r.pc).value;
    OnlyCreateCreates(o, r);
    AnswersEvolve(c, call, d, a);
    NewOnesAreForeign(o, p, s, c, call, d, a);
  }

  /** One owner's step is a foreign step for every other owner. */
  lemma StepIsForeign(o: Owner, p: Owner, c: Cloud, x: OwnerState, e: Event, d: Cloud, y: OwnerState)
    requires Inv(c, o, x) && Step(o, c, x, e, d, y) && Apart(o, p)
    ensures Rely(p, c, d)
  {
    if e.Api? {
      CallIsForeign(o, p, c, x.run.value, e.answer, d);
    }
  }
}
