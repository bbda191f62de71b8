/**
 The retry for lack of capacity clears the instance ID and leaves the instance to the cloud. Until the
 cloud has removed it, every lookup by tag finds it again; afterwards the lookup finds nothing.
 */
module Retry {
  import opened Prelude
  import opened Owners
  import opened CloudApi
  import opened Client
  import opened Reconcile
  import opened Ownership
  import opened Targets
  import opened Fleet

  /** The instance carries the tag of the owner, and no other live one does. */
  ghost predicate OnlyOne(c: Cloud, o: Owner, id: Id) {
    WellFormed(c) && OwnTag(c, o, Primary, id) && forall a :: LiveFor(c, o, Primary, a) ==> a == id
  }

  lemma OnlyOneEvolves(c: Cloud, d: Cloud, o: Owner, id: Id)
    requires OnlyOne(c, o, id) && Evolves(c, d) && Shrinks(c, d, o, Primary)
    ensures OnlyOne(d, o, id)
  {
    OwnTagEvolves(c, d, o, Primary, id);
  }

  lemma OwnCallKeepsOne(o: Owner, c: Cloud, r: Run, a: Response, d: Cloud, id: Id)
    requires OnlyOne(c, o, id) && !r.pc.Finished? && !r.pc.AtCreate? && Answers(c, NextCall(o, r), d, a)
    ensures OnlyOne(d, o, id)
  {
    assert HasSlot(o, Primary);
    QuietShrinks(o, c, r, a, d);
    AnswersEvolve(c, NextCall(o, r), d, a);
    OnlyOneEvolves(c, d, o, id);
  }

  lemma OthersKeepOne(o: Owner, c: Cloud, d: Cloud, id: Id)
    requires OnlyOne(c, o, id) && Rely(o, c, d)
    ensures OnlyOne(d, o, id)
  {
    RelyShrinks(o, c, d, Primary);
    OnlyOneEvolves(c, d, o, id);
  }

  /** The owner makes the call that creates an instance. */
  predicate Creates(z: System, act: Action, o: Owner) {
    && act.Act? && act.owner == o && act.event.Api?
    && o in z.owners && z.owners[o].run.Some? && z.owners[o].run.value.pc.AtCreate?
  }

  lemma NextKeepsOne(a: System, act: Action, b: System, o: Owner, id: Id)
    requires SystemInv(a) && Next(a, act, b) && o in a.owners && OnlyOne(a.cloud, o, id)
    requires !Creates(a, act, o)
    ensures OnlyOne(b.cloud, o, id)
  {
    if act.World? {
      OthersKeepOne(o, a.cloud, b.cloud, id);
    } else if act.owner != o {
      assert Apart(act.owner, o) && OwnerInv(a.cloud, act.owner, a.owners[act.owner]);
      StepIsForeign(act.owner, o, a.cloud, a.owners[act.owner], act.event, b.cloud, b.owners[act.owner]);
      OthersKeepOne(o, a.cloud, b.cloud, id);
    } else if act.event.Api? {
      OwnCallKeepsOne(o, a.cloud, a.owners[o].run.value, act.event.answer, b.cloud, id);
    }
  }

  /** Between i and j the owner makes no call that creates an instance. */
  ghost predicate CreatesNone(states: seq<System>, acts: seq<Action>, o: Owner, i: nat, j: nat)
    requires |states| == |acts| + 1 && j < |states|
  {
    forall k {:trigger Creates(states[k], acts[k], o)} :: i <= k < j ==> !Creates(states[k], acts[k], o)
  }

  lemma OneStepOn(states: seq<System>, acts: seq<Action>, o: Owner, id: Id, j: nat)
    requires Execution(states, acts) && j < |acts| && o in states[j].owners && OnlyOne(states[j].cloud, o, id)
    requires !Creates(states[j], acts[j], o)
    ensures o in states[j + 1].owners && OnlyOne(states[j + 1].cloud, o, id)
  {
    ExecutionInv(states, acts, j);
    assert Next(states[j], acts[j], states[j + 1]);
    NextKeepsOne(states[j], acts[j], states[j + 1], o, id);
  }

  lemma {:induction false} OneAllAlong(states: seq<System>, acts: seq<Action>, o: Owner, id: Id, i: nat, j: nat)
    requires Execution(states, acts) && i <= j < |states| && o in states[i].owners && OnlyOne(states[i].cloud, o, id)
    requires CreatesNone(states, acts, o, i, j)
    ensures o in states[j].owners && OnlyOne(states[j].cloud, o, id)
    decreases j
  {
    if i < j {
      OneAllAlong(states, acts, o, id, i, j - 1);
      assert !Creates(states[j - 1], acts[j - 1], o);
      OneStepOn(states, acts, o, id, j - 1);
    }
  }

  /** A run with a recorded instance: it carries the tag, and no other live one does. */
  lemma RecordedIsOne(states: seq<System>, acts: seq<Action>, i: nat, o: Owner, id: Id)
    requires Execution(states, acts) && i < |states| && o in states[i].owners && states[i].owners[o].run.Some?
    requires states[i].owners[o].run.value.mem.primary.instance == Some(id)
    ensures OnlyOne(states[i].cloud, o, id)
  {
    var c, x := states[i].cloud, states[i].owners[o];
    ExecutionInv(states, acts, i);
    assert OwnerInv(c, o, x) && HasSlot(o, Primary);
    assert SlotInv(c, o, x, Primary) && SlotTargets(c, o, x.run.value, Primary);
  }

  lemma RecordedCreatesNot(states: seq<System>, acts: seq<Action>, i: nat, o: Owner, id: Id)
    requires Execution(states, acts) && i < |states| && o.Machine? && o in states[i].owners
    requires states[i].owners[o].run.Some?
    requires states[i].owners[o].run.value.mem.primary.instance == Some(id)
    ensures !states[i].owners[o].run.value.pc.AtCreate?
  {
    ExecutionInv(states, acts, i);
    assert OwnerInv(states[i].cloud, o, states[i].owners[o]);
  }

  lemma LookupExact(o: Owner, c: Cloud, m: Object, id: Id, a: Response, d: Cloud)
    requires o.Machine? && OnlyOne(c, o, id) && m.primary.instance.None?
    requires Answers(c, ListInstances, d, a) && !a.Failed?
    ensures LookupResult(o, m, Primary, a) ==
              if LiveFor(c, o, Primary, id) then Found(InstanceRow(id, c.instances[id])) else Nothing
  {
    TagLookupExact(c, a.rows, TagKeyOf(o, Primary), TagValue(o));
    var f := FindByTag(a.rows, TagKeyOf(o, Primary), TagValue(o));
    if f.Some? && !Gone(f.value.inst.status) {
      assert LiveFor(c, o, Primary, f.value.id);
    }
  }

  /** The part of a reconcile that deletes an instance for lack of capacity. */
  predicate Retrying(pc: Pc) {
    match pc
    case AtDeleteGet(_, _, why) => why.NoCapacityRetry?
    case AtShutdown(_, _, why) => why.NoCapacityRetry?
    case AtDelete(_, _, _, why) => why.NoCapacityRetry?
    case AtPurgeGet(_, _, why) => why.InDelete? && why.why.NoCapacityRetry?
    case AtPurgeTrash(_, _, _, why) => why.InDelete? && why.why.NoCapacityRetry?
    case AtPurge(_, _, _, _, _, _, why) => why.InDelete? && why.why.NoCapacityRetry?
    case _ => false
  }

  lemma SwitchKeepsId(o: Owner, m: Object, s: Slot, row: InstanceRow, why: DeleteWhy)
    requires why.TeardownAsk?
    ensures DeleteSwitch(o, m, s, row, why).mem.primary == m.primary && AfterDelete(o, m, why).mem.primary == m.primary
  {
  }

  lemma DeletionKeepsId(o: Owner, r: Run, a: Response)
    requires PartOf(r.pc).Deletion? && !Retrying(r.pc)
    ensures HandleDeletion(o, r.mem, r.pc, a).mem.primary == r.mem.primary
  {
    if !r.pc.AtDueCheck? {
      SwitchKeepsId(o, r.mem, r.pc.s, if a.OneInstance? then a.row else Stub(0), r.pc.dwhy);
    }
  }

  lemma ScriptsKeepId(o: Owner, m: Object, s: Slot)
    requires o.Machine?
    ensures StartScripts(o, m, s).mem.primary == m.primary && AfterScripts(o, m, s).mem.primary == m.primary
  {
  }

  lemma AfterPurgeKeepsId(o: Owner, m: Object, s: Slot, pending: nat, why: PurgeWhy)
    requires o.Machine? && (why.InDelete? ==> why.why.TeardownAsk?)
    ensures AfterPurge(o, m, s, pending, why).mem.primary == m.primary
  {
    if why.InDelete? {
      SwitchKeepsId(o, m, s, Stub(0), why.why);
    } else {
      ScriptsKeepId(o, m, s);
    }
  }

  lemma PurgeKeepsId(o: Owner, r: Run, a: Response)
    requires o.Machine? && PartOf(r.pc).Purging? && !Retrying(r.pc)
    ensures HandlePurge(o, r.mem, r.pc, a).mem.primary == r.mem.primary
  {
    AfterPurgeKeepsId(o, r.mem, r.pc.s, 0, r.pc.pwhy);
    if r.pc.AtPurge? {
      AfterPurgeKeepsId(o, r.mem, r.pc.s, r.pc.pending, r.pc.pwhy);
      AfterPurgeKeepsId(o, r.mem, r.pc.s, r.pc.pending + 1, r.pc.pwhy);
    }
  }

  lemma FoundRecords(o: Owner, m: Object, row: InstanceRow)
    requires o.Machine?
    ensures AfterFound(o, m, Primary, row).mem.primary.instance == Some(row.id)
  {
  }

  lemma LookupKeepsId(o: Owner, m: Object, goal: Goal, l: Lookup)
    requires o.Machine? && m.primary.instance.Some?
    ensures AfterLookup(o, m, Primary, goal, l).mem.primary.instance.Some?
  {
    match goal
    case Ensure => if l.Found? { FoundRecords(o, m, l.row); }
    case Resync =>
    case Teardown => ScriptsKeepId(o, m, Primary);
  }

  lemma CleanupKeepsId(o: Owner, r: Run, q: Run)
    requires o.Machine? && SlotOf(r.pc) == Some(Primary) && (Follows(r, q) || SlotDone(o, r, q))
    ensures q.mem.primary.instance == r.mem.primary.instance
  {
    if SlotDone(o, r, q) {
      ScriptsKeepId(o, DoneMemory(r), Primary);
    }
  }

  /** Nothing but the retry clears the ID of a machine's instance. */
  lemma OnlyRetryClears(o: Owner, r: Run, a: Response)
    requires o.Machine? && !r.pc.Finished? && SlotOf(r.pc) == Some(Primary) && r.mem.primary.instance.Some?
    requires !Retrying(r.pc) && !r.pc.AtCreate?
    ensures Handle(o, r, a).mem.primary.instance.Some?
  {
    match PartOf(r.pc)
    case LookingUp => LookupKeepsId(o, r.mem, r.pc.goal, LookupResult(o, r.mem, Primary, a));
    case VolumeWork => VolumeMoves(o, r.mem, r.pc, a);
    case Creation => CreationMoves(o, r.mem, r.pc, a);
    case ScriptWork =>
      ScriptMoves(o, r.mem, r.pc, a);
      CleanupKeepsId(o, r, Handle(o, r, a));
    case Deletion => DeletionKeepsId(o, r, a);
    case Purging => PurgeKeepsId(o, r, a);
    case CloneRemoval =>
      CloneRemovalMoves(o, r.mem, r.pc, a);
      CleanupKeepsId(o, r, Handle(o, r, a));
  }

  /**
   In every execution: after a step of a machine's reconcile that clears the recorded instance, and
   until the machine creates a new one, an error-free lookup by tag returns exactly the old instance
   while it is there and not gone, and nothing afterwards.
   */
  lemma RetryFindsOld(states: seq<System>, acts: seq<Action>, i: nat, j: nat, o: Owner, id: Id, a: Response, d: Cloud)
    requires Execution(states, acts) && i < j < |states| && o.Machine? && o in states[i].owners && o in states[j].owners
    requires states[i].owners[o].run.Some? && states[i].owners[o].run.value.mem.primary.instance == Some(id)
    requires o in states[i + 1].owners && states[i + 1].owners[o].run.Some?
    requires states[i + 1].owners[o].run.value.mem.primary.instance.None?
    requires CreatesNone(states, acts, o, i + 1, j)
    requires var x := states[j].owners[o];
             && x.run.Some? && x.run.value.pc.AtLookup? && x.run.value.pc.s.Primary?
             && x.run.value.mem.primary.instance.None?
             && Answers(states[j].cloud, NextCall(o, x.run.value), d, a) && !a.Failed?
    ensures var c := states[j].cloud;
            LookupResult(o, states[j].owners[o].run.value.mem, Primary, a) ==
              if id in c.instances && !Gone(c.instances[id].status)
              then Found(InstanceRow(id, c.instances[id])) else Nothing
  {
    RecordedIsOne(states, acts, i, o, id);
    RecordedCreatesNot(states, acts, i, o, id);
    OneAllAlong(states, acts, o, id, i, j);
    LookupExact(o, states[j].cloud, states[j].owners[o].run.value.mem, id, a, d);
  }
}
