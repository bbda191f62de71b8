/**
 What is left when the finalizer of a machine goes: the recorded clone is gone, being deleted or named
 otherwise; and no startup script of the hostname, if the status had no script ID or the current one.
 */
module Leftovers {
  import opened Prelude
  import opened Owners
  import opened CloudApi
  import opened Client
  import opened Reconcile
  import opened Protocol
  import opened Ownership
  import opened StartupScripts
  import opened Provisioning
  import opened SourceVolume
  import opened Fleet

  // Only the last part of a teardown gives the finalizer up.

  lemma StartScriptsKeeps(o: Owner, m: Object)
    requires o.Machine?
    ensures StartScripts(o, m, Primary).mem == m
    ensures StartScripts(o, m, Primary).pc == if m.primary.script.Some? then AtScriptForget(Primary)
                                              else AtScriptList(Primary, ForTeardown)
  {
  }

  lemma AfterDeleteKeeps(o: Owner, m: Object, why: DeleteWhy)
    ensures AfterDelete(o, m, why).mem.finalizer == m.finalizer
  {
  }

  lemma AfterPurgeKeeps(o: Owner, m: Object, pending: nat, why: PurgeWhy)
    requires o.Machine?
    ensures AfterPurge(o, m, Primary, pending, why).mem.finalizer == m.finalizer
  {
    StartScriptsKeeps(o, m);
    if why.InDelete? {
      AfterDeleteKeeps(o, m, why.why);
    }
  }

  lemma PurgeKeepsFinalizer(o: Owner, r: Run, a: Response)
    requires o.Machine? && PartOf(r.pc).Purging? && r.pc.s.Primary?
    ensures HandlePurge(o, r.mem, r.pc, a).mem.finalizer == r.mem.finalizer
  {
    AfterPurgeKeeps(o, r.mem, 0, r.pc.pwhy);
    if r.pc.AtPurge? {
      AfterPurgeKeeps(o, r.mem, r.pc.pending, r.pc.pwhy);
      AfterPurgeKeeps(o, r.mem, r.pc.pending + 1, r.pc.pwhy);
    }
  }

  lemma FoundKeepsFinalizer(o: Owner, m: Object, row: InstanceRow)
    requires o.Machine?
    ensures AfterFound(o, m, Primary, row).mem.finalizer == m.finalizer
  {
  }

  lemma LookupKeepsFinalizer(o: Owner, m: Object, goal: Goal, l: Lookup)
    requires o.Machine?
    ensures AfterLookup(o, m, Primary, goal, l).mem.finalizer == m.finalizer
  {
    match goal
    case Ensure => if l.Found? { FoundKeepsFinalizer(o, m, l.row); }
    case Resync =>
    case Teardown => StartScriptsKeeps(o, m);
  }

  lemma CreationKeepsFinalizer(o: Owner, r: Run, a: Response)
    requires o.Machine? && PartOf(r.pc).Creation? && r.pc.s.Primary?
    ensures HandleCreation(o, r.mem, r.pc, a).mem.finalizer == r.mem.finalizer
  {
    if r.pc.AtCreate? && a.OneInstance? {
      var row := a.row;
      FoundKeepsFinalizer(o, r.mem, WithScript(row, r.pc.script));
    }
  }

  lemma DeletionKeepsFinalizer(o: Owner, r: Run, a: Response)
    requires PartOf(r.pc).Deletion?
    ensures HandleDeletion(o, r.mem, r.pc, a).mem.finalizer == r.mem.finalizer
  {
    DeletionMoves(o, r.mem, r.pc, a);
  }

  lemma OnlyCleanupReleases(o: Owner, r: Run, a: Response)
    requires o.Machine? && !r.pc.Finished? && SlotOf(r.pc) == Some(Primary)
    requires !PartOf(r.pc).ScriptWork? && !PartOf(r.pc).CloneRemoval?
    ensures Handle(o, r, a).mem.finalizer == r.mem.finalizer
  {
    match PartOf(r.pc)
    case LookingUp => LookupKeepsFinalizer(o, r.mem, r.pc.goal, LookupResult(o, r.mem, Primary, a));
    case VolumeWork => VolumeMoves(o, r.mem, r.pc, a);
    case Creation => CreationKeepsFinalizer(o, r, a);
    case Deletion => DeletionKeepsFinalizer(o, r, a);
    case Purging => PurgeKeepsFinalizer(o, r, a);
  }

  lemma ScriptsRelease(o: Owner, r: Run, a: Response)
    requires o.Machine? && PartOf(r.pc).ScriptWork? && r.pc.s.Primary? && r.mem.finalizer && r.mem.osVolume.Some?
    ensures HandleScripts(o, r.mem, r.pc, a).mem.finalizer
  {
    match r.pc
    case AtScriptForget(_) => ForgetReleases(o, r, a);
    case AtScriptList(_, _) => ListReleases(o, r, a);
    case AtScriptDelete(_, _, _) => DeleteReleases(o, r, a);
  }

  lemma ListReleases(o: Owner, r: Run, a: Response)
    requires o.Machine? && r.pc.AtScriptList? && r.pc.s.Primary? && r.mem.finalizer && r.mem.osVolume.Some?
    ensures HandleScripts(o, r.mem, r.pc, a).mem.finalizer
  {
    if a.Scripts? {
      ScriptsNextRelease(o, r.mem, r.pc.swhy, ScriptsNamed(a.names, Hostname(o, Primary)));
    }
  }

  lemma DeleteReleases(o: Owner, r: Run, a: Response)
    requires o.Machine? && r.pc.AtScriptDelete? && r.pc.s.Primary? && r.mem.finalizer && r.mem.osVolume.Some?
    ensures HandleScripts(o, r.mem, r.pc, a).mem.finalizer
  {
    if r.pc.scripts != [] {
      ScriptsNextRelease(o, r.mem, r.pc.swhy, r.pc.scripts[1..]);
    }
  }

  lemma ForgetReleases(o: Owner, r: Run, a: Response)
    requires o.Machine? && r.pc == AtScriptForget(Primary) && r.mem.finalizer && r.mem.osVolume.Some?
    ensures HandleScripts(o, r.mem, r.pc, a).mem.finalizer
  {
  }

  lemma ScriptsNextRelease(o: Owner, m: Object, why: ScriptWhy, ids: seq<Id>)
    requires o.Machine? && m.finalizer && m.osVolume.Some?
    ensures ScriptsNext(o, m, Primary, why, ids).mem.finalizer
  {
  }

  /** There is no such volume any more, or the cloud is deleting it, or it is not the clone. */
  ghost predicate LetGo(c: Cloud, o: Owner, v: Id) {
    v in c.volumes ==>
      c.volumes[v].name != CloneName(o) || c.volumes[v].status.VolumeDeleting? || c.volumes[v].status.VolumeDeleted?
  }

  lemma CloneReleased(o: Owner, c: Cloud, r: Run, a: Response, d: Cloud, v: Id)
    requires PartOf(r.pc).CloneRemoval? && r.mem.osVolume == Some(v) && r.mem.finalizer
    requires Answers(c, NextCall(o, r), d, a) && !HandleCloneRemoval(o, r.mem, r.pc, a).mem.finalizer
    ensures LetGo(d, o, v)
  {
  }

  lemma GivenOut(states: seq<System>, acts: seq<Action>, i: nat, o: Owner, v: Id)
    requires Execution(states, acts) && i < |states| && o in states[i].owners && states[i].owners[o].run.Some?
    requires states[i].owners[o].run.value.mem.osVolume == Some(v)
    ensures v < states[i].cloud.next
  {
    var c, r := states[i].cloud, states[i].owners[o].run.value;
    NumbersAlways(states, acts, i, o);
    assert Strange(true, c, o, v) ==> RunAvoids(true, r, v);
  }

  /** The step is the call after which a machine that recorded the clone v gives its finalizer up. */
  predicate Releases(a: System, act: Action, b: System, o: Owner, v: Id) {
    && o.Machine? && act.Act? && act.owner == o && act.event.Api?
    && o in a.owners && a.owners[o].run.Some? && o in b.owners && b.owners[o].run.Some?
    && var m, n := a.owners[o].run.value.mem, b.owners[o].run.value.mem;
       m.finalizer && !n.finalizer && m.osVolume == Some(v)
  }

  lemma {:induction false} ReleaseLetsGo(states: seq<System>, acts: seq<Action>, i: nat, k: nat, o: Owner, v: Id)
    requires Execution(states, acts) && i < |acts| && k == i + 1 && Releases(states[i], acts[i], states[k], o, v)
    ensures o in states[k].owners && v < states[k].cloud.next && LetGo(states[k].cloud, o, v)
  {
    ExecutionStep(states, acts, i, k);
    GivenOut(states, acts, i, o, v);
    ReleaseStep(states[i], acts[i], states[k], o, v);
  }

  lemma ReleaseStep(a: System, act: Action, b: System, o: Owner, v: Id)
    requires SystemInv(a) && Next(a, act, b) && Releases(a, act, b, o, v) && v < a.cloud.next
    ensures LetGo(b.cloud, o, v) && v < b.cloud.next
  {
    var r, answer := a.owners[o].run.value, act.event.answer;
    assert OwnerInv(a.cloud, o, a.owners[o]);
    InstancesEvolve(a.cloud, NextCall(o, r), b.cloud, answer);
    if PartOf(r.pc).ScriptWork? {
      ScriptsRelease(o, r, answer);
    } else if PartOf(r.pc).CloneRemoval? {
      CloneReleased(o, a.cloud, r, answer, b.cloud, v);
    } else {
      OnlyCleanupReleases(o, r, answer);
    }
  }

  // Startup scripts.

  ghost predicate NoScript(c: Cloud, o: Owner) {
    OnlyScripts(c, Hostname(o, Primary), [])
  }

  /**
   What a run that tears down a machine without a script ID knows; `had` says that the stored object has
   its finalizer.
   */
  ghost predicate SweptRun(c: Cloud, o: Owner, r: Run, had: bool) {
    && r.mem.primary.script.None? && !r.pc.AtScriptForget?
    && (r.pc.AtScriptDelete? ==> OnlyScripts(c, Hostname(o, Primary), r.pc.scripts))
    && (PartOf(r.pc).CloneRemoval? || (had && !r.mem.finalizer) ==> NoScript(c, o))
  }

  ghost predicate Swept(c: Cloud, o: Owner, x: OwnerState) {
    x.stored.Some? && x.stored.value.primary.script.None? && x.run.Some? && x.run.value.mem.deleting ==>
      SweptRun(c, o, x.run.value, x.stored.value.finalizer)
  }

  /** No script of the hostname appears. */
  ghost predicate NoneAdded(c: Cloud, d: Cloud, o: Owner) {
    forall id :: id in d.scripts && d.scripts[id] == Hostname(o, Primary) ==>
      id in c.scripts && c.scripts[id] == Hostname(o, Primary)
  }

  lemma OthersAddNone(o: Owner, c: Cloud, d: Cloud)
    requires Rely(o, c, d)
    ensures NoneAdded(c, d, o)
  {
    forall id | id in d.scripts && d.scripts[id] == Hostname(o, Primary)
      ensures id in c.scripts && c.scripts[id] == d.scripts[id]
    {
      if id !in c.scripts {
        assert HasSlot(o, Primary);
        assert HostnameOf(o, d.scripts[id]);
      }
    }
  }

  lemma TeardownAddsNone(o: Owner, c: Cloud, r: Run, a: Response, d: Cloud)
    requires WellFormed(c) && !r.pc.Finished? && !r.pc.AtScriptAdd? && Answers(c, NextCall(o, r), d, a)
    ensures NoneAdded(c, d, o)
  {
    OnlyCreateCreates(o, r);
    ScriptsEvolve(c, NextCall(o, r), d, a);
  }

  /** Looking up, asking and purging lead to the scripts, never past them. */
  predicate Ahead(r: Run, q: Run) {
    && q.mem.primary.script == r.mem.primary.script && q.mem.finalizer == r.mem.finalizer
    && !PartOf(q.pc).CloneRemoval? && !q.pc.AtScriptDelete?
    && (q.pc.AtScriptForget? ==> r.mem.primary.script.Some?) && (q.pc.AtScriptList? ==> r.mem.primary.script.None?)
  }

  lemma AfterPurgeAhead(o: Owner, r: Run, pending: nat, why: PurgeWhy)
    requires o.Machine?
    ensures Ahead(r, AfterPurge(o, r.mem, Primary, pending, why))
  {
    StartScriptsKeeps(o, r.mem);
    AfterPurgeKeeps(o, r.mem, pending, why);
  }

  lemma PurgeAhead(o: Owner, r: Run, a: Response)
    requires o.Machine? && PartOf(r.pc).Purging? && r.pc.s.Primary?
    ensures Ahead(r, HandlePurge(o, r.mem, r.pc, a))
  {
    AfterPurgeAhead(o, r, 0, r.pc.pwhy);
    if r.pc.AtPurge? {
      AfterPurgeAhead(o, r, r.pc.pending, r.pc.pwhy);
      AfterPurgeAhead(o, r, r.pc.pending + 1, r.pc.pwhy);
    }
  }

  lemma SwitchAhead(o: Owner, r: Run, row: InstanceRow, why: DeleteWhy)
    ensures Ahead(r, DeleteSwitch(o, r.mem, Primary, row, why)) && Ahead(r, AfterDelete(o, r.mem, why))
  {
  }

  lemma DeletionAhead(o: Owner, r: Run, a: Response)
    requires PartOf(r.pc).Deletion? && r.pc.s.Primary?
    ensures Ahead(r, HandleDeletion(o, r.mem, r.pc, a))
  {
    if !r.pc.AtDueCheck? {
      SwitchAhead(o, r, if a.OneInstance? then a.row else Stub(0), r.pc.dwhy);
    }
  }

  lemma LookupAhead(o: Owner, r: Run, l: Lookup)
    requires o.Machine? && r.pc.AtLookup? && r.pc.s.Primary? && !r.pc.goal.Ensure?
    ensures Ahead(r, AfterLookup(o, r.mem, Primary, r.pc.goal, l))
  {
    StartScriptsKeeps(o, r.mem);
  }

  lemma ScriptsNextSwept(o: Owner, d: Cloud, m: Object, ids: seq<Id>, had: bool)
    requires o.Machine? && m.primary.script.None? && OnlyScripts(d, Hostname(o, Primary), ids)
    requires had && !m.finalizer ==> NoScript(d, o)
    ensures SweptRun(d, o, ScriptsNext(o, m, Primary, ForTeardown, ids), had)
  {
  }

  lemma ListSwept(o: Owner, c: Cloud, r: Run, a: Response, d: Cloud, had: bool)
    requires o.Machine? && r.pc == AtScriptList(Primary, ForTeardown) && SweptRun(c, o, r, had)
    requires Answers(c, ListScripts, d, a)
    ensures SweptRun(d, o, HandleScripts(o, r.mem, r.pc, a), had)
  {
    if a.Scripts? {
      ScriptsNextSwept(o, d, r.mem, ScriptsNamed(a.names, Hostname(o, Primary)), had);
    }
  }

  lemma DeleteSwept(o: Owner, c: Cloud, r: Run, a: Response, d: Cloud, had: bool)
    requires o.Machine? && r.pc.AtScriptDelete? && r.pc.s.Primary? && r.pc.swhy.ForTeardown?
    requires SweptRun(c, o, r, had) && Answers(c, NextCall(o, r), d, a) && NoneAdded(c, d, o)
    ensures SweptRun(d, o, HandleScripts(o, r.mem, r.pc, a), had)
  {
    var ids := r.pc.scripts;
    if ids != [] && (a.Done? || a.Missing?) {
      assert ids[0] !in d.scripts;
      assert forall id :: id in ids ==> id == ids[0] || id in ids[1..];
      ScriptsNextSwept(o, d, r.mem, ids[1..], had);
    }
  }

  lemma AheadSwept(c: Cloud, d: Cloud, o: Owner, r: Run, q: Run, had: bool)
    requires SweptRun(c, o, r, had) && Ahead(r, q) && NoneAdded(c, d, o)
    ensures SweptRun(d, o, q, had)
  {
  }

  lemma CloneSwept(o: Owner, c: Cloud, r: Run, a: Response, d: Cloud, had: bool)
    requires PartOf(r.pc).CloneRemoval? && SweptRun(c, o, r, had) && NoneAdded(c, d, o)
    ensures SweptRun(d, o, HandleCloneRemoval(o, r.mem, r.pc, a), had)
  {
  }

  lemma StaysAhead(o: Owner, r: Run, a: Response)
    requires o.Machine? && !r.pc.Finished? && SlotOf(r.pc) == Some(Primary) && RunOK(false, o, r) && r.mem.deleting
    requires !PartOf(r.pc).ScriptWork? && !PartOf(r.pc).CloneRemoval?
    ensures Ahead(r, Handle(o, r, a))
  {
    match PartOf(r.pc)
    case LookingUp => LookupAhead(o, r, LookupResult(o, r.mem, Primary, a));
    case Deletion => DeletionAhead(o, r, a);
    case Purging => PurgeAhead(o, r, a);
  }

  /** Each call of the teardown of a machine without a script ID. */
  lemma CallSwept(o: Owner, c: Cloud, r: Run, a: Response, d: Cloud, had: bool)
    requires o.Machine? && WellFormed(c) && !r.pc.Finished? && SlotOf(r.pc) == Some(Primary) && RunOK(false, o, r)
    requires r.mem.deleting
    requires SweptRun(c, o, r, had) && Answers(c, NextCall(o, r), d, a)
    ensures SweptRun(d, o, Handle(o, r, a), had)
  {
    TeardownAddsNone(o, c, r, a, d);
    if PartOf(r.pc).ScriptWork? {
      if r.pc.AtScriptList? { ListSwept(o, c, r, a, d, had); } else { DeleteSwept(o, c, r, a, d, had); }
    } else if PartOf(r.pc).CloneRemoval? {
      CloneSwept(o, c, r, a, d, had);
    } else {
      StaysAhead(o, r, a);
      AheadSwept(c, d, o, r, Handle(o, r, a), had);
    }
  }

  lemma StepSwept(o: Owner, c: Cloud, x: OwnerState, e: Event, d: Cloud, y: OwnerState)
    requires o.Machine? && Inv(c, o, x) && StatusInv(false, o, x) && Swept(c, o, x) && Step(o, c, x, e, d, y)
    ensures Swept(d, o, y)
  {
    if e.Api? && x.stored.Some? && x.stored.value.primary.script.None? && x.run.value.mem.deleting {
      CallSwept(o, c, x.run.value, e.answer, d, x.stored.value.finalizer);
    } else if e.Api? {
      HandleGood(false, o, x.run.value, e.answer);
    }
  }

  lemma ForeignSwept(o: Owner, c: Cloud, x: OwnerState, d: Cloud)
    requires Swept(c, o, x) && Rely(o, c, d)
    ensures Swept(d, o, x)
  {
    OthersAddNone(o, c, d);
  }

  lemma NextSwept(a: System, act: Action, b: System, o: Owner)
    requires SystemInv(a) && Next(a, act, b) && o in a.owners && o.Machine? && Swept(a.cloud, o, a.owners[o])
    ensures o in b.owners && Swept(b.cloud, o, b.owners[o])
  {
    assert OwnerInv(a.cloud, o, a.owners[o]);
    if act.World? {
      ForeignSwept(o, a.cloud, a.owners[o], b.cloud);
    } else if act.owner == o {
      StepSwept(o, a.cloud, a.owners[o], act.event, b.cloud, b.owners[o]);
    } else {
      assert Apart(act.owner, o) && OwnerInv(a.cloud, act.owner, a.owners[act.owner]);
      StepIsForeign(act.owner, o, a.cloud, a.owners[act.owner], act.event, b.cloud, b.owners[act.owner]);
      ForeignSwept(o, a.cloud, a.owners[o], b.cloud);
    }
  }

  lemma {:induction false} SweptAlways(states: seq<System>, acts: seq<Action>, i: nat, o: Owner)
    requires Execution(states, acts) && i < |states| && o in states[i].owners && o.Machine?
    ensures Swept(states[i].cloud, o, states[i].owners[o])
  {
    if i > 0 {
      SameOwners(states, acts, i - 1, i);
      SweptAlways(states, acts, i - 1, o);
      SweptOn(states, acts, i - 1, i, o);
    }
  }

  lemma SweptOn(states: seq<System>, acts: seq<Action>, i: nat, k: nat, o: Owner)
    requires Execution(states, acts) && i < |acts| && k == i + 1 && o.Machine?
    requires o in states[i].owners && Swept(states[i].cloud, o, states[i].owners[o])
    ensures o in states[k].owners && Swept(states[k].cloud, o, states[k].owners[o])
  {
    ExecutionStep(states, acts, i, k);
    NextSwept(states[i], acts[i], states[k], o);
  }

  /**
   Whenever a reconcile has given up the finalizer of a machine without a script ID, its hostname has no
   startup script.
   */
  lemma ScriptsLetGo(states: seq<System>, acts: seq<Action>, i: nat, o: Owner)
    requires Execution(states, acts) && i < |states| && o in states[i].owners && o.Machine?
    requires var x := states[i].owners[o];
             && x.stored.Some? && x.stored.value.finalizer && x.stored.value.primary.script.None?
             && x.run.Some? && x.run.value.mem.deleting && !x.run.value.mem.finalizer
    ensures forall id :: id in states[i].cloud.scripts ==> states[i].cloud.scripts[id] != Hostname(o, Primary)
  {
    SweptAlways(states, acts, i, o);
  }

  // With the current script ID.

  /** The record has the script ID, or has lost it along with the last script of the hostname. */
  ghost predicate Holds(c: Cloud, o: Owner, m: Object, id: Id) {
    m.primary.script == Some(id) || (m.primary.script.None? && NoScript(c, o))
  }

  /** A teardown that still has the script ID has not come to the end of its scripts. */
  predicate Early(r: Run) {
    r.mem.primary.script.Some? ==> !r.pc.AtScriptList? && !r.pc.AtScriptDelete? && !PartOf(r.pc).CloneRemoval?
  }

  ghost predicate SweepingRun(c: Cloud, o: Owner, r: Run, id: Id, had: bool) {
    && r.mem.deleting && Holds(c, o, r.mem, id) && Early(r)
    && (r.mem.primary.script.Some? && had ==> r.mem.finalizer)
  }

  ghost predicate Sweeping(c: Cloud, o: Owner, x: OwnerState, id: Id) {
    && x.stored.Some? && x.stored.value.deleting
    && OnlyScripts(c, Hostname(o, Primary), [id]) && Holds(c, o, x.stored.value, id)
    && (x.run.Some? ==> SweepingRun(c, o, x.run.value, id, x.stored.value.finalizer))
  }

  /** Deleting the one script of the hostname by its ID leaves none. */
  lemma ForgetSweeps(o: Owner, c: Cloud, r: Run, a: Response, d: Cloud, id: Id, had: bool)
    requires o.Machine? && r.pc == AtScriptForget(Primary) && SweepingRun(c, o, r, id, had)
    requires OnlyScripts(c, Hostname(o, Primary), [id]) && Answers(c, NextCall(o, r), d, a) && NoneAdded(c, d, o)
    ensures SweepingRun(d, o, HandleScripts(o, r.mem, r.pc, a), id, had)
  {
    ForgetIs(o, r.mem, a);
    if a.Done? || a.Missing? {
      if r.mem.primary.script.Some? {
        DeletedById(c, id, a, d);
      }
      assert NoScript(d, o);
      AfterScriptsKeeps(o, r.mem.(primary := r.mem.primary.(script := None)));
    }
  }

  lemma ForgetIs(o: Owner, m: Object, a: Response)
    ensures HandleScripts(o, m, AtScriptForget(Primary), a) ==
            if a.Done? || a.Missing?
            then AfterScripts(o, m.(primary := m.primary.(script := None)), Primary) else Stop(m)
  {
  }

  lemma DeletedById(c: Cloud, id: Id, a: Response, d: Cloud)
    requires Answers(c, DeleteScript(id), d, a) && (a.Done? || a.Missing?)
    ensures id !in d.scripts
  {
  }

  lemma AfterScriptsKeeps(o: Owner, m: Object)
    requires o.Machine?
    ensures var q := AfterScripts(o, m, Primary); q.mem.primary == m.primary && q.mem.deleting == m.deleting
  {
  }

  lemma CleanupKeepsScript(o: Owner, r: Run, a: Response)
    requires o.Machine? && (r.pc.AtScriptList? || r.pc.AtScriptDelete? || PartOf(r.pc).CloneRemoval?)
    requires PartOf(r.pc).ScriptWork? ==> r.pc.s.Primary? && r.pc.swhy.ForTeardown?
    ensures var q := Handle(o, r, a); q.mem.primary == r.mem.primary && q.mem.deleting == r.mem.deleting
  {
    if PartOf(r.pc).ScriptWork? {
      CleanupKeepsRecord(o, r, a);
    }
  }

  lemma CleanupKeepsRecord(o: Owner, r: Run, a: Response)
    requires o.Machine? && (r.pc.AtScriptList? || r.pc.AtScriptDelete?) && r.pc.s.Primary? && r.pc.swhy.ForTeardown?
    ensures var q := HandleScripts(o, r.mem, r.pc, a);
            q.mem.primary == r.mem.primary && q.mem.deleting == r.mem.deleting
  {
  }

  lemma CallSweeps(o: Owner, c: Cloud, r: Run, a: Response, d: Cloud, id: Id, had: bool)
    requires o.Machine? && WellFormed(c) && !r.pc.Finished? && SlotOf(r.pc) == Some(Primary) && RunOK(false, o, r)
    requires SweepingRun(c, o, r, id, had) && OnlyScripts(c, Hostname(o, Primary), [id])
    requires Answers(c, NextCall(o, r), d, a)
    ensures SweepingRun(d, o, Handle(o, r, a), id, had) && NoneAdded(c, d, o)
  {
    TeardownAddsNone(o, c, r, a, d);
    if r.pc.AtScriptForget? {
      ForgetSweeps(o, c, r, a, d, id, had);
    } else if PartOf(r.pc).ScriptWork? || PartOf(r.pc).CloneRemoval? {
      CleanupKeepsScript(o, r, a);
    } else {
      StaysAhead(o, r, a);
      HandleGood(false, o, r, a);
    }
  }

  lemma StepSweeps(o: Owner, c: Cloud, x: OwnerState, e: Event, d: Cloud, y: OwnerState, id: Id)
    requires o.Machine? && Inv(c, o, x) && StatusInv(false, o, x) && Step(o, c, x, e, d, y)
    requires Sweeping(c, o, x, id) && y.stored.Some?
    ensures Sweeping(d, o, y, id)
  {
    match e
    case Load => LoadSweeps(o, c, x, id);
    case Api(a) => CallSweeps(o, c, x.run.value, a, d, id, x.stored.value.finalizer);
    case Patch(meta, status, conds) => PatchSweeps(o, c, x, id, meta, status, conds);
    case _ =>
  }

  lemma LoadSweeps(o: Owner, c: Cloud, x: OwnerState, id: Id)
    requires o.Machine? && Sweeping(c, o, x, id)
    ensures Sweeping(c, o, x.(run := Some(Start(o, x.stored.value))), id)
  {
  }

  lemma PatchSweeps(o: Owner, c: Cloud, x: OwnerState, id: Id, meta: bool, status: bool, conds: bool)
    requires Sweeping(c, o, x, id) && x.run.Some?
    ensures Sweeping(c, o, OwnerState(Some(Patched(x.stored.value, x.run.value.mem, meta, status, conds)), None), id)
  {
  }

  lemma OthersSweep(o: Owner, c: Cloud, x: OwnerState, d: Cloud, id: Id)
    requires Sweeping(c, o, x, id) && Rely(o, c, d)
    ensures Sweeping(d, o, x, id)
  {
    OthersAddNone(o, c, d);
  }

  lemma NextSweeps(a: System, act: Action, b: System, o: Owner, id: Id)
    requires SystemInv(a) && Next(a, act, b) && o in a.owners && o.Machine? && Sweeping(a.cloud, o, a.owners[o], id)
    requires Present(b, o)
    ensures Sweeping(b.cloud, o, b.owners[o], id)
  {
    assert OwnerInv(a.cloud, o, a.owners[o]);
    if act.World? {
      OthersSweep(o, a.cloud, a.owners[o], b.cloud, id);
    } else if act.owner == o {
      StepSweeps(o, a.cloud, a.owners[o], act.event, b.cloud, b.owners[o], id);
    } else {
      assert Apart(act.owner, o) && OwnerInv(a.cloud, act.owner, a.owners[act.owner]);
      StepIsForeign(act.owner, o, a.cloud, a.owners[act.owner], act.event, b.cloud, b.owners[act.owner]);
      OthersSweep(o, a.cloud, a.owners[o], b.cloud, id);
    }
  }

  ghost predicate SweepingIn(z: System, o: Owner, id: Id) {
    Present(z, o) && Sweeping(z.cloud, o, z.owners[o], id)
  }

  lemma {:induction false} SweepingAlong(states: seq<System>, acts: seq<Action>, k: nat, i: nat, o: Owner, id: Id)
    requires Execution(states, acts) && k <= i < |states| && o.Machine? && PresentThroughout(states, o, k, i)
    requires SweepingIn(states[k], o, id)
    ensures SweepingIn(states[i], o, id)
    decreases i
  {
    if k < i {
      SweepingAlong(states, acts, k, i - 1, o, id);
      assert Present(states[i], o);
      SweepingOn(states, acts, i - 1, i, o, id);
    }
  }

  lemma SweepingOn(states: seq<System>, acts: seq<Action>, i: nat, k: nat, o: Owner, id: Id)
    requires Execution(states, acts) && i < |acts| && k == i + 1 && o.Machine?
    requires SweepingIn(states[i], o, id) && Present(states[k], o)
    ensures SweepingIn(states[k], o, id)
  {
    ExecutionStep(states, acts, i, k);
    NextSweeps(states[i], acts[i], states[k], o, id);
  }

  lemma SweepingStarts(states: seq<System>, acts: seq<Action>, k: nat, o: Owner, id: Id)
    requires Execution(states, acts) && k < |states| && o.Machine? && Present(states[k], o)
    requires var c, x := states[k].cloud, states[k].owners[o];
             && x.stored.value.deleting && x.run.None? && x.stored.value.primary.script == Some(id)
             && id in c.scripts && c.scripts[id] == Hostname(o, Primary)
    ensures SweepingIn(states[k], o, id)
  {
    ExecutionInv(states, acts, k);
    assert OwnerInv(states[k].cloud, o, states[k].owners[o]) && HasSlot(o, Primary);
    assert OneScript(states[k].cloud, Hostname(o, Primary));
  }

  /**
   In every execution: if at some point k no reconcile of a machine being deleted is in flight and its
   status has the ID of the current script, then whenever later on a reconcile gives the finalizer up,
   however many reconciles, crashes and lost patches it took, no script of the hostname is left.
   */
  lemma {:induction false} CurrentScriptLetGo(states: seq<System>, acts: seq<Action>, k: nat, i: nat, o: Owner, id: Id)
    requires Execution(states, acts) && k <= i < |states| && o.Machine? && PresentThroughout(states, o, k, i)
    requires Present(states[k], o) && Present(states[i], o)
    requires var c, x := states[k].cloud, states[k].owners[o];
             && x.stored.value.deleting && x.run.None? && x.stored.value.primary.script == Some(id)
             && id in c.scripts && c.scripts[id] == Hostname(o, Primary)
    requires var x := states[i].owners[o]; x.stored.value.finalizer && x.run.Some? && !x.run.value.mem.finalizer
    ensures forall j :: j in states[i].cloud.scripts ==> states[i].cloud.scripts[j] != Hostname(o, Primary)
  {
    SweepingStarts(states, acts, k, o, id);
    SweepingAlong(states, acts, k, i, o, id);
  }

  // The clone, from then on.

  /** What the cloud is deleting it does not take back. */
  ghost predicate NoReturn(c: Cloud, d: Cloud, v: Id) {
    v in c.volumes && v in d.volumes && c.volumes[v].status.VolumeDeleting? ==>
      d.volumes[v].status.VolumeDeleting? || d.volumes[v].status.VolumeDeleted?
  }

  ghost predicate NoReturnAt(states: seq<System>, v: Id, k: nat) {
    k + 1 < |states| && NoReturn(states[k].cloud, states[k + 1].cloud, v)
  }

  ghost predicate NeverReturns(states: seq<System>, v: Id, i: nat, j: nat) {
    forall k {:trigger NoReturnAt(states, v, k)} :: i <= k < j ==> NoReturnAt(states, v, k)
  }

  lemma LetGoEvolves(c: Cloud, d: Cloud, o: Owner, v: Id)
    requires v < c.next && LetGo(c, o, v) && Evolves(c, d) && NoReturn(c, d, v)
    ensures v < d.next && LetGo(d, o, v)
  {
  }

  lemma NextEvolves(a: System, act: Action, b: System, o: Owner)
    requires SystemInv(a) && Next(a, act, b) && o in a.owners
    ensures o in b.owners && (b.cloud == a.cloud || Evolves(a.cloud, b.cloud))
  {
    if act.World? {
      assert Rely(o, a.cloud, b.cloud);
    } else if act.event.Api? {
      assert OwnerInv(a.cloud, act.owner, a.owners[act.owner]);
      AnswersEvolve(a.cloud, NextCall(act.owner, a.owners[act.owner].run.value), b.cloud, act.event.answer);
    }
  }

  lemma LetGoOn(states: seq<System>, acts: seq<Action>, i: nat, k: nat, o: Owner, v: Id)
    requires Execution(states, acts) && i < |acts| && k == i + 1 && o in states[i].owners && NoReturnAt(states, v, i)
    requires v < states[i].cloud.next && LetGo(states[i].cloud, o, v)
    ensures o in states[k].owners && v < states[k].cloud.next && LetGo(states[k].cloud, o, v)
  {
    ExecutionStep(states, acts, i, k);
    NextEvolves(states[i], acts[i], states[k], o);
    if states[k].cloud != states[i].cloud {
      LetGoEvolves(states[i].cloud, states[k].cloud, o, v);
    }
  }

  /** Once let go, the clone stays so for good, if the cloud does not take back what it is deleting. */
  lemma {:induction false} LetGoForGood(states: seq<System>, acts: seq<Action>, i: nat, j: nat, o: Owner, v: Id)
    requires Execution(states, acts) && i <= j < |states| && o in states[i].owners
    requires v < states[i].cloud.next && LetGo(states[i].cloud, o, v)
    requires NeverReturns(states, v, i, j)
    ensures o in states[j].owners && v < states[j].cloud.next && LetGo(states[j].cloud, o, v)
    decreases j
  {
    if i < j {
      LetGoForGood(states, acts, i, j - 1, o, v);
      assert NoReturnAt(states, v, j - 1);
      LetGoOn(states, acts, j - 1, j, o, v);
    }
  }

  /**
   In every execution: from the call after which a machine gives its finalizer up, its recorded clone is
   gone for good, or being deleted, or not named like a clone; if the cloud does not take back what it
   is deleting.
   */
  lemma {:induction false} CloneLetGo(
    states: seq<System>, acts: seq<Action>, i: nat, k: nat, j: nat, o: Owner, v: Id)
    requires Execution(states, acts) && i < k == i + 1 <= j < |states| && Releases(states[i], acts[i], states[k], o, v)
    requires NeverReturns(states, v, k, j)
    ensures LetGo(states[j].cloud, o, v)
  {
    ReleaseLetsGo(states, acts, i, k, o, v);
    LetGoForGood(states, acts, k, j, o, v);
  }
}
