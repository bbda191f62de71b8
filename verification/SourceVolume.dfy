/** The volume that machines are cloned from survives every step of every owner. */
module SourceVolume {
  import opened Prelude
  import opened Owners
  import opened CloudApi
  import opened Client
  import opened Reconcile
  import opened Protocol
  import opened Ownership

  predicate BootAvoids(b: Boot, src: Id) {
    b != FromVolume(src)
  }

  /** Nothing at `pc` names the volume; the lists of volumes to be deleted or purged count only if `lists`. */
  predicate PcAvoids(lists: bool, pc: Pc, src: Id) {
    match pc
    case AtCloneTag(v) => v != src
    case AtVolumeTag(row) => row.id != src
    case AtHostCheck(_, boot) => BootAvoids(boot, src)
    case AtScriptList(_, why) => why.ForCreate? ==> BootAvoids(why.boot, src)
    case AtScriptDelete(_, why, _) => why.ForCreate? ==> BootAvoids(why.boot, src)
    case AtScriptAdd(_, boot) => BootAvoids(boot, src)
    case AtCreate(_, boot, _) => BootAvoids(boot, src)
    case AtDelete(_, _, vols, _) => lists ==> src !in vols
    case AtPurgeTrash(_, _, vols, _) => lists ==> src !in vols
    case AtPurge(_, _, vols, _, _, _, _) => lists ==> src !in vols
    case _ => true
  }

  predicate RunAvoids(lists: bool, r: Run, src: Id) {
    r.mem.osVolume != Some(src) && PcAvoids(lists, r.pc, src)
  }

  /** The source is attached to no managed instance and is not named like the owner's clone. */
  ghost predicate Unattached(c: Cloud, src: Id) {
    src < c.next && forall id :: id in c.instances && c.instances[id].managed ==> !ListsVolume(c.instances[id], src)
  }

  ghost predicate NamedApart(c: Cloud, o: Owner, src: Id) {
    src in c.volumes ==> c.volumes[src].name != CloneName(o)
  }

  ghost predicate SourceInv(c: Cloud, o: Owner, x: OwnerState, src: Id) {
    && Unattached(c, src) && NamedApart(c, o, src)
    && (x.stored.Some? ==> x.stored.value.osVolume != Some(src))
    && (x.run.Some? ==> RunAvoids(true, x.run.value, src))
  }

  ghost predicate Survives(c: Cloud, d: Cloud, src: Id) {
    src in c.volumes ==> src in d.volumes && d.volumes[src] == c.volumes[src]
  }

  /** What an answer can say about the source. */
  ghost predicate AnswerAvoids(lists: bool, o: Owner, r: Run, a: Response, src: Id) {
    && (a.OneVolume? && r.pc.AtVolumeLookup? ==> a.vol.id != src)
    && (a.Volumes? ==> forall row :: row in a.vols && row.id == src ==> row.vol.name != CloneName(o))
    && (a.NewId? ==> a.id != src)
    && (lists && a.OneInstance? && a.row.inst.managed ==> src !in VolumesOf(a.row.inst))
  }

  lemma UnattachedNotShown(c: Cloud, call: Call, a: Response, d: Cloud, src: Id)
    requires WellFormed(c) && Unattached(c, src) && CallAvoids(call, src) && Answers(c, call, d, a) && a.OneInstance?
    ensures a.row.inst.managed ==> src !in VolumesOf(a.row.inst)
  {
    VolumesOfIs(a.row.inst);
  }

  lemma ApartNotListed(o: Owner, c: Cloud, call: Call, a: Response, d: Cloud, src: Id)
    requires NamedApart(c, o, src) && Answers(c, call, d, a) && a.Volumes?
    ensures forall row :: row in a.vols && row.id == src ==> row.vol.name != CloneName(o)
  {
  }

  lemma OldNotNew(c: Cloud, call: Call, a: Response, d: Cloud, src: Id)
    requires src < c.next && Answers(c, call, d, a) && a.NewId?
    ensures a.id != src
  {
  }

  lemma AnswersAvoid(o: Owner, c: Cloud, r: Run, a: Response, d: Cloud, src: Id)
    requires WellFormed(c) && Unattached(c, src) && NamedApart(c, o, src) && !r.pc.Finished? && RunAvoids(true, r, src)
    requires Answers(c, NextCall(o, r), d, a)
    ensures AnswerAvoids(true, o, r, a, src)
  {
    if a.OneInstance? {
      NextCallAvoids(o, r, src);
      UnattachedNotShown(c, NextCall(o, r), a, d, src);
    } else if a.Volumes? {
      ApartNotListed(o, c, NextCall(o, r), a, d, src);
    } else if a.NewId? {
      OldNotNew(c, NextCall(o, r), a, d, src);
    } else if a.OneVolume? && r.pc.AtVolumeLookup? {
      StrangeNotLookedUp(true, o, c, r, a, d, src);
    }
  }

  /** The call neither changes nor attaches the source. */
  predicate CallAvoids(call: Call, src: Id) {
    match call
    case CreateInstance(_, _, _, boot, _) => BootAvoids(boot, src)
    case DeleteInstance(_, vols) => src !in vols
    case TagVolume(id) => id != src
    case DestroyVolume(id) => id != src
    case _ => true
  }

  lemma NextCallAvoids(o: Owner, r: Run, src: Id)
    requires !r.pc.Finished? && RunAvoids(true, r, src)
    ensures CallAvoids(NextCall(o, r), src)
  {
  }

  lemma CallSpares(c: Cloud, call: Call, a: Response, d: Cloud, src: Id)
    requires WellFormed(c) && Unattached(c, src) && CallAvoids(call, src) && Answers(c, call, d, a)
    ensures Survives(c, d, src) && Unattached(d, src)
  {
    forall id | id in d.instances && d.instances[id].managed ensures !ListsVolume(d.instances[id], src) {
      if id in c.instances {
        assert !ListsVolume(c.instances[id], src);
      }
    }
  }

  lemma SettleAvoids(lists: bool, m: Object, row: InstanceRow, src: Id)
    requires m.osVolume != Some(src)
    ensures RunAvoids(lists, Settle(m, row), src)
  {
  }

  lemma StartServiceAvoids(lists: bool, m: Object, src: Id)
    requires m.osVolume != Some(src)
    ensures RunAvoids(lists, StartService(m), src)
  {
  }

  lemma AfterFoundAvoids(lists: bool, o: Owner, m: Object, s: Slot, row: InstanceRow, src: Id)
    requires m.osVolume != Some(src)
    ensures RunAvoids(lists, AfterFound(o, m, s, row), src)
  {
    if o.Machine? {
      SettleAvoids(lists, Note(m, s, row).(state := row.inst.status), row, src);
    } else {
      BalancerAvoids(lists, o, m, s, row, src);
    }
  }

  lemma NoteKeepsVolume(m: Object, s: Slot, row: InstanceRow)
    ensures NoteAddress(Note(m, s, row), s, row).osVolume == m.osVolume
  {
  }

  lemma BalancerAvoids(lists: bool, o: Owner, m: Object, s: Slot, row: InstanceRow, src: Id)
    requires o.Cluster? && m.osVolume != Some(src)
    ensures RunAvoids(lists, AfterFound(o, m, s, row), src)
  {
    NoteKeepsVolume(m, s, row);
    StartServiceAvoids(lists, NoteAddress(Note(m, s, row), s, row), src);
  }

  lemma VolumeKnownAvoids(lists: bool, m: Object, row: VolumeRow, src: Id)
    requires row.id != src
    ensures RunAvoids(lists, VolumeKnown(m, row), src)
    ensures m.osVolume != Some(src) ==> RunAvoids(lists, VolumeSettled(m, row), src)
  {
  }

  lemma DeleteSwitchAvoids(lists: bool, o: Owner, m: Object, s: Slot, row: InstanceRow, why: DeleteWhy, src: Id)
    requires m.osVolume != Some(src) && (lists && row.inst.managed ==> src !in VolumesOf(row.inst))
    ensures RunAvoids(lists, DeleteSwitch(o, m, s, row, why), src)
  {
  }

  lemma StartScriptsAvoids(lists: bool, o: Owner, m: Object, s: Slot, src: Id)
    requires m.osVolume != Some(src)
    ensures RunAvoids(lists, StartScripts(o, m, s), src) && RunAvoids(lists, AfterScripts(o, m, s), src)
  {
  }

  lemma AfterPurgeAvoids(lists: bool, o: Owner, m: Object, s: Slot, pending: nat, why: PurgeWhy, src: Id)
    requires m.osVolume != Some(src)
    ensures RunAvoids(lists, AfterPurge(o, m, s, pending, why), src)
  {
    if why.InTeardown? {
      StartScriptsAvoids(lists, o, m, s, src);
    }
  }

  lemma LookupAvoids(lists: bool, o: Owner, m: Object, s: Slot, goal: Goal, l: Lookup, src: Id)
    requires m.osVolume != Some(src)
    ensures RunAvoids(lists, AfterLookup(o, m, s, goal, l), src)
  {
    match goal
    case Ensure => EnsureAvoids(lists, o, m, s, l, src);
    case Resync =>
    case Teardown => TeardownAvoids(lists, o, m, s, l, src);
  }

  lemma EnsureAvoids(lists: bool, o: Owner, m: Object, s: Slot, l: Lookup, src: Id)
    requires m.osVolume != Some(src)
    ensures RunAvoids(lists, AfterLookup(o, m, s, Ensure, l), src)
  {
    if l.Found? {
      AfterFoundAvoids(lists, o, m, s, l.row, src);
    }
  }

  lemma TeardownAvoids(lists: bool, o: Owner, m: Object, s: Slot, l: Lookup, src: Id)
    requires m.osVolume != Some(src)
    ensures RunAvoids(lists, AfterLookup(o, m, s, Teardown, l), src)
  {
    if l.Found? && !Gone(l.row.inst.status) {
      assert RunAvoids(lists, StopWaiting(o, m, l.row.inst.status), src);
    } else {
      StartScriptsAvoids(lists, o, m, s, src);
    }
  }

  lemma VolumeAvoids(lists: bool, o: Owner, r: Run, a: Response, src: Id)
    requires PartOf(r.pc).VolumeWork? && RunAvoids(lists, r, src) && AnswerAvoids(lists, o, r, a, src)
    ensures RunAvoids(lists, HandleVolume(o, r.mem, r.pc, a), src)
  {
    if r.pc.AtVolumeLookup? {
      VolumeLookupAvoids(lists, o, r, a, src);
    } else if r.pc.AtOsTagGet? || r.pc.AtOsTagSet? {
      TagAvoids(lists, o, r, a, src);
    } else if r.pc.AtVolumeTag? {
      VolumeKnownAvoids(lists, r.mem, r.pc.row, src);
      VolumeKnownAvoids(lists, r.mem, r.pc.row.(vol := r.pc.row.vol.(managed := true)), src);
    } else {
      CloneAvoids(lists, o, r, a, src);
    }
  }

  lemma TagAvoids(lists: bool, o: Owner, r: Run, a: Response, src: Id)
    requires (r.pc.AtOsTagGet? || r.pc.AtOsTagSet?) && RunAvoids(lists, r, src)
    ensures RunAvoids(lists, HandleVolume(o, r.mem, r.pc, a), src)
  {
    SettleAvoids(lists, r.mem, r.pc.found, src);
    SettleAvoids(lists, r.mem.(osVolumeReady := true), r.pc.found, src);
  }

  lemma VolumeLookupAvoids(lists: bool, o: Owner, r: Run, a: Response, src: Id)
    requires r.pc.AtVolumeLookup? && RunAvoids(lists, r, src) && AnswerAvoids(lists, o, r, a, src)
    ensures RunAvoids(lists, HandleVolume(o, r.mem, r.pc, a), src)
  {
    if a.OneVolume? {
      VolumeKnownAvoids(lists, r.mem, a.vol, src);
    } else if a.Volumes? && VolumeNamed(a.vols, CloneName(o)).Some? {
      VolumeKnownAvoids(lists, r.mem, VolumeNamed(a.vols, CloneName(o)).value, src);
    }
  }

  lemma CloneAvoids(lists: bool, o: Owner, r: Run, a: Response, src: Id)
    requires r.pc.AtSourceGet? || r.pc.AtSourceList? || r.pc.AtClone? || r.pc.AtCloneTag?
    requires RunAvoids(lists, r, src) && AnswerAvoids(lists, o, r, a, src)
    ensures RunAvoids(lists, HandleVolume(o, r.mem, r.pc, a), src)
  {
  }

  lemma CreationAvoids(lists: bool, o: Owner, r: Run, a: Response, src: Id)
    requires PartOf(r.pc).Creation? && RunAvoids(lists, r, src)
    ensures RunAvoids(lists, HandleCreation(o, r.mem, r.pc, a), src)
  {
    if r.pc.AtCreate? && a.OneInstance? {
      var row := a.row;
      AfterFoundAvoids(lists, o, r.mem, r.pc.s, WithScript(row, r.pc.script), src);
    }
  }

  lemma ScriptAvoids(lists: bool, o: Owner, r: Run, a: Response, src: Id)
    requires PartOf(r.pc).ScriptWork? && RunAvoids(lists, r, src)
    ensures RunAvoids(lists, HandleScripts(o, r.mem, r.pc, a), src)
  {
    if r.pc.AtScriptForget? {
      ScriptForgetAvoids(lists, o, r, a, src);
    } else if r.pc.swhy.ForTeardown? {
      StartScriptsAvoids(lists, o, r.mem, r.pc.s, src);
    }
  }

  lemma ScriptForgetAvoids(lists: bool, o: Owner, r: Run, a: Response, src: Id)
    requires r.pc.AtScriptForget? && RunAvoids(lists, r, src)
    ensures RunAvoids(lists, HandleScripts(o, r.mem, r.pc, a), src)
  {
    StartScriptsAvoids(lists, o, SetRec(r.mem, r.pc.s, Rec(r.mem, r.pc.s).(script := None)), r.pc.s, src);
  }

  lemma DeletionAvoids(lists: bool, o: Owner, r: Run, a: Response, src: Id)
    requires PartOf(r.pc).Deletion? && RunAvoids(lists, r, src) && AnswerAvoids(lists, o, r, a, src)
    ensures RunAvoids(lists, HandleDeletion(o, r.mem, r.pc, a), src)
  {
    if r.pc.AtDeleteGet? && a.OneInstance? {
      DeleteSwitchAvoids(lists, o, r.mem, r.pc.s, a.row, r.pc.dwhy, src);
    }
  }

  lemma PurgeAvoids(lists: bool, o: Owner, r: Run, a: Response, src: Id)
    requires PartOf(r.pc).Purging? && RunAvoids(lists, r, src) && AnswerAvoids(lists, o, r, a, src)
    ensures RunAvoids(lists, HandlePurge(o, r.mem, r.pc, a), src)
  {
    AfterPurgeAvoids(lists, o, r.mem, r.pc.s, 0, r.pc.pwhy, src);
    if r.pc.AtPurge? {
      AfterPurgeAvoids(lists, o, r.mem, r.pc.s, r.pc.pending, r.pc.pwhy, src);
      AfterPurgeAvoids(lists, o, r.mem, r.pc.s, r.pc.pending + 1, r.pc.pwhy, src);
    }
  }

  lemma CloneRemovalAvoids(lists: bool, o: Owner, r: Run, a: Response, src: Id)
    requires PartOf(r.pc).CloneRemoval? && RunAvoids(lists, r, src)
    ensures RunAvoids(lists, HandleCloneRemoval(o, r.mem, r.pc, a), src)
  {
  }

  lemma HandleAvoids(lists: bool, o: Owner, r: Run, a: Response, src: Id)
    requires !r.pc.Finished? && RunAvoids(lists, r, src) && AnswerAvoids(lists, o, r, a, src)
    ensures RunAvoids(lists, Handle(o, r, a), src)
  {
    match PartOf(r.pc)
    case LookingUp => LookupAvoids(lists, o, r.mem, r.pc.s, r.pc.goal, LookupResult(o, r.mem, r.pc.s, a), src);
    case VolumeWork => VolumeAvoids(lists, o, r, a, src);
    case Creation => CreationAvoids(lists, o, r, a, src);
    case ScriptWork => ScriptAvoids(lists, o, r, a, src);
    case Deletion => DeletionAvoids(lists, o, r, a, src);
    case Purging => PurgeAvoids(lists, o, r, a, src);
    case CloneRemoval => CloneRemovalAvoids(lists, o, r, a, src);
  }

  lemma CallSparesSource(o: Owner, c: Cloud, r: Run, a: Response, d: Cloud, src: Id)
    requires WellFormed(c) && Unattached(c, src) && NamedApart(c, o, src) && !r.pc.Finished? && RunAvoids(true, r, src)
    requires Answers(c, NextCall(o, r), d, a)
    ensures Survives(c, d, src) && Unattached(d, src) && NamedApart(d, o, src) && RunAvoids(true, Handle(o, r, a), src)
  {
    AnswersEvolve(c, NextCall(o, r), d, a);
    AnswersAvoid(o, c, r, a, d, src);
    NextCallAvoids(o, r, src);
    CallSpares(c, NextCall(o, r), a, d, src);
    HandleAvoids(true, o, r, a, src);
  }

  /** No step of an owner changes the source, and what it knows stays away from it. */
  lemma StepSparesSource(o: Owner, c: Cloud, x: OwnerState, e: Event, d: Cloud, y: OwnerState, src: Id)
    requires Inv(c, o, x) && SourceInv(c, o, x, src) && Step(o, c, x, e, d, y)
    ensures Survives(c, d, src) && SourceInv(d, o, y, src)
  {
    if e.Api? {
      CallSparesSource(o, c, x.run.value, e.answer, d, src);
    }
  }

  // Which volumes an owner can name at all.

  /** A number not given out yet, or, lists aside, a volume that is not named like the owner's clone. */
  ghost predicate Strange(lists: bool, c: Cloud, o: Owner, v: Id) {
    v >= c.next || (!lists && v in c.volumes && c.volumes[v].name != CloneName(o))
  }

  /** The stored object and the run name no such volume. */
  ghost predicate NumbersInv(c: Cloud, o: Owner, x: OwnerState) {
    forall lists, v: Id {:trigger Strange(lists, c, o, v)} :: Strange(lists, c, o, v) ==>
      && (x.stored.Some? ==> x.stored.value.osVolume != Some(v))
      && (x.run.Some? ==> RunAvoids(lists, x.run.value, v))
  }

  lemma StrangeBefore(lists: bool, c: Cloud, d: Cloud, o: Owner, v: Id)
    requires Evolves(c, d) && Strange(lists, d, o, v)
    ensures Strange(lists, c, o, v)
  {
  }

  lemma EvolvesKeepsNumbers(c: Cloud, d: Cloud, o: Owner, x: OwnerState)
    requires Evolves(c, d) && NumbersInv(c, o, x)
    ensures NumbersInv(d, o, x)
  {
    forall lists, v: Id | Strange(lists, d, o, v)
      ensures x.stored.Some? ==> x.stored.value.osVolume != Some(v)
      ensures x.run.Some? ==> RunAvoids(lists, x.run.value, v)
    {
      StrangeBefore(lists, c, d, o, v);
    }
  }

  lemma StrangeNotNew(lists: bool, o: Owner, c: Cloud, call: Call, a: Response, d: Cloud, v: Id)
    requires WellFormed(c) && Answers(c, call, d, a) && Strange(lists, d, o, v) && a.NewId?
    requires call.CloneVolume? ==> call.name == CloneName(o)
    ensures a.id != v
  {
  }

  lemma StrangeNotAttached(o: Owner, c: Cloud, call: Call, a: Response, d: Cloud, v: Id)
    requires WellFormed(c) && Evolves(c, d) && Answers(c, call, d, a) && Strange(true, d, o, v) && a.OneInstance?
    ensures v !in VolumesOf(a.row.inst)
  {
    VolumesOfIs(a.row.inst);
  }

  lemma StrangeNotListed(lists: bool, o: Owner, c: Cloud, call: Call, a: Response, d: Cloud, v: Id)
    requires WellFormed(c) && Evolves(c, d) && Answers(c, call, d, a) && Strange(lists, d, o, v) && a.Volumes?
    ensures forall row :: row in a.vols && row.id == v ==> row.vol.name != CloneName(o)
  {
  }

  lemma ClonesByName(o: Owner, r: Run)
    requires !r.pc.Finished?
    ensures NextCall(o, r).CloneVolume? ==> NextCall(o, r).name == CloneName(o)
  {
  }

  lemma StrangeNotLookedUp(lists: bool, o: Owner, c: Cloud, r: Run, a: Response, d: Cloud, v: Id)
    requires r.pc.AtVolumeLookup? && RunAvoids(lists, r, v) && Answers(c, NextCall(o, r), d, a) && a.OneVolume?
    ensures a.vol.id != v
  {
  }

  lemma StrangeNotAnswered(lists: bool, o: Owner, c: Cloud, r: Run, a: Response, d: Cloud, v: Id)
    requires WellFormed(c) && Evolves(c, d) && !r.pc.Finished? && RunAvoids(lists, r, v)
    requires Answers(c, NextCall(o, r), d, a) && Strange(lists, d, o, v)
    ensures AnswerAvoids(lists, o, r, a, v)
  {
    if a.OneInstance? {
      if lists {
        StrangeNotAttached(o, c, NextCall(o, r), a, d, v);
      }
    } else if a.NewId? {
      ClonesByName(o, r);
      StrangeNotNew(lists, o, c, NextCall(o, r), a, d, v);
    } else if a.Volumes? {
      StrangeNotListed(lists, o, c, NextCall(o, r), a, d, v);
    } else if a.OneVolume? && r.pc.AtVolumeLookup? {
      StrangeNotLookedUp(lists, o, c, r, a, d, v);
    }
  }

  lemma CallKeepsNumbers(o: Owner, c: Cloud, x: OwnerState, a: Response, d: Cloud)
    requires WellFormed(c) && NumbersInv(c, o, x) && x.run.Some? && !x.run.value.pc.Finished?
    requires Answers(c, NextCall(o, x.run.value), d, a)
    ensures NumbersInv(d, o, x.(run := Some(Handle(o, x.run.value, a))))
  {
    AnswersEvolve(c, NextCall(o, x.run.value), d, a);
    forall lists, v: Id | Strange(lists, d, o, v)
      ensures x.stored.Some? ==> x.stored.value.osVolume != Some(v)
      ensures RunAvoids(lists, Handle(o, x.run.value, a), v)
    {
      StrangeBefore(lists, c, d, o, v);
      StrangeNotAnswered(lists, o, c, x.run.value, a, d, v);
      HandleAvoids(lists, o, x.run.value, a, v);
    }
  }

  /** No step makes an owner name a number not given out yet, or anything but a clone of its own outside such a list. */
  lemma StepKeepsNumbers(o: Owner, c: Cloud, x: OwnerState, e: Event, d: Cloud, y: OwnerState)
    requires Inv(c, o, x) && NumbersInv(c, o, x) && Step(o, c, x, e, d, y)
    ensures NumbersInv(d, o, y)
  {
    if e.Api? {
      CallKeepsNumbers(o, c, x, e.answer, d);
    }
  }

  /** The run is not about to delete or purge a list of volumes with this one in it. */
  predicate Unlisted(pc: Pc, src: Id) {
    match pc
    case AtDelete(_, _, vols, _) => src !in vols
    case AtPurgeTrash(_, _, vols, _) => src !in vols
    case AtPurge(_, _, vols, _, _, _, _) => src !in vols
    case _ => true
  }

  lemma KnownUnlisted(r: Run, src: Id)
    ensures RunAvoids(true, r, src) <==> RunAvoids(false, r, src) && Unlisted(r.pc, src)
  {
  }

  /** A deletion in flight is sure to spare a volume if and only if its list, read before, does not have it. */
  lemma DeletionSparesIff(c: Cloud, id: Id, vols: seq<Id>, src: Id)
    requires WellFormed(c) && id in c.instances && src in c.volumes
    ensures (forall d, a :: Answers(c, DeleteInstance(id, vols), d, a) ==> Survives(c, d, src)) <==> src !in vols
  {
    if src in vols {
      var d := c.(volumes := c.volumes - {src});
      assert d.instances == c.instances[id := d.instances[id]];
      assert Answers(c, DeleteInstance(id, vols), d, Done) && !Survives(c, d, src);
    }
  }
}
