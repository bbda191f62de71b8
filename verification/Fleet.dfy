/**
 Any number of machines and clusters in one cloud account. Their reconciles interleave call by call
 with each other and with whatever else happens in the account; every reachable state is covered.
 */
module Fleet {
  import opened Prelude
  import opened Owners
  import opened CloudApi
  import opened Reconcile
  import opened Protocol
  import opened Ownership
  import opened StartupScripts
  import opened Provisioning
  import opened Targets
  import opened SourceVolume

  datatype System = System(cloud: Cloud, owners: map<Owner, OwnerState>)

  /** An owner moves, or something that is no owner changes the account. */
  datatype Action = Act(owner: Owner, event: Event) | World

  ghost predicate Next(a: System, act: Action, b: System) {
    match act
    case Act(o, e) =>
      && o in a.owners && o in b.owners && b.owners == a.owners[o := b.owners[o]]
      && Step(o, a.cloud, a.owners[o], e, b.cloud, b.owners[o])
    case World =>
      b.owners == a.owners && forall o :: o in a.owners ==> Rely(o, a.cloud, b.cloud)
  }

  /** Nothing exists yet: no objects, nothing live under any owner's tag, no owner's script. */
  ghost predicate Initial(z: System) {
    && WellFormed(z.cloud)
    && (forall o :: o in z.owners ==> z.owners[o] == OwnerState(None, None))
    && (forall o, s :: o in z.owners && HasSlot(o, s) ==> NoneLive(z.cloud, o, s) && OneScript(z.cloud, Hostname(o, s)))
  }

  /** Tags and hostnames tell the owners apart. */
  ghost predicate Separate(z: System) {
    forall o, p :: o in z.owners && p in z.owners && o != p ==> Apart(o, p)
  }

  ghost predicate Execution(states: seq<System>, acts: seq<Action>) {
    && |states| == |acts| + 1 && Initial(states[0]) && Separate(states[0])
    && forall i :: 0 <= i < |acts| ==> Next(states[i], acts[i], states[i + 1])
  }

  ghost predicate OwnerInv(c: Cloud, o: Owner, x: OwnerState) {
    Inv(c, o, x) && ScriptInv(c, o, x) && StatusInv(false, o, x) && TargetInv(c, o, x)
  }

  ghost predicate SystemInv(z: System) {
    Separate(z) && forall o :: o in z.owners ==> OwnerInv(z.cloud, o, z.owners[o])
  }

  lemma InitialInv(z: System)
    requires Initial(z) && Separate(z)
    ensures SystemInv(z)
  {
    forall o | o in z.owners ensures OwnerInv(z.cloud, o, z.owners[o]) {
      forall s | HasSlot(o, s)
        ensures SlotInv(z.cloud, o, z.owners[o], s) && StoredTargets(z.cloud, o, z.owners[o], s)
      {
        assert NoneLive(z.cloud, o, s);
      }
    }
  }

  lemma OwnStepInv(o: Owner, c: Cloud, x: OwnerState, e: Event, d: Cloud, y: OwnerState)
    requires OwnerInv(c, o, x) && Step(o, c, x, e, d, y)
    ensures OwnerInv(d, o, y)
  {
    StepKeepsInv(o, c, x, e, d, y);
    StepKeepsScripts(o, c, x, e, d, y);
    StepKeepsStatus(false, o, c, x, e, d, y);
    StepKeepsTargets(o, c, x, e, d, y);
  }

  lemma ForeignStepInv(o: Owner, c: Cloud, x: OwnerState, d: Cloud)
    requires OwnerInv(c, o, x) && Rely(o, c, d)
    ensures OwnerInv(d, o, x)
  {
    RelyKeepsInv(o, c, x, d);
    RelyKeepsScripts(o, c, x, d);
    EvolvesKeepsTargets(o, c, x, d);
  }

  lemma NextKeepsInv(a: System, act: Action, b: System)
    requires SystemInv(a) && Next(a, act, b)
    ensures SystemInv(b)
  {
    forall p | p in b.owners ensures OwnerInv(b.cloud, p, b.owners[p]) {
      assert OwnerInv(a.cloud, p, a.owners[p]);
      if act.World? {
        ForeignStepInv(p, a.cloud, a.owners[p], b.cloud);
      } else if act.owner == p {
        OwnStepInv(p, a.cloud, a.owners[p], act.event, b.cloud, b.owners[p]);
      } else {
        var o := act.owner;
        assert OwnerInv(a.cloud, o, a.owners[o]) && Apart(o, p);
        StepIsForeign(o, p, a.cloud, a.owners[o], act.event, b.cloud, b.owners[o]);
        ForeignStepInv(p, a.cloud, a.owners[p], b.cloud);
      }
    }
  }

  lemma {:induction false} ExecutionInv(states: seq<System>, acts: seq<Action>, i: nat)
    requires Execution(states, acts) && i < |states|
    ensures SystemInv(states[i])
  {
    if i == 0 {
      InitialInv(states[0]);
    } else {
      ExecutionInv(states, acts, i - 1);
      NextKeepsInv(states[i - 1], acts[i - 1], states[i]);
    }
  }

  /** One step of an execution. */
  lemma ExecutionStep(states: seq<System>, acts: seq<Action>, i: nat, k: nat)
    requires Execution(states, acts) && i < |acts| && k == i + 1
    ensures SystemInv(states[i]) && Next(states[i], acts[i], states[k])
  {
    ExecutionInv(states, acts, i);
  }

  lemma SameOwners(states: seq<System>, acts: seq<Action>, i: nat, k: nat)
    requires Execution(states, acts) && i < |acts| && k == i + 1
    ensures states[k].owners.Keys == states[i].owners.Keys
  {
    ExecutionStep(states, acts, i, k);
  }

  /**
   In every reachable state, of every owner and slot: at most one live instance carries the tag; if
   the status records an instance, no other can be live; a hostname has at most one startup script.
   */
  lemma OneInstancePerTag(states: seq<System>, acts: seq<Action>, i: nat, o: Owner, s: Slot)
    requires Execution(states, acts) && i < |states| && o in states[i].owners && HasSlot(o, s)
    ensures var z := states[i];
            && (forall a, b :: LiveFor(z.cloud, o, s, a) && LiveFor(z.cloud, o, s, b) ==> a == b)
            && (z.owners[o].stored.Some? ==>
                  var rec := Rec(z.owners[o].stored.value, s).instance;
                  rec.Some? ==> forall a :: LiveFor(z.cloud, o, s, a) ==> a == rec.value)
            && OneScript(z.cloud, Hostname(o, s))
  {
    ExecutionInv(states, acts, i);
    assert OwnerInv(states[i].cloud, o, states[i].owners[o]);
    assert SlotInv(states[i].cloud, o, states[i].owners[o], s);
  }

  /**
   Whenever an object is without its finalizer, or gone altogether, none of its tags has a live
   instance; and every volume listed by a recorded instance that is still listed has been released.
   */
  lemma NothingLeftBehind(states: seq<System>, acts: seq<Action>, i: nat, o: Owner, s: Slot)
    requires Execution(states, acts) && i < |states| && o in states[i].owners && HasSlot(o, s)
    requires states[i].owners[o].stored.None? || !states[i].owners[o].stored.value.finalizer
    ensures var z := states[i];
            && (forall a :: !LiveFor(z.cloud, o, s, a))
            && (z.owners[o].stored.Some? ==>
                  var rec := Rec(z.owners[o].stored.value, s).instance;
                  rec.Some? && rec.value in z.cloud.instances ==>
                    forall v :: ListsVolume(z.cloud.instances[rec.value], v) ==> Released(z.cloud, v))
  {
    ExecutionInv(states, acts, i);
    assert OwnerInv(states[i].cloud, o, states[i].owners[o]);
    assert SlotInv(states[i].cloud, o, states[i].owners[o], s);
    assert StoredTargets(states[i].cloud, o, states[i].owners[o], s);
  }

  /** Calls that destroy an instance only ever hit the caller's own, and only if it is managed. */
  lemma OnlyOwnInstancesDestroyed(states: seq<System>, acts: seq<Action>, i: nat)
    requires Execution(states, acts) && i < |acts| && acts[i].Act? && acts[i].event.Api?
    ensures var o, z := acts[i].owner, states[i];
            && o in z.owners && z.owners[o].run.Some? && !z.owners[o].run.value.pc.Finished?
            && var call := NextCall(o, z.owners[o].run.value);
               (call.ShutdownInstance? || call.DeleteInstance?) && call.id in z.cloud.instances ==>
                 z.cloud.instances[call.id].managed && CarriesTagOf(o, z.cloud.instances[call.id])
  {
    ExecutionInv(states, acts, i);
    var o, z := acts[i].owner, states[i];
    assert Next(z, acts[i], states[i + 1]);
    assert OwnerInv(z.cloud, o, z.owners[o]);
    DestroysOnlyOwn(o, z.cloud, z.owners[o]);
  }

  lemma ProvisionedStep(a: System, act: Action, b: System, o: Owner)
    requires SystemInv(a) && Next(a, act, b) && o in a.owners
    requires a.owners[o].stored.Some? && a.owners[o].stored.value.provisioned && b.owners[o].stored.Some?
    ensures var m, n := a.owners[o].stored.value, b.owners[o].stored.value;
            n.provisioned && n.primary.instance == m.primary.instance && m.primary.instance.Some?
  {
    assert OwnerInv(a.cloud, o, a.owners[o]);
    if act.Act? && act.owner == o {
      ProvisionedForever(false, o, a.cloud, a.owners[o], act.event, b.cloud, b.owners[o]);
    }
  }

  predicate Present(z: System, o: Owner) {
    o in z.owners && z.owners[o].stored.Some?
  }

  lemma ProvisionedRecorded(states: seq<System>, acts: seq<Action>, i: nat, o: Owner)
    requires Execution(states, acts) && i < |states| && Present(states[i], o)
    requires states[i].owners[o].stored.value.provisioned
    ensures states[i].owners[o].stored.value.primary.instance.Some?
  {
    ExecutionInv(states, acts, i);
    assert OwnerInv(states[i].cloud, o, states[i].owners[o]);
  }

  lemma ProvisionedOn(states: seq<System>, acts: seq<Action>, i: nat, o: Owner)
    requires Execution(states, acts) && i < |acts| && Present(states[i], o) && Present(states[i + 1], o)
    requires states[i].owners[o].stored.value.provisioned
    ensures var m, n := states[i].owners[o].stored.value, states[i + 1].owners[o].stored.value;
            n.provisioned && n.primary.instance == m.primary.instance && m.primary.instance.Some?
  {
    ExecutionInv(states, acts, i);
    assert Next(states[i], acts[i], states[i + 1]);
    ProvisionedStep(states[i], acts[i], states[i + 1], o);
  }

  /** The owner makes a call that creates an instance, clones a volume or adds a script. */
  predicate Builds(z: System, act: Action, o: Owner) {
    && act.Act? && act.owner == o && act.event.Api?
    && o in z.owners && z.owners[o].run.Some? && !z.owners[o].run.value.pc.Finished?
    && var call := NextCall(o, z.owners[o].run.value); call.CreateInstance? || call.CloneVolume? || call.AddScript?
  }

  lemma ProvisionedBuildsNot(states: seq<System>, acts: seq<Action>, i: nat, o: Owner)
    requires Execution(states, acts) && i < |acts| && Present(states[i], o)
    requires states[i].owners[o].stored.value.provisioned
    ensures !Builds(states[i], acts[i], o)
  {
    ExecutionInv(states, acts, i);
    var x := states[i].owners[o];
    assert OwnerInv(states[i].cloud, o, x);
    if x.run.Some? && !x.run.value.pc.Finished? {
      ProvisionedNeverCreates(false, o, states[i].cloud, x);
    }
  }

  ghost predicate PresentThroughout(states: seq<System>, o: Owner, i: nat, j: nat)
    requires j < |states|
  {
    forall k {:trigger Present(states[k], o)} :: i <= k <= j ==> Present(states[k], o)
  }

  /** Provisioned, and with the same instance as in the object m. */
  predicate ProvisionedAs(z: System, o: Owner, m: Object) {
    && Present(z, o) && z.owners[o].stored.value.provisioned
    && z.owners[o].stored.value.primary.instance == m.primary.instance && m.primary.instance.Some?
  }

  lemma {:induction false} ProvisionedAlong(states: seq<System>, acts: seq<Action>, i: nat, j: nat, o: Owner, m: Object)
    requires Execution(states, acts) && i <= j < |states| && PresentThroughout(states, o, i, j)
    requires ProvisionedAs(states[i], o, m)
    ensures ProvisionedAs(states[j], o, m)
    decreases j
  {
    if i < j {
      ProvisionedAlong(states, acts, i, j - 1, o, m);
      assert Present(states[j], o);
      ProvisionedAsOn(states, acts, j - 1, o, m);
    }
  }

  lemma ProvisionedAsOn(states: seq<System>, acts: seq<Action>, i: nat, o: Owner, m: Object)
    requires Execution(states, acts) && i < |acts| && ProvisionedAs(states[i], o, m) && Present(states[i + 1], o)
    ensures ProvisionedAs(states[i + 1], o, m)
  {
    ProvisionedOn(states, acts, i, o);
  }

  /**
   Provisioned once, provisioned for as long as the object is there: the same instance all the time,
   and no reconcile that creates, clones or adds anything.
   */
  lemma ProvisionedStays(states: seq<System>, acts: seq<Action>, i: nat, j: nat, o: Owner)
    requires Execution(states, acts) && i <= j < |states| && PresentThroughout(states, o, i, j)
    requires Present(states[i], o) && states[i].owners[o].stored.value.provisioned
    ensures ProvisionedAs(states[j], o, states[i].owners[o].stored.value)
    ensures j < |acts| ==> !Builds(states[j], acts[j], o)
  {
    ProvisionedRecorded(states, acts, i, o);
    ProvisionedAlong(states, acts, i, j, o, states[i].owners[o].stored.value);
    if j < |acts| {
      ProvisionedBuildsNot(states, acts, j, o);
    }
  }

  /** Up to i, every patch wrote status and conditions together or neither. */
  ghost predicate WholePatches(acts: seq<Action>, i: nat)
    requires i <= |acts|
  {
    forall j :: 0 <= j < i && acts[j].Act? && acts[j].event.Patch? ==> acts[j].event.status == acts[j].event.conds
  }

  lemma {:induction false} StatusAlways(states: seq<System>, acts: seq<Action>, i: nat, o: Owner)
    requires Execution(states, acts) && i < |states| && o in states[i].owners && WholePatches(acts, i)
    ensures StatusInv(true, o, states[i].owners[o])
  {
    if i > 0 {
      var a, act, b := states[i - 1], acts[i - 1], states[i];
      assert Next(a, act, b);
      ExecutionInv(states, acts, i - 1);
      StatusAlways(states, acts, i - 1, o);
      if act.Act? && act.owner == o {
        assert OwnerInv(a.cloud, o, a.owners[o]);
        StepKeepsStatus(true, o, a.cloud, a.owners[o], act.event, b.cloud, b.owners[o]);
      }
    }
  }

  /** Ready is never reported but of a provisioned machine last seen running, unless half of a patch was lost. */
  lemma ReadyMeansRunning(states: seq<System>, acts: seq<Action>, i: nat, o: Owner)
    requires Execution(states, acts) && i < |states| && o in states[i].owners && WholePatches(acts, i)
    ensures var x := states[i].owners[o];
            && (x.stored.Some? && x.stored.value.ready ==> x.stored.value.provisioned && x.stored.value.state.Running?)
            && (x.run.Some? && x.run.value.mem.ready ==> x.run.value.mem.provisioned && x.run.value.mem.state.Running?)
  {
    StatusAlways(states, acts, i, o);
  }

  // The source volume, over a whole execution.

  ghost predicate SourceApart(z: System, src: Id) {
    Unattached(z.cloud, src) && forall o :: o in z.owners ==> NamedApart(z.cloud, o, src)
  }

  ghost predicate SourceSystem(z: System, src: Id) {
    SystemInv(z) && forall o :: o in z.owners ==> SourceInv(z.cloud, o, z.owners[o], src)
  }

  lemma NextSparesSource(a: System, act: Action, b: System, src: Id)
    requires SourceSystem(a, src) && Next(a, act, b)
    requires act.World? ==> Unattached(b.cloud, src)
    ensures SourceSystem(b, src)
    ensures act.Act? ==> Survives(a.cloud, b.cloud, src)
  {
    NextKeepsInv(a, act, b);
    if act.Act? {
      var o := act.owner;
      assert SourceInv(a.cloud, o, a.owners[o], src) && OwnerInv(a.cloud, o, a.owners[o]);
      StepSparesSource(o, a.cloud, a.owners[o], act.event, b.cloud, b.owners[o], src);
    }
    forall p | p in b.owners ensures SourceInv(b.cloud, p, b.owners[p], src) {
      assert SourceInv(a.cloud, p, a.owners[p], src) && OwnerInv(a.cloud, p, a.owners[p]);
      if act.Act? && act.owner != p {
        assert Apart(act.owner, p) && OwnerInv(a.cloud, act.owner, a.owners[act.owner]);
        StepIsForeign(act.owner, p, a.cloud, a.owners[act.owner], act.event, b.cloud, b.owners[act.owner]);
      }
    }
  }

  lemma NextKeepsNumbers(a: System, act: Action, b: System, o: Owner)
    requires SystemInv(a) && Next(a, act, b) && o in a.owners && NumbersInv(a.cloud, o, a.owners[o])
    ensures o in b.owners && NumbersInv(b.cloud, o, b.owners[o])
  {
    assert OwnerInv(a.cloud, o, a.owners[o]);
    if act.Act? && act.owner == o {
      StepKeepsNumbers(o, a.cloud, a.owners[o], act.event, b.cloud, b.owners[o]);
    } else {
      if act.Act? {
        assert Apart(act.owner, o) && OwnerInv(a.cloud, act.owner, a.owners[act.owner]);
        StepIsForeign(act.owner, o, a.cloud, a.owners[act.owner], act.event, b.cloud, b.owners[act.owner]);
      }
      EvolvesKeepsNumbers(a.cloud, b.cloud, o, a.owners[o]);
    }
  }

  /**
   At no time does an object or a run name a volume number that is not given out yet; and outside the
   lists of volumes to be deleted or purged, none but volumes named like the owner's clone.
   */
  lemma {:induction false} NumbersAlways(states: seq<System>, acts: seq<Action>, i: nat, o: Owner)
    requires Execution(states, acts) && i < |states| && o in states[i].owners
    ensures NumbersInv(states[i].cloud, o, states[i].owners[o])
  {
    if i > 0 {
      assert Next(states[i - 1], acts[i - 1], states[i]);
      NumbersAlways(states, acts, i - 1, o);
      ExecutionInv(states, acts, i - 1);
      NextKeepsNumbers(states[i - 1], acts[i - 1], states[i], o);
    }
  }

  /** No deletion or purge in flight has the volume in its list. */
  ghost predicate NoneListed(z: System, src: Id) {
    forall o :: o in z.owners && z.owners[o].run.Some? ==> Unlisted(z.owners[o].run.value.pc, src)
  }

  /** From k on, nothing but the owners attaches the volume to a managed instance. */
  ghost predicate LeftAlone(states: seq<System>, acts: seq<Action>, src: Id, k: nat)
    requires |states| == |acts| + 1
  {
    forall j :: k <= j < |acts| && acts[j].World? ==> Unattached(states[j + 1].cloud, src)
  }

  lemma SourceFound(states: seq<System>, acts: seq<Action>, src: Id, k: nat)
    requires Execution(states, acts) && k < |states|
    requires src in states[k].cloud.volumes && SourceApart(states[k], src) && NoneListed(states[k], src)
    ensures SourceSystem(states[k], src)
  {
    var z := states[k];
    ExecutionInv(states, acts, k);
    forall o | o in z.owners ensures SourceInv(z.cloud, o, z.owners[o], src) {
      NumbersAlways(states, acts, k, o);
      assert Strange(false, z.cloud, o, src);
      if z.owners[o].run.Some? {
        KnownUnlisted(z.owners[o].run.value, src);
      }
    }
  }

  /**
   From any point of an execution at which a volume is on no managed instance, is not named like the
   clone of any owner, and is in no list of a deletion in flight: no owner ever changes or destroys
   it, as long as nobody else attaches it to a managed instance.
   */
  lemma {:induction false} SourceSurvives(states: seq<System>, acts: seq<Action>, src: Id, k: nat, i: nat)
    requires Execution(states, acts) && k <= i <= |acts|
    requires src in states[k].cloud.volumes && SourceApart(states[k], src) && NoneListed(states[k], src)
    requires LeftAlone(states, acts, src, k)
    ensures SourceSystem(states[i], src)
    ensures forall j :: k <= j < i && acts[j].Act? ==> Survives(states[j].cloud, states[j + 1].cloud, src)
  {
    if i == k {
      SourceFound(states, acts, src, k);
    } else {
      SourceSurvives(states, acts, src, k, i - 1);
      assert Next(states[i - 1], acts[i - 1], states[i]);
      NextSparesSource(states[i - 1], acts[i - 1], states[i], src);
    }
  }

  /** A volume that somebody else has just made is in no such list. */
  lemma NewNotListed(states: seq<System>, acts: seq<Action>, src: Id, k: nat)
    requires Execution(states, acts) && 0 < k < |states| && acts[k - 1].World?
    requires src !in states[k - 1].cloud.volumes && src in states[k].cloud.volumes
    ensures NoneListed(states[k], src)
  {
    var a, b := states[k - 1], states[k];
    assert Next(a, acts[k - 1], b);
    forall o | o in b.owners && b.owners[o].run.Some? ensures Unlisted(b.owners[o].run.value.pc, src) {
      assert Rely(o, a.cloud, b.cloud);
      NumbersAlways(states, acts, k - 1, o);
      assert Strange(true, a.cloud, o, src);
      KnownUnlisted(b.owners[o].run.value, src);
    }
  }

  /** An image uploaded while the controllers run survives them from then on. */
  lemma UploadSurvives(states: seq<System>, acts: seq<Action>, src: Id, k: nat, i: nat)
    requires Execution(states, acts) && 0 < k <= i <= |acts| && acts[k - 1].World?
    requires src !in states[k - 1].cloud.volumes && src in states[k].cloud.volumes && SourceApart(states[k], src)
    requires LeftAlone(states, acts, src, k)
    ensures forall j :: k <= j < i && acts[j].Act? ==> Survives(states[j].cloud, states[j + 1].cloud, src)
  {
    NewNotListed(states, acts, src, k);
    SourceSurvives(states, acts, src, k, i);
  }
}
