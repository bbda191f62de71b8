/**
 Executions, from nothing, that end where the code falls short of what it seems to promise: a disabled
 load balancer whose instance lives on, a machine stored as ready that is not provisioned, a volume
 lost with an instance it is no longer attached to. Each exists for every owner of its kind.
 */
module Shortfalls {
  import opened Prelude
  import opened Owners
  import opened CloudApi
  import opened Client
  import opened Reconcile
  import opened Protocol
  import opened Ownership
  import opened Fleet

  // What executions reach.

  ghost predicate Ends(states: seq<System>, acts: seq<Action>, z: System) {
    Execution(states, acts) && states[|states| - 1] == z
  }

  ghost predicate Reached(z: System) {
    exists states, acts :: Ends(states, acts, z)
  }

  lemma {:induction false} NextReached(z: System, act: Action, z': System)
    requires Reached(z) && Next(z, act, z')
    ensures Reached(z')
  {
    var states, acts :| Ends(states, acts, z);
    var more, all := states + [z'], acts + [act];
    forall i | 0 <= i < |all| ensures Next(more[i], all[i], more[i + 1]) {
      if i < |acts| {
        assert Next(states[i], acts[i], states[i + 1]);
      }
    }
    assert Ends(more, all, z');
  }

  /** One owner alone in the account. */
  function Solo(o: Owner, c: Cloud, x: OwnerState): System {
    System(c, map[o := x])
  }

  lemma StepNext(o: Owner, c: Cloud, x: OwnerState, e: Event, d: Cloud, y: OwnerState)
    requires Step(o, c, x, e, d, y)
    ensures Next(Solo(o, c, x), Act(o, e), Solo(o, d, y))
  {
    assert map[o := y] == map[o := x][o := y];
  }

  lemma StepReached(o: Owner, c: Cloud, x: OwnerState, e: Event, d: Cloud, y: OwnerState)
    requires Reached(Solo(o, c, x)) && Step(o, c, x, e, d, y)
    ensures Reached(Solo(o, d, y))
  {
    StepNext(o, c, x, e, d, y);
    NextReached(Solo(o, c, x), Act(o, e), Solo(o, d, y));
  }

  /** A call that only reads. */
  lemma ReadReached(o: Owner, c: Cloud, m: Object, r: Run, a: Response)
    requires Reached(Solo(o, c, OwnerState(Some(m), Some(r)))) && !r.pc.Finished? && Answers(c, NextCall(o, r), c, a)
    ensures Reached(Solo(o, c, OwnerState(Some(m), Some(Handle(o, r, a)))))
  {
    StepReached(o, c, OwnerState(Some(m), Some(r)), Api(a), c, OwnerState(Some(m), Some(Handle(o, r, a))));
  }

  const EMPTY: Cloud := Cloud(map[], map[], map[], 0)

  lemma StartReached(o: Owner)
    ensures Reached(Solo(o, EMPTY, OwnerState(None, None)))
  {
    var z := Solo(o, EMPTY, OwnerState(None, None));
    assert Ends([z], [], z);
  }

  // A new object gets its instance.

  /** A new object that goes on to look for the instance of slot s. */
  ghost predicate Wants(o: Owner, s: Slot, m: Object) {
    HasSlot(o, s) && Fresh(m) && m.source.NoSource? && Start(o, m.(finalizer := true)).pc == AtLookup(s, Ensure)
  }

  function Loaded(m: Object): Object {
    m.(finalizer := true)
  }

  lemma LoadedReached(o: Owner, s: Slot, m: Object)
    requires Wants(o, s, m)
    ensures Reached(Solo(o, EMPTY, OwnerState(Some(Loaded(m)), Some(Run(Loaded(m), AtLookup(s, Ensure))))))
  {
    var idle := OwnerState(Some(Loaded(m)), None);
    StartReached(o);
    StepReached(o, EMPTY, OwnerState(None, None), UserCreates(m), EMPTY, OwnerState(Some(m), None));
    StepReached(o, EMPTY, OwnerState(Some(m), None), FinalizerAdded, EMPTY, idle);
    StepReached(o, EMPTY, idle, Load, EMPTY, idle.(run := Some(Start(o, Loaded(m)))));
  }

  lemma CheckedReached(o: Owner, s: Slot, m: Object)
    requires Wants(o, s, m)
    ensures Reached(Solo(o, EMPTY, OwnerState(Some(Loaded(m)), Some(Run(Loaded(m), AtScriptAdd(s, FromImage))))))
  {
    var n := Loaded(m);
    LoadedReached(o, s, m);
    NothingThere(o, s, n);
    ReadReached(o, EMPTY, n, Run(n, AtLookup(s, Ensure)), Instances([]));
    ReadReached(o, EMPTY, n, Run(n, AtHostCheck(s, FromImage)), Instances([]));
    ReadReached(o, EMPTY, n, Run(n, AtScriptList(s, ForCreate(FromImage))), Scripts([]));
  }

  lemma NothingListed()
    ensures Answers(EMPTY, ListInstances, EMPTY, Instances([])) && Answers(EMPTY, ListScripts, EMPTY, Scripts([]))
  {
    assert Lists(EMPTY, []) && ListsScripts(EMPTY, []);
  }

  /** Nothing is found at any of the checks before a creation. */
  lemma NothingThere(o: Owner, s: Slot, n: Object)
    requires Rec(n, s).instance.None? && n.source.NoSource?
    ensures var r, q := Run(n, AtLookup(s, Ensure)), Run(n, AtHostCheck(s, FromImage));
            && Answers(EMPTY, NextCall(o, r), EMPTY, Instances([])) && Handle(o, r, Instances([])) == q
            && Answers(EMPTY, NextCall(o, q), EMPTY, Instances([]))
            && Handle(o, q, Instances([])) == Run(n, AtScriptList(s, ForCreate(FromImage)))
    ensures var r := Run(n, AtScriptList(s, ForCreate(FromImage)));
            && Answers(EMPTY, NextCall(o, r), EMPTY, Scripts([]))
            && Handle(o, r, Scripts([])) == Run(n, AtScriptAdd(s, FromImage))
  {
    NothingListed();
  }

  function Scripted(o: Owner, s: Slot): Cloud {
    Cloud(map[], map[0 := Hostname(o, s)], map[], 1)
  }

  lemma ScriptedReached(o: Owner, s: Slot, m: Object)
    requires Wants(o, s, m)
    ensures Reached(Solo(o, Scripted(o, s),
                         OwnerState(Some(Loaded(m)), Some(Run(Loaded(m), AtCreate(s, FromImage, 0))))))
  {
    var n, r := Loaded(m), Run(Loaded(m), AtScriptAdd(s, FromImage));
    CheckedReached(o, s, m);
    assert Scripted(o, s).scripts == EMPTY.scripts[0 := Hostname(o, s)];
    StepReached(o, EMPTY, OwnerState(Some(n), Some(r)), Api(NewId(0)), Scripted(o, s),
                OwnerState(Some(n), Some(Run(n, AtCreate(s, FromImage, 0)))));
  }

  function Bought(o: Owner, s: Slot, i: Instance, volumes: map<Id, Volume>, next: Id): Cloud {
    Cloud(map[1 := i], map[0 := Hostname(o, s)], volumes, next)
  }

  /** An instance as the cloud may make it for slot s. */
  ghost predicate MadeFor(o: Owner, s: Slot, i: Instance, volumes: map<Id, Volume>, next: Id) {
    && i.hostname == Hostname(o, s) && i.managed && i.tags == map[TagKeyOf(o, s) := TagValue(o)]
    && !i.status.NotFound? && i.script == Some(0) && 1 < next
    && (forall v: Id :: ListsVolume(i, v) ==> 1 < v < next) && (forall v :: v in volumes ==> 1 < v < next)
  }

  lemma Makes(o: Owner, s: Slot, i: Instance, volumes: map<Id, Volume>, next: Id)
    requires MadeFor(o, s, i, volumes, next)
    ensures Answers(Scripted(o, s), CreateInstance(Hostname(o, s), TagKeyOf(o, s), TagValue(o), FromImage, 0),
                    Bought(o, s, i, volumes, next), OneInstance(InstanceRow(1, i)))
  {
    var c, d := Scripted(o, s), Bought(o, s, i, volumes, next);
    assert d.instances == c.instances[1 := i];
  }

  lemma BoughtReached(o: Owner, s: Slot, m: Object, i: Instance, volumes: map<Id, Volume>, next: Id)
    requires Wants(o, s, m) && MadeFor(o, s, i, volumes, next)
    ensures Reached(Solo(o, Bought(o, s, i, volumes, next),
                         OwnerState(Some(Loaded(m)), Some(AfterFound(o, Loaded(m), s, InstanceRow(1, i))))))
  {
    var n, r := Loaded(m), Run(Loaded(m), AtCreate(s, FromImage, 0));
    ScriptedReached(o, s, m);
    Makes(o, s, i, volumes, next);
    StepReached(o, Scripted(o, s), OwnerState(Some(n), Some(r)), Api(OneInstance(InstanceRow(1, i))),
                Bought(o, s, i, volumes, next),
                OwnerState(Some(n), Some(Handle(o, r, OneInstance(InstanceRow(1, i))))));
  }

  function Plain(o: Owner, s: Slot, status: Status, volumes: seq<Id>): Instance {
    Instance(Hostname(o, s), status, "", Some(0), true, map[TagKeyOf(o, s) := TagValue(o)], None, volumes)
  }

  const NEW: Object :=
    Object(false, false, map[], false, true, NoSource, NO_RECORD, NO_RECORD, None, false, false, false, Other(""))

  // Disabling the service load balancer after a lost status patch.

  lemma ForgottenReached(o: Owner, c: Cloud, n: Object, r: Run)
    requires Reached(Solo(o, c, OwnerState(Some(n), Some(r)))) && r.pc.Finished?
    requires r.mem.finalizer == n.finalizer && r.mem.asked == n.asked
    requires r.mem.ready == n.ready && r.mem.osVolumeReady == n.osVolumeReady
    ensures Reached(Solo(o, c, OwnerState(Some(n.(primaryEnabled := false, serviceEnabled := false)), None)))
  {
    var off := n.(primaryEnabled := false, serviceEnabled := false);
    assert Patched(n, r.mem, true, false, true) == n;
    StepReached(o, c, OwnerState(Some(n), Some(r)), Patch(true, false, true), c, OwnerState(Some(n), None));
    StepReached(o, c, OwnerState(Some(n), None), UserToggles(false, false), c, OwnerState(Some(off), None));
  }

  /**
   For every cluster: an execution that ends with its service load balancer disabled, the instance of it
   live, no reconcile in flight, and a reconcile to come that does nothing about it.
   */
  lemma DisablingCanMiss(o: Owner) returns (c: Cloud, m: Object)
    requires o.Cluster?
    ensures Reached(Solo(o, c, OwnerState(Some(m), None)))
    ensures !m.deleting && m.finalizer && !m.serviceEnabled && LiveFor(c, o, Service, 1) && Start(o, m) == Stop(m)
  {
    var i, n := Plain(o, Service, Running, []), Loaded(NEW);
    c, m := Bought(o, Service, i, map[], 2), n.(primaryEnabled := false, serviceEnabled := false);
    BoughtReached(o, Service, NEW, i, map[], 2);
    ForgottenReached(o, c, n, AfterFound(o, n, Service, InstanceRow(1, i)));
    assert Tag(i, TagKeyOf(o, Service)) == TagValue(o);
  }

  // Conditions stored without the status.

  /** For every machine: an execution that ends with it stored as ready though its status says it is not provisioned. */
  lemma ReadyCanMislead(o: Owner) returns (c: Cloud, m: Object)
    requires o.Machine?
    ensures Reached(Solo(o, c, OwnerState(Some(m), None)))
    ensures m.ready && !m.provisioned && !m.state.Running? && m.primary.instance.None?
  {
    var i, n := Plain(o, Primary, Running, []), Loaded(NEW);
    c, m := Bought(o, Primary, i, map[], 2), n.(ready := true);
    BoughtReached(o, Primary, NEW, i, map[], 2);
    var r := AfterFound(o, n, Primary, InstanceRow(1, i));
    assert r == Stop(Note(n, Primary, InstanceRow(1, i)).(state := Running, ready := true, provisioned := true));
    assert Patched(n, r.mem, true, false, true) == m;
    StepReached(o, c, OwnerState(Some(n), Some(r)), Patch(true, false, true), c, OwnerState(Some(m), None));
  }

  // A volume detached while its instance is being deleted.

  function Known(): Object {
    Loaded(NEW).(primary := Record(Some(1), Some(0), ""), state := Offline)
  }

  function Doomed(): Object {
    Known().(deleting := true)
  }

  function Drive(status: VolumeStatus): map<Id, Volume> {
    map[2 := Volume("d", status, false, false, false)]
  }

  function Holding(o: Owner): Cloud {
    Bought(o, Primary, Plain(o, Primary, Offline, [2]), Drive(Attached), 3)
  }

  lemma DoomedReached(o: Owner)
    requires o.Machine?
    ensures Reached(Solo(o, Holding(o), OwnerState(Some(Doomed()), Some(Run(Doomed(), AtLookup(Primary, Teardown))))))
  {
    var i, n, c := Plain(o, Primary, Offline, [2]), Loaded(NEW), Holding(o);
    BoughtReached(o, Primary, NEW, i, Drive(Attached), 3);
    var r := AfterFound(o, n, Primary, InstanceRow(1, i));
    assert r == Stop(Known());
    assert Patched(n, Known(), true, true, true) == Known();
    StepReached(o, c, OwnerState(Some(n), Some(r)), Patch(true, true, true), c, OwnerState(Some(Known()), None));
    StepReached(o, c, OwnerState(Some(Known()), None), UserDeletes, c, OwnerState(Some(Doomed()), None));
    StepReached(o, c, OwnerState(Some(Doomed()), None), Load, c, OwnerState(Some(Doomed()), Some(Start(o, Doomed()))));
  }

  /** The run has asked for the deletion and has read the list of volumes. */
  function Armed(): Run {
    Run(NoteRequest(Doomed(), Primary, Offline, 0), AtDelete(Primary, 1, [2], TeardownAsk(Offline)))
  }

  function Asking(): Run {
    Run(NoteRequest(Doomed(), Primary, Offline, 0), AtDeleteGet(Primary, 1, TeardownAsk(Offline)))
  }

  lemma FindsIt(o: Owner, row: InstanceRow)
    requires o.Machine? && row == InstanceRow(1, Plain(o, Primary, Offline, [2]))
    ensures var r := Run(Doomed(), AtLookup(Primary, Teardown));
            && NextCall(o, r) == GetInstance(1)
            && Handle(o, r, OneInstance(row)) == Run(Doomed(), AtDueCheck(Primary, row))
  {
  }

  lemma FindsItDue(o: Owner, row: InstanceRow)
    requires o.Machine? && row == InstanceRow(1, Plain(o, Primary, Offline, [2]))
    ensures var r := Run(Doomed(), AtDueCheck(Primary, row));
            NextCall(o, r) == ReadClock && Handle(o, r, Time(0)) == Asking()
  {
  }

  lemma ReadsList(o: Owner, row: InstanceRow)
    requires o.Machine? && row == InstanceRow(1, Plain(o, Primary, Offline, [2]))
    ensures NextCall(o, Asking()) == GetInstance(1) && Handle(o, Asking(), OneInstance(row)) == Armed()
  {
    ListIs(row.inst);
  }

  lemma AskingReached(o: Owner)
    requires o.Machine?
    ensures Reached(Solo(o, Holding(o), OwnerState(Some(Doomed()), Some(Asking()))))
  {
    var row, c := InstanceRow(1, Plain(o, Primary, Offline, [2])), Holding(o);
    DoomedReached(o);
    FindsIt(o, row);
    ReadReached(o, c, Doomed(), Run(Doomed(), AtLookup(Primary, Teardown)), OneInstance(row));
    FindsItDue(o, row);
    ReadReached(o, c, Doomed(), Run(Doomed(), AtDueCheck(Primary, row)), Time(0));
  }

  lemma ArmedReached(o: Owner)
    requires o.Machine?
    ensures Reached(Solo(o, Holding(o), OwnerState(Some(Doomed()), Some(Armed()))))
  {
    var row := InstanceRow(1, Plain(o, Primary, Offline, [2]));
    AskingReached(o);
    ReadsList(o, row);
    ReadReached(o, Holding(o), Doomed(), Asking(), OneInstance(row));
  }

  lemma ListIs(i: Instance)
    requires i.osVolume.None? && i.volumes == [2]
    ensures VolumesOf(i) == [2]
  {
    assert [] + i.volumes == [2] && [2][..0] == [] && Distinct([2]) == [2];
  }

  /** The same, with the volume detached. */
  function Freed(o: Owner): Cloud {
    Bought(o, Primary, Plain(o, Primary, Offline, []), Drive(Detached), 3)
  }

  lemma Detaches(o: Owner)
    ensures Rely(o, Holding(o), Freed(o))
  {
  }

  lemma FreedReached(o: Owner)
    requires o.Machine?
    ensures Reached(Solo(o, Freed(o), OwnerState(Some(Doomed()), Some(Armed()))))
  {
    var x := OwnerState(Some(Doomed()), Some(Armed()));
    ArmedReached(o);
    Detaches(o);
    NextReached(Solo(o, Holding(o), x), World, Solo(o, Freed(o), x));
  }

  /**
   For every machine: an execution that reaches a state in which a volume is on no managed instance and
   not named like a clone, and from which the next call of the machine takes the volume away.
   */
  lemma DetachedCanBeLost(o: Owner) returns (z: System, z': System)
    requires o.Machine?
    ensures Reached(z) && SourceApart(z, 2) && 2 in z.cloud.volumes && Next(z, Act(o, Api(Done)), z')
    ensures 2 !in z'.cloud.volumes
  {
    var x := OwnerState(Some(Doomed()), Some(Armed()));
    z := Solo(o, Freed(o), x);
    FreedReached(o);
    FreedApart(o, x);
    z' := TakenNext(o, x);
  }

  lemma TakenNext(o: Owner, x: OwnerState) returns (z: System)
    requires o.Machine? && x == OwnerState(Some(Doomed()), Some(Armed()))
    ensures Next(Solo(o, Freed(o), x), Act(o, Api(Done)), z) && 2 !in z.cloud.volumes
  {
    var y := OwnerState(Some(Doomed()), Some(Handle(o, Armed(), Done)));
    var d := Bought(o, Primary, Plain(o, Primary, Deleting, []), map[], 3);
    z := Solo(o, d, y);
    Takes(o);
    StepNext(o, Freed(o), x, Api(Done), d, y);
  }

  lemma FreedApart(o: Owner, x: OwnerState)
    ensures SourceApart(Solo(o, Freed(o), x), 2)
  {
    assert |CloneName(o)| > 1;
  }

  lemma Takes(o: Owner)
    ensures Answers(Freed(o), DeleteInstance(1, [2]),
                    Bought(o, Primary, Plain(o, Primary, Deleting, []), map[], 3), Done)
  {
    var c, d := Freed(o), Bought(o, Primary, Plain(o, Primary, Deleting, []), map[], 3);
    assert d.instances == c.instances[1 := d.instances[1]];
    assert d.instances[1] == c.instances[1].(status := Deleting);
  }
}
