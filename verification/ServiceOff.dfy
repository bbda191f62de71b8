/**
 What happens to the service load balancer of a cluster once it is disabled: a reconcile without errors
 looks after its instance if and only if the status remembers an instance or an address; otherwise no
 reconcile touches it until the load balancer is enabled again or the cluster is deleted.
 */
module ServiceOff {
  import opened Prelude
  import opened Owners
  import opened CloudApi
  import opened Client
  import opened Reconcile
  import opened Protocol
  import opened Ownership
  import opened Fleet
  import opened Draining
  import opened Finalizing

  // What a reconcile with the load balancer disabled does, whether there is a control plane load balancer or not.

  /** Finding or creating the control plane load balancer. */
  predicate OnPrimary(pc: Pc) {
    match pc
    case AtLookup(s, goal) => s.Primary? && goal.Ensure?
    case AtHostCheck(s, _) => s.Primary?
    case AtScriptList(s, why) => s.Primary? && why.ForCreate?
    case AtScriptDelete(s, why, _) => s.Primary? && why.ForCreate?
    case AtScriptAdd(s, _) => s.Primary?
    case AtCreate(s, _, _) => s.Primary?
    case AtCreateCleanup(s, _) => s.Primary?
    case _ => false
  }

  predicate Off(m: Object) {
    !m.deleting && !m.serviceEnabled
  }

  predicate Remembered(m: Object) {
    m.service.instance.Some? || m.service.address != ""
  }

  predicate SameService(m: Object, n: Object) {
    n.service == m.service && n.serviceEnabled == m.serviceEnabled && n.deleting == m.deleting
  }

  lemma PrimaryCalls(o: Owner, r: Run)
    requires OnPrimary(r.pc)
    ensures !r.pc.Finished?
    ensures var call := NextCall(o, r); !call.ShutdownInstance? && !call.DeleteInstance?
  {
  }

  lemma PrimaryFound(o: Owner, m: Object, row: InstanceRow)
    requires o.Cluster?
    ensures var q := AfterFound(o, m, Primary, row); SameService(m, q.mem) && q == StartService(q.mem)
  {
  }

  /** Looking after the control plane load balancer leaves the service load balancer for later. */
  lemma PrimaryHandled(o: Owner, r: Run, a: Response)
    requires o.Cluster? && OnPrimary(r.pc)
    ensures var q := Handle(o, r, a);
            SameService(r.mem, q.mem) && (OnPrimary(q.pc) || q.pc.Finished? || q == StartService(q.mem))
  {
    match PartOf(r.pc)
    case LookingUp =>
      var l := LookupResult(o, r.mem, Primary, a);
      if l.Found? {
        PrimaryFound(o, r.mem, l.row);
      }
    case Creation => PrimaryCreation(o, r, a);
    case ScriptWork => PrimaryScripts(o, r, a);
  }

  lemma PrimaryCreation(o: Owner, r: Run, a: Response)
    requires o.Cluster? && OnPrimary(r.pc) && PartOf(r.pc).Creation?
    ensures var q := HandleCreation(o, r.mem, r.pc, a);
            SameService(r.mem, q.mem) && (OnPrimary(q.pc) || q.pc.Finished? || q == StartService(q.mem))
  {
    if r.pc.AtCreate? && a.OneInstance? {
      var row := a.row;
      PrimaryFound(o, r.mem, WithScript(row, r.pc.script));
    }
  }

  lemma PrimaryScripts(o: Owner, r: Run, a: Response)
    requires o.Cluster? && OnPrimary(r.pc) && PartOf(r.pc).ScriptWork?
    ensures var q := HandleScripts(o, r.mem, r.pc, a); SameService(r.mem, q.mem) && (OnPrimary(q.pc) || q.pc.Finished?)
  {
  }

  // A reconcile without errors.

  /** Somebody else's instance has the hostname. */
  ghost predicate Taken(c: Cloud, hostname: string) {
    exists id :: id in c.instances && c.instances[id].hostname == hostname
                 && !c.instances[id].managed && !Gone(c.instances[id].status)
  }

  ghost predicate SmoothCall(now: nat, o: Owner, x: Point, y: Point) {
    CleanCall(now, o)(x, y) && (x.run.pc.AtHostCheck? ==> !Taken(x.cloud, Hostname(o, x.run.pc.s)))
  }

  ghost predicate SmoothAt(now: nat, o: Owner, pts: seq<Point>, j: nat) {
    j + 1 < |pts| && SmoothCall(now, o, pts[j], pts[j + 1])
  }

  ghost predicate Smooth(now: nat, o: Owner, pts: seq<Point>) {
    forall j {:trigger SmoothAt(now, o, pts, j)} :: 0 <= j < |pts| - 1 ==> SmoothAt(now, o, pts, j)
  }

  /** A whole reconcile of m, point by point: every call is answered and carried out. */
  ghost predicate SmoothRun(now: nat, o: Owner, c: Cloud, m: Object, pts: seq<Point>) {
    && pts != [] && pts[0] == Point(c, Start(o, m)) && pts[|pts| - 1].run.pc.Finished?
    && Smooth(now, o, pts)
  }

  /** The call asks the cloud to shut the instance down or to delete it. */
  predicate Asks(o: Owner, x: Point, id: Id) {
    && !x.run.pc.Finished?
    && var call := NextCall(o, x.run); (call.ShutdownInstance? || call.DeleteInstance?) && call.id == id
  }

  /** The reconcile ends because the instance it found is being deleted, or was asked to be a moment ago. */
  predicate Waits(x: Point, y: Point, id: Id) {
    && y.run.pc.Finished?
    && match x.run.pc
       case AtLookup(s, goal) =>
         s.Service? && goal.Teardown? && id in x.cloud.instances && x.cloud.instances[id].status.Deleting?
       case AtDueCheck(s, found) => s.Service? && found.id == id
       case _ => false
  }

  ghost predicate TendsTo(o: Owner, pts: seq<Point>, id: Id, j: nat) {
    j < |pts| && (Asks(o, pts[j], id) || (j + 1 < |pts| && Waits(pts[j], pts[j + 1], id)))
  }

  /** The instance of the service load balancer: live, managed, and the one that the status can mean. */
  ghost predicate Serving(c: Cloud, o: Owner, rec: Option<Id>, id: Id) {
    && LiveFor(c, o, Service, id) && AtMostOneLive(c, o, Service) && c.instances[id].managed
    && (rec.Some? ==> rec.value == id)
  }

  ghost predicate Before(o: Owner, m: Object, id: Id, x: Point) {
    && o.Cluster? && WellFormed(x.cloud) && Off(x.run.mem) && SameService(m, x.run.mem)
    && Serving(x.cloud, o, m.service.instance, id)
  }

  lemma StillRunning(o: Owner, c: Cloud, call: Call, a: Response, d: Cloud, rec: Option<Id>, id: Id)
    requires WellFormed(c) && Serving(c, o, rec, id) && Answers(c, call, d, a)
    requires !call.ShutdownInstance? && !call.DeleteInstance?
    requires call.CreateInstance? ==> call.key != TagServiceLoadBalancer
    ensures Serving(d, o, rec, id)
  {
    assert d.instances[id] == c.instances[id];
    forall i | LiveFor(d, o, Service, i) ensures LiveFor(c, o, Service, i) {
    }
  }

  lemma PrimaryKeys(o: Owner, r: Run)
    requires o.Cluster? && OnPrimary(r.pc)
    ensures NextCall(o, r).CreateInstance? ==> NextCall(o, r).key != TagServiceLoadBalancer
  {
  }

  lemma NotTaken(c: Cloud, rows: seq<InstanceRow>, hostname: string)
    requires Lists(c, rows) && !Taken(c, hostname)
    ensures !HostnameTaken(rows, hostname)
  {
  }

  /** A point of the control plane part that an error-free reconcile can be at. */
  predicate Under(pc: Pc) {
    OnPrimary(pc) && !pc.AtCreateCleanup? && (pc.AtScriptDelete? ==> pc.scripts != [])
  }

  lemma ScriptsGoOn(now: nat, o: Owner, r: Run, c: Cloud, a: Response, d: Cloud)
    requires o.Cluster? && Under(r.pc) && PartOf(r.pc).ScriptWork? && Clean(now, o, r, c, a, d)
    ensures var pc := Handle(o, r, a).pc; Under(pc) && !pc.AtLookup? && !pc.AtHostCheck?
  {
    CleanScripts(now, o, r, c, a, d);
  }

  lemma CreationGoesOn(now: nat, o: Owner, r: Run, c: Cloud, a: Response, d: Cloud)
    requires o.Cluster? && Under(r.pc) && PartOf(r.pc).Creation?
    requires Clean(now, o, r, c, a, d) && (r.pc.AtHostCheck? ==> !Taken(c, Hostname(o, r.pc.s)))
    ensures var q := Handle(o, r, a); Under(q.pc) || q == StartService(q.mem)
  {
    if r.pc.AtHostCheck? {
      NotTaken(c, a.rows, Hostname(o, Primary));
    } else if r.pc.AtCreate? {
      var row := a.row;
      PrimaryFound(o, r.mem, WithScript(row, r.pc.script));
    }
  }

  /** Without errors the control plane part does not end the reconcile. */
  lemma PrimaryGoesOn(now: nat, o: Owner, r: Run, c: Cloud, a: Response, d: Cloud)
    requires o.Cluster? && Under(r.pc)
    requires Clean(now, o, r, c, a, d) && (r.pc.AtHostCheck? ==> !Taken(c, Hostname(o, r.pc.s)))
    ensures var q := Handle(o, r, a); Under(q.pc) || q == StartService(q.mem)
  {
    match PartOf(r.pc)
    case LookingUp =>
      var l := LookupResult(o, r.mem, Primary, a);
      if l.Found? {
        PrimaryFound(o, r.mem, l.row);
      }
    case ScriptWork => ScriptsGoOn(now, o, r, c, a, d);
    case Creation => CreationGoesOn(now, o, r, c, a, d);
  }

  /** One call of the control plane part. */
  lemma UnderStep(now: nat, o: Owner, m: Object, id: Id, x: Point, y: Point)
    requires Before(o, m, id, x) && Under(x.run.pc) && SmoothCall(now, o, x, y)
    ensures Before(o, m, id, y)
    ensures Under(y.run.pc) || y.run == StartService(y.run.mem)
  {
    var a :| Clean(now, o, x.run, x.cloud, a, y.cloud) && y.run == Handle(o, x.run, a);
    PrimaryCalls(o, x.run);
    PrimaryKeys(o, x.run);
    PrimaryHandled(o, x.run, a);
    PrimaryGoesOn(now, o, x.run, x.cloud, a, y.cloud);
    AnswersEvolve(x.cloud, NextCall(o, x.run), y.cloud, a);
    StillRunning(o, x.cloud, NextCall(o, x.run), a, y.cloud, m.service.instance, id);
  }

  // The service part: look up, ask or wait.

  lemma ServiceFound(now: nat, o: Owner, m: Object, id: Id, x: Point, y: Point)
    requires Before(o, m, id, x) && x.run.pc == AtLookup(Service, Teardown) && CleanCall(now, o)(x, y)
    ensures var row := InstanceRow(id, x.cloud.instances[id]);
            y == Point(x.cloud, AfterLookup(o, x.run.mem, Service, Teardown, Found(row)))
  {
    var a :| Clean(now, o, x.run, x.cloud, a, y.cloud) && y.run == Handle(o, x.run, a);
    if m.service.instance.Some? {
      assert a == OneInstance(InstanceRow(id, x.cloud.instances[id]));
    } else {
      TagLookupExact(x.cloud, a.rows, TagKeyOf(o, Service), TagValue(o));
      var f := FindByTag(a.rows, TagKeyOf(o, Service), TagValue(o));
      assert f.Some? && LiveFor(x.cloud, o, Service, f.value.id);
    }
  }

  /** The point after the lookup, when the cloud is not deleting the instance yet. */
  ghost predicate AtDue(x: Point, id: Id) {
    && id in x.cloud.instances && !x.cloud.instances[id].status.Deleting?
    && x.run.pc == AtDueCheck(Service, InstanceRow(id, x.cloud.instances[id]))
  }

  ghost predicate AtGet(x: Point, id: Id) {
    && id in x.cloud.instances && !x.cloud.instances[id].status.Deleting?
    && x.run.pc.AtDeleteGet? && x.run.pc.s.Service? && x.run.pc.id == id && x.run.pc.dwhy.TeardownAsk?
  }

  lemma ServiceLooked(now: nat, o: Owner, m: Object, id: Id, x: Point, y: Point)
    requires Before(o, m, id, x) && x.run.pc == AtLookup(Service, Teardown) && CleanCall(now, o)(x, y)
    ensures Waits(x, y, id) || (Before(o, m, id, y) && AtDue(y, id))
  {
    ServiceFound(now, o, m, id, x, y);
  }

  lemma DueOrNot(o: Owner, m: Object, row: InstanceRow, t: nat)
    requires o.Cluster?
    ensures var q := HandleDeletion(o, m, AtDueCheck(Service, row), Time(t));
            || q == Stop(m)
            || (q.pc == AtDeleteGet(Service, row.id, TeardownAsk(row.inst.status)) && SameService(m, q.mem))
  {
  }

  lemma CleanClock(now: nat, o: Owner, r: Run, c: Cloud, a: Response, d: Cloud)
    requires r.pc.AtDueCheck? && Clean(now, o, r, c, a, d)
    ensures a.Time? && d == c
    ensures Handle(o, r, a) == HandleDeletion(o, r.mem, AtDueCheck(r.pc.s, r.pc.found), Time(a.now))
  {
  }

  lemma ServiceDue(now: nat, o: Owner, m: Object, id: Id, x: Point, y: Point)
    requires Before(o, m, id, x) && AtDue(x, id) && CleanCall(now, o)(x, y)
    ensures Waits(x, y, id) || (Before(o, m, id, y) && AtGet(y, id))
  {
    var a :| Clean(now, o, x.run, x.cloud, a, y.cloud) && y.run == Handle(o, x.run, a);
    CleanClock(now, o, x.run, x.cloud, a, y.cloud);
    DueOrNot(o, x.run.mem, x.run.pc.found, a.now);
  }

  lemma SwitchAsks(o: Owner, m: Object, row: InstanceRow, why: DeleteWhy)
    requires row.inst.managed && !Gone(row.inst.status) && !row.inst.status.Deleting?
    ensures var q := DeleteSwitch(o, m, Service, row, why);
            q.mem == m && (q.pc.AtShutdown? || q.pc.AtDelete?) && q.pc.id == row.id && q.pc.dwhy == why
  {
  }

  lemma ServiceAsks(now: nat, o: Owner, m: Object, id: Id, x: Point, y: Point)
    requires Before(o, m, id, x) && AtGet(x, id) && CleanCall(now, o)(x, y)
    ensures Before(o, m, id, y) && Asks(o, y, id) && (y.run.pc.AtShutdown? || y.run.pc.AtDelete?)
    ensures y.run.pc.dwhy.TeardownAsk?
  {
    var a :| Clean(now, o, x.run, x.cloud, a, y.cloud) && y.run == Handle(o, x.run, a);
    CleanGet(now, o, x.run, x.cloud, a, y.cloud);
    GotAsks(o, m, id, x, y);
  }

  lemma GotAsks(o: Owner, m: Object, id: Id, x: Point, y: Point)
    requires Before(o, m, id, x) && AtGet(x, id) && y.cloud == x.cloud
    requires y.run == DeleteSwitch(o, x.run.mem, Service, InstanceRow(id, x.cloud.instances[id]), x.run.pc.dwhy)
    ensures Before(o, m, id, y) && Asks(o, y, id) && (y.run.pc.AtShutdown? || y.run.pc.AtDelete?)
    ensures y.run.pc.dwhy.TeardownAsk?
  {
    SwitchAsks(o, x.run.mem, InstanceRow(id, x.cloud.instances[id]), x.run.pc.dwhy);
  }

  lemma CleanGet(now: nat, o: Owner, r: Run, c: Cloud, a: Response, d: Cloud)
    requires r.pc.AtDeleteGet? && r.pc.id in c.instances && Clean(now, o, r, c, a, d)
    ensures d == c
    ensures Handle(o, r, a) == DeleteSwitch(o, r.mem, r.pc.s, InstanceRow(r.pc.id, c.instances[r.pc.id]), r.pc.dwhy)
  {
  }

  lemma ServiceNext(m: Object, r: Run)
    requires SameService(m, r.mem) && Off(r.mem) && r == StartService(r.mem)
    ensures r.pc == if Remembered(m) then AtLookup(Service, Teardown) else Finished
  {
  }

  lemma PrimaryFirst(o: Owner, c: Cloud, m: Object, id: Id)
    requires o.Cluster? && WellFormed(c) && Off(m) && Serving(c, o, m.service.instance, id)
    ensures var x := Point(c, Start(o, m)); Before(o, m, id, x) && (Under(x.run.pc) || x.run == StartService(x.run.mem))
  {
  }

  lemma {:induction false} UnderOn(now: nat, o: Owner, m: Object, id: Id, pts: seq<Point>, j: nat)
    requires j < |pts| && Before(o, m, id, pts[j]) && Under(pts[j].run.pc)
    requires pts[|pts| - 1].run.pc.Finished? && Smooth(now, o, pts)
    ensures j + 1 < |pts| && Before(o, m, id, pts[j + 1])
    ensures Under(pts[j + 1].run.pc) || pts[j + 1].run == StartService(pts[j + 1].run.mem)
  {
    assert SmoothAt(now, o, pts, j);
    UnderStep(now, o, m, id, pts[j], pts[j + 1]);
  }

  /** With an instance or an address in the status, the reconcile comes to ask for the deletion or to wait for it. */
  lemma {:induction false} ComesToAct(now: nat, o: Owner, m: Object, id: Id, pts: seq<Point>, j: nat) returns (k: nat)
    requires j < |pts| && Remembered(m) && Before(o, m, id, pts[j]) && pts[|pts| - 1].run.pc.Finished?
    requires Smooth(now, o, pts)
    requires Under(pts[j].run.pc) || pts[j].run == StartService(pts[j].run.mem)
    ensures TendsTo(o, pts, id, k)
    decreases |pts| - j
  {
    if Under(pts[j].run.pc) {
      UnderOn(now, o, m, id, pts, j);
      k := ComesToAct(now, o, m, id, pts, j + 1);
    } else {
      ServiceNext(m, pts[j].run);
      k := Acts(now, o, m, id, pts, j);
    }
  }

  lemma {:induction false} Acts(now: nat, o: Owner, m: Object, id: Id, pts: seq<Point>, j: nat) returns (k: nat)
    requires j < |pts| && Before(o, m, id, pts[j]) && pts[|pts| - 1].run.pc.Finished?
    requires Smooth(now, o, pts)
    requires pts[j].run.pc == AtLookup(Service, Teardown)
    ensures TendsTo(o, pts, id, k)
  {
    assert SmoothAt(now, o, pts, j);
    ServiceLooked(now, o, m, id, pts[j], pts[j + 1]);
    k := j;
    if !Waits(pts[k], pts[k + 1], id) {
      assert SmoothAt(now, o, pts, j + 1);
      ServiceDue(now, o, m, id, pts[j + 1], pts[j + 2]);
      k := j + 1;
      if !Waits(pts[k], pts[k + 1], id) {
        assert SmoothAt(now, o, pts, j + 2);
        ServiceAsks(now, o, m, id, pts[j + 2], pts[j + 3]);
        k := j + 3;
      }
    }
  }

  lemma UnderTendsNot(o: Owner, pts: seq<Point>, id: Id, j: nat)
    requires j < |pts| && (Under(pts[j].run.pc) || pts[j].run.pc.Finished?)
    ensures !TendsTo(o, pts, id, j)
  {
    if Under(pts[j].run.pc) {
      PrimaryCalls(o, pts[j].run);
    }
  }

  /** Without either, no call of it is about that instance. */
  lemma {:induction false} NeverActs(now: nat, o: Owner, m: Object, id: Id, pts: seq<Point>, j: nat)
    requires j < |pts| && !Remembered(m) && Before(o, m, id, pts[0])
    requires Under(pts[0].run.pc) || pts[0].run == StartService(pts[0].run.mem)
    requires Smooth(now, o, pts)
    ensures Before(o, m, id, pts[j]) && (Under(pts[j].run.pc) || pts[j].run.pc.Finished?)
  {
    if j > 0 {
      NeverActs(now, o, m, id, pts, j - 1);
      assert SmoothAt(now, o, pts, j - 1);
      StaysQuiet(now, o, m, id, pts[j - 1], pts[j]);
    } else if !Under(pts[0].run.pc) {
      ServiceNext(m, pts[0].run);
    }
  }

  lemma StaysQuiet(now: nat, o: Owner, m: Object, id: Id, x: Point, y: Point)
    requires !Remembered(m) && Before(o, m, id, x) && (Under(x.run.pc) || x.run.pc.Finished?)
    requires SmoothCall(now, o, x, y)
    ensures Before(o, m, id, y) && (Under(y.run.pc) || y.run.pc.Finished?)
  {
    UnderStep(now, o, m, id, x, y);
    if !Under(y.run.pc) {
      ServiceNext(m, y.run);
    }
  }

  lemma ActsIff(now: nat, o: Owner, c: Cloud, m: Object, id: Id, pts: seq<Point>)
    requires o.Cluster? && WellFormed(c) && Off(m) && Serving(c, o, m.service.instance, id)
    requires SmoothRun(now, o, c, m, pts)
    ensures (exists k :: TendsTo(o, pts, id, k)) <==> Remembered(m)
  {
    PrimaryFirst(o, c, m, id);
    if Remembered(m) {
      var k := ComesToAct(now, o, m, id, pts, 0);
    } else {
      forall k: nat ensures !TendsTo(o, pts, id, k) {
        if k < |pts| {
          NeverActs(now, o, m, id, pts, k);
          UnderTendsNot(o, pts, id, k);
        }
      }
    }
  }

  // There are reconciles without errors, unless the hostname is taken.

  predicate Provides(call: Call) {
    call.AddScript? || call.CreateInstance?
  }

  lemma ProvisionAnswered(now: nat, c: Cloud, call: Call) returns (a: Response, d: Cloud)
    requires Provides(call)
    ensures CleanAnswer(now, call, c, a, d)
  {
    match call
    case AddScript(name) =>
      a, d := NewId(c.next), c.(scripts := c.scripts[c.next := name], next := c.next + 1);
    case CreateInstance(hostname, key, value, _, script) =>
      var i := Instance(hostname, Status.Running, "", Some(script), true, map[key := value], None, []);
      a, d := OneInstance(InstanceRow(c.next, i)), c.(instances := c.instances[c.next := i], next := c.next + 1);
  }

  lemma UnderAnswered(now: nat, o: Owner, x: Point) returns (a: Response, d: Cloud)
    requires o.Cluster? && Under(x.run.pc)
    ensures Clean(now, o, x.run, x.cloud, a, d)
    ensures x.run.pc.AtScriptList? ==> a.Scripts? && |a.names| == |x.cloud.scripts|
  {
    var call := NextCall(o, x.run);
    if Provides(call) {
      a, d := ProvisionAnswered(now, x.cloud, call);
    } else {
      a, d := CallAnswered(now, x.cloud, call);
    }
  }

  /** How many calls are left. */
  function ToGo(x: Point): nat {
    match x.run.pc
    case AtLookup(s, _) => if s.Primary? then 12 + |x.cloud.scripts| else 4
    case AtHostCheck(_, _) => 11 + |x.cloud.scripts|
    case AtScriptList(_, _) => 10 + |x.cloud.scripts|
    case AtScriptDelete(_, _, ids) => 9 + |ids|
    case AtScriptAdd(_, _) => 9
    case AtCreate(_, _, _) => 8
    case AtDueCheck(_, _) => 3
    case AtDeleteGet(_, _, _) => 2
    case AtShutdown(_, _, _) => 1
    case AtDelete(_, _, _, _) => 1
    case _ => 0
  }

  ghost predicate InService(x: Point, id: Id) {
    || x.run.pc == AtLookup(Service, Teardown) || AtDue(x, id) || AtGet(x, id)
    || ((x.run.pc.AtShutdown? || x.run.pc.AtDelete?) && x.run.pc.id == id && x.run.pc.dwhy.TeardownAsk?)
  }

  ghost predicate Going(o: Owner, m: Object, id: Id, x: Point) {
    || x.run.pc.Finished?
    || (Before(o, m, id, x)
        && if Under(x.run.pc)
           then x.run.pc.AtLookup? || x.run.pc.AtHostCheck? ==> !Taken(x.cloud, Hostname(o, Primary))
           else InService(x, id))
  }

  lemma ScriptsNextShorter(o: Owner, m: Object, boot: Boot, ids: seq<Id>, c: Cloud)
    ensures var q := ScriptsNext(o, m, Primary, ForCreate(boot), ids); ToGo(Point(c, q)) <= 9 + |ids|
  {
  }

  lemma UnderScriptsShorter(now: nat, o: Owner, x: Point, a: Response, d: Cloud)
    requires o.Cluster? && Under(x.run.pc) && PartOf(x.run.pc).ScriptWork? && Clean(now, o, x.run, x.cloud, a, d)
    requires x.run.pc.AtScriptList? ==> a.Scripts? && |a.names| <= |x.cloud.scripts|
    ensures ToGo(Point(d, Handle(o, x.run, a))) < ToGo(x)
  {
    CleanScripts(now, o, x.run, x.cloud, a, d);
    if x.run.pc.AtScriptList? {
      ScriptsNamedFewer(a.names, Hostname(o, Primary));
      ScriptsNextShorter(o, x.run.mem, x.run.pc.swhy.boot, ScriptsNamed(a.names, Hostname(o, Primary)), d);
    } else {
      ScriptsNextShorter(o, x.run.mem, x.run.pc.swhy.boot, x.run.pc.scripts[1..], d);
    }
  }

  lemma UnderShorter(now: nat, o: Owner, x: Point, a: Response, d: Cloud)
    requires o.Cluster? && Under(x.run.pc) && !PartOf(x.run.pc).ScriptWork? && Clean(now, o, x.run, x.cloud, a, d)
    ensures var q := Handle(o, x.run, a);
            && (Under(q.pc) ==> ToGo(Point(d, q)) < ToGo(x))
            && (q.pc.AtHostCheck? ==> d == x.cloud && x.run.pc.AtLookup?) && !(q.pc.AtLookup? && Under(q.pc))
  {
    if x.run.pc.AtLookup? {
      var l := LookupResult(o, x.run.mem, Primary, a);
      if l.Found? {
        PrimaryFound(o, x.run.mem, l.row);
      }
    } else if x.run.pc.AtCreate? {
      var row := a.row;
      PrimaryFound(o, x.run.mem, WithScript(row, x.run.pc.script));
    }
  }

  lemma UnderScriptsMove(now: nat, o: Owner, m: Object, id: Id, x: Point, a: Response, y: Point)
    requires PartOf(x.run.pc).ScriptWork? && Under(x.run.pc) && Clean(now, o, x.run, x.cloud, a, y.cloud)
    requires y.run == Handle(o, x.run, a)
    requires x.run.pc.AtScriptList? ==> a.Scripts? && |a.names| <= |x.cloud.scripts|
    requires Before(o, m, id, y)
    ensures Going(o, m, id, y) && ToGo(y) < ToGo(x)
  {
    ScriptsGoOn(now, o, x.run, x.cloud, a, y.cloud);
    UnderScriptsShorter(now, o, x, a, y.cloud);
    PastChecks(o, m, id, y);
  }

  lemma PastChecks(o: Owner, m: Object, id: Id, y: Point)
    requires Before(o, m, id, y) && Under(y.run.pc) && !y.run.pc.AtLookup? && !y.run.pc.AtHostCheck?
    ensures Going(o, m, id, y)
  {
  }

  lemma UnderMoves(now: nat, o: Owner, m: Object, id: Id, x: Point, a: Response, y: Point)
    requires Going(o, m, id, x) && Under(x.run.pc) && !PartOf(x.run.pc).ScriptWork?
    requires Clean(now, o, x.run, x.cloud, a, y.cloud) && y.run == Handle(o, x.run, a)
    requires Before(o, m, id, y) && (Under(y.run.pc) || y.run == StartService(y.run.mem))
    ensures Going(o, m, id, y) && ToGo(y) < ToGo(x)
  {
    UnderShorter(now, o, x, a, y.cloud);
    if Under(y.run.pc) {
      StillUnder(o, m, id, x, y);
    } else {
      ServiceNext(m, y.run);
      StillInService(o, m, id, y);
    }
  }

  lemma StillUnder(o: Owner, m: Object, id: Id, x: Point, y: Point)
    requires Going(o, m, id, x) && Under(x.run.pc) && !PartOf(x.run.pc).ScriptWork?
    requires Before(o, m, id, y) && Under(y.run.pc) && !y.run.pc.AtLookup?
    requires y.run.pc.AtHostCheck? ==> y.cloud == x.cloud && x.run.pc.AtLookup?
    ensures Going(o, m, id, y)
  {
  }

  /** Each call of the control plane part can be answered without an error. */
  lemma UnderGoesOn(now: nat, o: Owner, m: Object, id: Id, x: Point) returns (y: Point)
    requires Going(o, m, id, x) && Under(x.run.pc)
    ensures SmoothCall(now, o, x, y) && Going(o, m, id, y) && ToGo(y) < ToGo(x)
  {
    var a, d := UnderAnswered(now, o, x);
    y := Point(d, Handle(o, x.run, a));
    assert Clean(now, o, x.run, x.cloud, a, y.cloud);
    UnderStep(now, o, m, id, x, y);
    if PartOf(x.run.pc).ScriptWork? {
      UnderScriptsMove(now, o, m, id, x, a, y);
    } else {
      UnderMoves(now, o, m, id, x, a, y);
    }
  }

  lemma RequestEnds(o: Owner, r: Run, a: Response)
    requires (r.pc.AtShutdown? || r.pc.AtDelete?) && r.pc.dwhy.TeardownAsk?
    ensures Handle(o, r, a).pc.Finished?
  {
  }

  lemma ServiceCalls(o: Owner, m: Object, id: Id, x: Point)
    requires Before(o, m, id, x) && InService(x, id)
    ensures !x.run.pc.Finished?
    ensures var call := NextCall(o, x.run);
            && (Reads(call) || Removes(call))
            && (call.ShutdownInstance? && call.id in x.cloud.instances ==> !Gone(x.cloud.instances[call.id].status))
  {
  }

  lemma StillInService(o: Owner, m: Object, id: Id, y: Point)
    requires y.run.pc.Finished? || (Before(o, m, id, y) && InService(y, id))
    ensures Going(o, m, id, y)
  {
  }

  lemma ServiceShorter(x: Point, y: Point, id: Id)
    requires y.run.pc.Finished? || InService(y, id)
    requires || (x.run.pc == AtLookup(Service, Teardown) && (y.run.pc.Finished? || AtDue(y, id)))
             || (x.run.pc.AtDueCheck? && (y.run.pc.Finished? || AtGet(y, id)))
             || (x.run.pc.AtDeleteGet? && (y.run.pc.AtShutdown? || y.run.pc.AtDelete?))
    ensures ToGo(y) < ToGo(x)
  {
  }

  lemma ServiceMoves(now: nat, o: Owner, m: Object, id: Id, x: Point, y: Point)
    requires Before(o, m, id, x) && (x.run.pc == AtLookup(Service, Teardown) || AtDue(x, id) || AtGet(x, id))
    requires CleanCall(now, o)(x, y)
    ensures y.run.pc.Finished? || (Before(o, m, id, y) && InService(y, id))
    ensures ToGo(y) < ToGo(x)
  {
    if x.run.pc.AtLookup? {
      ServiceLooked(now, o, m, id, x, y);
    } else if x.run.pc.AtDueCheck? {
      ServiceDue(now, o, m, id, x, y);
    } else {
      ServiceAsks(now, o, m, id, x, y);
    }
    ServiceShorter(x, y, id);
  }

  /** So can each call of the service part. */
  lemma ServiceGoesOn(now: nat, o: Owner, m: Object, id: Id, x: Point) returns (y: Point)
    requires Before(o, m, id, x) && InService(x, id)
    ensures SmoothCall(now, o, x, y) && Going(o, m, id, y) && ToGo(y) < ToGo(x)
  {
    ServiceCalls(o, m, id, x);
    var a, d := CallAnswered(now, x.cloud, NextCall(o, x.run));
    y := Point(d, Handle(o, x.run, a));
    assert Clean(now, o, x.run, x.cloud, a, y.cloud);
    if x.run.pc.AtShutdown? || x.run.pc.AtDelete? {
      RequestEnds(o, x.run, a);
    } else {
      ServiceMoves(now, o, m, id, x, y);
    }
    StillInService(o, m, id, y);
  }

  lemma {:induction false} SmoothCons(now: nat, o: Owner, x: Point, rest: seq<Point>)
    requires rest != [] && Smooth(now, o, rest) && SmoothCall(now, o, x, rest[0])
    ensures Smooth(now, o, [x] + rest)
  {
    var pts := [x] + rest;
    forall j | 0 <= j < |pts| - 1 ensures SmoothAt(now, o, pts, j) {
      if j > 0 {
        assert SmoothAt(now, o, rest, j - 1);
      }
    }
  }

  lemma GoesOn(now: nat, o: Owner, m: Object, id: Id, x: Point) returns (y: Point)
    requires Going(o, m, id, x) && !x.run.pc.Finished?
    ensures SmoothCall(now, o, x, y) && Going(o, m, id, y) && ToGo(y) < ToGo(x)
  {
    if Under(x.run.pc) {
      y := UnderGoesOn(now, o, m, id, x);
    } else {
      y := ServiceGoesOn(now, o, m, id, x);
    }
  }

  /** From every such point the reconcile can be finished without errors. */
  lemma {:induction false} CanFinish(now: nat, o: Owner, m: Object, id: Id, x: Point) returns (pts: seq<Point>)
    requires Going(o, m, id, x)
    ensures pts != [] && pts[0] == x && pts[|pts| - 1].run.pc.Finished? && |pts| <= ToGo(x) + 1
    ensures Smooth(now, o, pts)
    decreases ToGo(x)
  {
    pts := [x];
    if !x.run.pc.Finished? {
      var y := GoesOn(now, o, m, id, x);
      var rest := CanFinish(now, o, m, id, y);
      pts := [x] + rest;
      SmoothCons(now, o, x, rest);
    }
  }

  /** A reconcile without errors exists unless another instance has the hostname of the control plane load balancer. */
  lemma SmoothRunExists(now: nat, o: Owner, c: Cloud, m: Object, id: Id) returns (pts: seq<Point>)
    requires o.Cluster? && WellFormed(c) && Off(m) && Serving(c, o, m.service.instance, id)
    requires !Taken(c, Hostname(o, Primary))
    ensures SmoothRun(now, o, c, m, pts)
  {
    PrimaryFirst(o, c, m, id);
    var x := Point(c, Start(o, m));
    if !Under(x.run.pc) {
      ServiceNext(m, x.run);
    }
    pts := CanFinish(now, o, m, id, x);
  }

  // In executions.

  lemma ServingIn(states: seq<System>, acts: seq<Action>, i: nat, o: Owner, id: Id)
    requires Execution(states, acts) && i < |states| && o in states[0].owners && TaggedManaged(states[0].cloud, o)
    requires o.Cluster? && o in states[i].owners && states[i].owners[o].stored.Some?
    requires LiveFor(states[i].cloud, o, Service, id)
    ensures WellFormed(states[i].cloud)
    ensures Serving(states[i].cloud, o, states[i].owners[o].stored.value.service.instance, id)
  {
    var c, x := states[i].cloud, states[i].owners[o];
    ManagedAlways(states, acts, i, o);
    ExecutionInv(states, acts, i);
    assert OwnerInv(c, o, x) && HasSlot(o, Service);
    assert SlotInv(c, o, x, Service) && CarriesTagOf(o, c.instances[id]);
  }

  /**
   In every execution, of a cluster that is not being deleted and whose service load balancer is
   disabled while its instance is live: a reconcile without errors asks for the deletion of that
   instance, or waits for one, if and only if the status has an instance or an address; whether there
   is a control plane load balancer or not.
   */
  lemma DisablingActsIff(states: seq<System>, acts: seq<Action>, i: nat, o: Owner, id: Id, now: nat, pts: seq<Point>)
    requires Execution(states, acts) && i < |states| && o in states[0].owners && TaggedManaged(states[0].cloud, o)
    requires o.Cluster? && o in states[i].owners && states[i].owners[o].stored.Some?
    requires Off(states[i].owners[o].stored.value)
    requires LiveFor(states[i].cloud, o, Service, id)
    requires SmoothRun(now, o, states[i].cloud, states[i].owners[o].stored.value, pts)
    ensures (exists k :: TendsTo(o, pts, id, k)) <==> Remembered(states[i].owners[o].stored.value)
  {
    ServingIn(states, acts, i, o, id);
    ActsIff(now, o, states[i].cloud, states[i].owners[o].stored.value, id, pts);
  }

  // Forgotten: no reconcile touches the instance any more.

  /** The object is there, is not being deleted, and its service load balancer is disabled. */
  predicate Idle(z: System, o: Owner) {
    o in z.owners && z.owners[o].stored.Some? && Off(z.owners[o].stored.value)
  }

  ghost predicate Forgotten(x: OwnerState) {
    && x.stored.Some? && Off(x.stored.value) && !Remembered(x.stored.value)
    && (x.run.Some? ==>
          && Off(x.run.value.mem) && !Remembered(x.run.value.mem)
          && (OnPrimary(x.run.value.pc) || x.run.value.pc.Finished?))
  }

  lemma StaysForgotten(o: Owner, c: Cloud, x: OwnerState, e: Event, d: Cloud, y: OwnerState)
    requires o.Cluster? && Forgotten(x) && Step(o, c, x, e, d, y) && y.stored.Some? && Off(y.stored.value)
    ensures Forgotten(y)
  {
    if e.Api? {
      PrimaryHandled(o, x.run.value, e.answer);
    }
  }

  lemma ForgottenUntouched(o: Owner, c: Cloud, x: OwnerState, e: Event, d: Cloud, y: OwnerState, id: Id)
    requires WellFormed(c) && o.Cluster? && Forgotten(x) && Step(o, c, x, e, d, y) && id in c.instances
    ensures id in d.instances && d.instances[id] == c.instances[id]
    ensures e.Api? ==> !Asks(o, Point(c, x.run.value), id)
  {
    if e.Api? {
      PrimaryCalls(o, x.run.value);
    }
  }

  /** The step leaves every instance as it is. */
  ghost predicate LeavesInstances(a: System, b: System) {
    forall id :: id in a.cloud.instances ==>
      id in b.cloud.instances && b.cloud.instances[id] == a.cloud.instances[id]
  }

  lemma ForgottenStep(a: System, act: Action, b: System, o: Owner)
    requires SystemInv(a) && Next(a, act, b) && o.Cluster? && o in a.owners && Forgotten(a.owners[o])
    ensures Idle(b, o) ==> Forgotten(b.owners[o])
    ensures act.Act? && act.owner == o ==> LeavesInstances(a, b)
  {
    assert OwnerInv(a.cloud, o, a.owners[o]);
    if act.Act? && act.owner == o {
      if Idle(b, o) {
        StaysForgotten(o, a.cloud, a.owners[o], act.event, b.cloud, b.owners[o]);
      }
      forall id | id in a.cloud.instances
        ensures id in b.cloud.instances && b.cloud.instances[id] == a.cloud.instances[id]
      {
        ForgottenUntouched(o, a.cloud, a.owners[o], act.event, b.cloud, b.owners[o], id);
      }
    }
  }

  lemma ForgottenOn(states: seq<System>, acts: seq<Action>, i: nat, k: nat, o: Owner)
    requires Execution(states, acts) && i < |acts| && k == i + 1 && o.Cluster?
    requires o in states[i].owners && Forgotten(states[i].owners[o])
    ensures Idle(states[k], o) ==> Forgotten(states[k].owners[o])
    ensures acts[i].Act? && acts[i].owner == o ==> LeavesInstances(states[i], states[k])
  {
    ExecutionStep(states, acts, i, k);
    ForgottenStep(states[i], acts[i], states[k], o);
  }

  lemma {:induction false} ForgottenAlong(states: seq<System>, acts: seq<Action>, i: nat, j: nat, o: Owner)
    requires Execution(states, acts) && i <= j < |states| && o.Cluster? && IdleThroughout(states, o, i, j)
    requires o in states[i].owners && Forgotten(states[i].owners[o])
    ensures o in states[j].owners && Forgotten(states[j].owners[o])
    decreases j
  {
    if i < j {
      ForgottenAlong(states, acts, i, j - 1, o);
      assert Idle(states[j], o);
      ForgottenOn(states, acts, j - 1, j, o);
    }
  }

  ghost predicate IdleThroughout(states: seq<System>, o: Owner, i: nat, j: nat)
    requires j < |states|
  {
    forall k {:trigger Idle(states[k], o)} :: i <= k <= j ==> Idle(states[k], o)
  }

  /**
   With neither an instance nor an address in the status, and no reconcile in flight: however the
   execution goes on, no step of the cluster touches any instance there is, until its service load
   balancer is enabled again or it is deleted.
   */
  lemma {:induction false} DisablingForgets(states: seq<System>, acts: seq<Action>, i: nat, j: nat, o: Owner)
    requires Execution(states, acts) && i <= j < |states| && o.Cluster? && IdleThroughout(states, o, i, j)
    requires Idle(states[i], o) && states[i].owners[o].run.None? && !Remembered(states[i].owners[o].stored.value)
    ensures o in states[j].owners && Forgotten(states[j].owners[o])
    ensures j < |acts| && acts[j].Act? && acts[j].owner == o ==> LeavesInstances(states[j], states[j + 1])
  {
    ForgottenAlong(states, acts, i, j, o);
    if j < |acts| {
      ForgottenOn(states, acts, j, j + 1, o);
    }
  }
}
