/**
 One reconcile of a machine or a cluster, cut at its cloud calls. `Pc` names the call about to be
 made, `NextCall` gives it, and `Handle` runs the code from one answer to the next call. Between two
 calls the code only touches the object in memory.
 */
module Reconcile {
  import opened Prelude
  import opened Owners
  import opened CloudApi
  import opened Client

  /** What the status remembers about one instance. */
  datatype Record = Record(instance: Option<Id>, script: Option<Id>, address: string)

  const NO_RECORD := Record(None, None, "")

  /** `spec.osVolumeID`: a name, which may also have the shape of a volume number. */
  datatype Source = NoSource | Source(asId: Option<Id>, name: string)

  /** The delete-requested-at annotation: the state seen and the time, in whole seconds. */
  datatype Asked = Asked(state: Status, at: nat)

  datatype Object = Object(
    deleting: bool, finalizer: bool, asked: map<Slot, Asked>,
    primaryEnabled: bool, serviceEnabled: bool, source: Source,
    primary: Record, service: Record,
    osVolume: Option<Id>, osVolumeReady: bool,
    provisioned: bool, ready: bool, state: Status)

  function Rec(m: Object, s: Slot): Record {
    if s.Primary? then m.primary else m.service
  }

  function SetRec(m: Object, s: Slot, r: Record): Object {
    if s.Primary? then m.(primary := r) else m.(service := r)
  }

  datatype Goal = Ensure | Resync | Teardown

  /** Why scripts are deleted by name. */
  datatype ScriptWhy = ForCreate(boot: Boot) | ForTeardown

  /** Who asked for an instance to be deleted. */
  datatype DeleteWhy = NoCapacityRetry | TeardownAsk(seen: Status)

  datatype PurgeWhy = InDelete(why: DeleteWhy) | InTeardown

  datatype Pc =
    | AtLookup(s: Slot, goal: Goal)
    | AtVolumeLookup | AtSourceGet | AtSourceList | AtClone(from: Id)
    | AtCloneTag(vol: Id) | AtVolumeTag(row: VolumeRow)
    | AtHostCheck(s: Slot, boot: Boot)
    | AtScriptList(s: Slot, swhy: ScriptWhy)
    | AtScriptDelete(s: Slot, swhy: ScriptWhy, scripts: seq<Id>)
    | AtScriptAdd(s: Slot, boot: Boot)
    | AtCreate(s: Slot, boot: Boot, script: Id)
    | AtCreateCleanup(s: Slot, script: Id)
    | AtOsTagGet(found: InstanceRow) | AtOsTagSet(found: InstanceRow)
    | AtDueCheck(s: Slot, found: InstanceRow)
    | AtDeleteGet(s: Slot, id: Id, dwhy: DeleteWhy)
    | AtShutdown(s: Slot, id: Id, dwhy: DeleteWhy)
    | AtDelete(s: Slot, id: Id, vols: seq<Id>, dwhy: DeleteWhy)
    | AtPurgeGet(s: Slot, id: Id, pwhy: PurgeWhy)
    | AtPurgeTrash(s: Slot, id: Id, vols: seq<Id>, pwhy: PurgeWhy)
    | AtPurge(s: Slot, id: Id, vols: seq<Id>, n: nat, trash: set<Id>, pending: nat, pwhy: PurgeWhy)
    | AtScriptForget(s: Slot)
    | AtOsGet | AtOsCheck | AtOsDelete
    | Finished

  datatype Run = Run(mem: Object, pc: Pc)

  const SECOND: nat := 1_000_000_000
  const DELETE_RETRY: nat := 20 * SECOND

  predicate RequestDue(m: Object, s: Slot, seen: Status, now: nat) {
    !(s in m.asked && m.asked[s].state == seen && now - m.asked[s].at * SECOND < DELETE_RETRY)
  }

  function NoteRequest(m: Object, s: Slot, seen: Status, now: nat): Object {
    m.(asked := m.asked[s := Asked(seen, now / SECOND)])
  }

  // Ways to stop before the deferred patch.

  function Stop(m: Object): Run {
    Run(m, Finished)
  }

  function StopNotReady(m: Object): Run {
    Run(m.(ready := false), Finished)
  }

  // The order of the parts.

  function Start(o: Owner, m: Object): Run {
    if m.deleting then
      if o.Machine? then Run(m.(ready := false), AtLookup(Primary, Teardown))
      else Run(m, AtLookup(Service, Teardown))
    else if o.Machine? then
      Run(m, AtLookup(Primary, if m.provisioned then Resync else Ensure))
    else if m.primaryEnabled then Run(m, AtLookup(Primary, Ensure))
    else StartService(m)
  }

  function StartService(m: Object): Run {
    if m.serviceEnabled then Run(m, AtLookup(Service, Ensure))
    else if m.service.instance.Some? || m.service.address != "" then Run(m, AtLookup(Service, Teardown))
    else Stop(m)
  }

  function Release(m: Object): Run {
    Stop(m.(finalizer := false))
  }

  // Finding the instance.

  datatype Lookup = LookupFailed | Nothing | Found(row: InstanceRow)

  function Stub(id: Id): InstanceRow {
    InstanceRow(id, Instance("", NotFound, "", None, false, map[], None, []))
  }

  /** Only the control plane load balancer accepts a gone instance found by its tag. */
  predicate KeepsGone(o: Owner, s: Slot) {
    o.Cluster? && s.Primary?
  }

  function LookupResult(o: Owner, m: Object, s: Slot, r: Response): Lookup {
    if Rec(m, s).instance.Some? then
      match r
      case OneInstance(row) => Found(row)
      case Missing => Found(Stub(Rec(m, s).instance.value))
      case _ => LookupFailed
    else
      match r
      case Instances(rows) =>
        var f := FindByTag(rows, TagKeyOf(o, s), TagValue(o));
        if f.None? || (Gone(f.value.inst.status) && !KeepsGone(o, s)) then Nothing else Found(f.value)
      case _ => LookupFailed
  }

  function AfterLookup(o: Owner, m: Object, s: Slot, goal: Goal, l: Lookup): Run {
    if l.LookupFailed? then Stop(m)
    else match goal
      case Ensure =>
        if l.Found? then AfterFound(o, m, s, l.row)
        else if o.Machine? && m.source.Source? then Run(m, AtVolumeLookup)
        else Run(m, AtHostCheck(s, FromImage))
      case Resync =>
        var st := if l.Found? then l.row.inst.status else NotFound;
        Stop(m.(state := st, ready := st.Running?))
      case Teardown =>
        if l.Found? && !Gone(l.row.inst.status) then
          if l.row.inst.status.Deleting? then StopWaiting(o, m, l.row.inst.status)
          else Run(m, AtDueCheck(s, l.row))
        else if l.Found? && !l.row.inst.status.NotFound? then Run(m, AtPurgeGet(s, l.row.id, InTeardown))
        else StartScripts(o, m, s)
  }

  function StopWaiting(o: Owner, m: Object, seen: Status): Run {
    Stop(if o.Machine? then m.(state := seen) else m)
  }

  // The instance is known: record it and act on its state.

  function Note(m: Object, s: Slot, row: InstanceRow): Object {
    var r := Rec(m, s);
    SetRec(m, s, r.(instance := Some(row.id), script := if row.inst.script.Some? then row.inst.script else r.script))
  }

  function NoteAddress(m: Object, s: Slot, row: InstanceRow): Object {
    if row.inst.status.Running? && row.inst.ip != "" then SetRec(m, s, Rec(m, s).(address := row.inst.ip)) else m
  }

  function AfterFound(o: Owner, m: Object, s: Slot, row: InstanceRow): Run {
    if o.Machine? then
      var m' := Note(m, s, row).(state := row.inst.status);
      if m'.osVolume.Some? && !m'.osVolumeReady then Run(m', AtOsTagGet(row)) else Settle(m', row)
    else
      var m' := NoteAddress(Note(m, s, row), s, row);
      if s.Primary? then StartService(m') else Stop(m')
  }

  function Settle(m: Object, row: InstanceRow): Run {
    match row.inst.status
    case Running => Stop(m.(ready := true, provisioned := true))
    case NoCapacity => Run(m, AtDeleteGet(Primary, row.id, NoCapacityRetry))
    case _ => StopNotReady(m)
  }

  // The boot volume of a machine.

  function SourceStart(m: Object): Run {
    if m.source.Source? && m.source.asId.Some? then Run(m, AtSourceGet) else Run(m, AtSourceList)
  }

  function StopVolume(m: Object): Run {
    Stop(m.(osVolumeReady := false))
  }

  function VolumeKnown(m: Object, row: VolumeRow): Run {
    var m' := m.(osVolume := Some(row.id));
    if row.vol.managed then VolumeSettled(m', row) else Run(m', AtVolumeTag(row))
  }

  function VolumeSettled(m: Object, row: VolumeRow): Run {
    var m' := m.(osVolumeReady := (row.vol.status.Detached? || row.vol.status.Attached?) && row.vol.managed);
    if row.vol.status.Detached? then Run(m', AtHostCheck(Primary, FromVolume(row.id))) else StopNotReady(m')
  }

  // Deleting scripts by name, for a new instance or for good.

  function ScriptsNext(o: Owner, m: Object, s: Slot, why: ScriptWhy, ids: seq<Id>): Run {
    if ids != [] then Run(m, AtScriptDelete(s, why, ids))
    else match why
      case ForCreate(boot) => Run(m, AtScriptAdd(s, boot))
      case ForTeardown => AfterScripts(o, m, s)
  }

  function StopScripts(m: Object, why: ScriptWhy): Run {
    if why.ForCreate? then StopNotReady(m) else Stop(m)
  }

  function StartScripts(o: Owner, m: Object, s: Slot): Run {
    if Rec(m, s).script.Some? then Run(m, AtScriptForget(s))
    else if o.Cluster? && s.Primary? && !m.primaryEnabled then AfterScripts(o, m, s)
    else Run(m, AtScriptList(s, ForTeardown))
  }

  /** Everything of slot `s` is torn down. */
  function AfterScripts(o: Owner, m: Object, s: Slot): Run {
    if o.Machine? then
      if m.osVolume.Some? then Run(m, AtOsGet) else Release(m)
    else if !m.deleting then Stop(m.(service := NO_RECORD))
    else if s.Service? then Run(m, AtLookup(Primary, Teardown))
    else Release(m)
  }

  // Two-phase deletion of an instance.

  function AfterDelete(o: Owner, m: Object, why: DeleteWhy): Run {
    match why
    case NoCapacityRetry => StopNotReady(m.(primary := m.primary.(instance := None)))
    case TeardownAsk(seen) => StopWaiting(o, m, seen)
  }

  function DeleteSwitch(o: Owner, m: Object, s: Slot, row: InstanceRow, why: DeleteWhy): Run {
    if !row.inst.managed then Stop(m)
    else match row.inst.status
      case Discontinued => Run(m, AtPurgeGet(s, row.id, InDelete(why)))
      case Deleted => Run(m, AtPurgeGet(s, row.id, InDelete(why)))
      case Deleting => AfterDelete(o, m, why)
      case Offline => Run(m, AtDelete(s, row.id, VolumesOf(row.inst), why))
      case _ => Run(m, AtShutdown(s, row.id, why))
  }

  function PurgeNext(o: Owner, m: Object, s: Slot, id: Id, vols: seq<Id>, n: nat, trash: set<Id>, pending: nat,
      why: PurgeWhy): Run {
    if n < |vols| then Run(m, AtPurge(s, id, vols, n, trash, pending, why))
    else AfterPurge(o, m, s, pending, why)
  }

  function AfterPurge(o: Owner, m: Object, s: Slot, pending: nat, why: PurgeWhy): Run {
    match why
    case InDelete(dwhy) => AfterDelete(o, m, dwhy)
    case InTeardown => if pending > 0 then Stop(m) else StartScripts(o, m, s)
  }

  /** The call made at `pc`. */
  function NextCall(o: Owner, r: Run): Call
    requires !r.pc.Finished?
  {
    match r.pc
    case AtLookup(s, _) =>
      if Rec(r.mem, s).instance.Some? then GetInstance(Rec(r.mem, s).instance.value) else ListInstances
    case AtVolumeLookup => if r.mem.osVolume.Some? then GetVolume(r.mem.osVolume.value) else ListVolumes
    case AtSourceGet =>
      if r.mem.source.Source? && r.mem.source.asId.Some? then GetVolume(r.mem.source.asId.value) else ListVolumes
    case AtSourceList => ListVolumes
    case AtClone(from) => CloneVolume(from, CloneName(o))
    case AtCloneTag(vol) => TagVolume(vol)
    case AtVolumeTag(row) => TagVolume(row.id)
    case AtHostCheck(_, _) => ListInstances
    case AtScriptList(_, _) => ListScripts
    case AtScriptDelete(_, _, ids) => if ids != [] then DeleteScript(ids[0]) else ListScripts
    case AtScriptAdd(s, _) => AddScript(Hostname(o, s))
    case AtCreate(s, boot, script) => CreateInstance(Hostname(o, s), TagKeyOf(o, s), TagValue(o), boot, script)
    case AtCreateCleanup(_, script) => DeleteScript(script)
    case AtOsTagGet(_) => if r.mem.osVolume.Some? then GetVolume(r.mem.osVolume.value) else ListVolumes
    case AtOsTagSet(_) => if r.mem.osVolume.Some? then TagVolume(r.mem.osVolume.value) else ListVolumes
    case AtDueCheck(_, _) => ReadClock
    case AtDeleteGet(_, id, _) => GetInstance(id)
    case AtShutdown(_, id, _) => ShutdownInstance(id)
    case AtDelete(_, id, vols, _) => DeleteInstance(id, vols)
    case AtPurgeGet(_, id, _) => GetInstance(id)
    case AtPurgeTrash(_, _, _, _) => ListTrash
    case AtPurge(_, _, vols, n, trash, _, _) =>
      if n < |vols| then (if vols[n] in trash then DestroyVolume(vols[n]) else GetVolume(vols[n])) else ListTrash
    case AtScriptForget(s) =>
      if Rec(r.mem, s).script.Some? then DeleteScript(Rec(r.mem, s).script.value) else ListScripts
    case AtOsGet => if r.mem.osVolume.Some? then GetVolume(r.mem.osVolume.value) else ListVolumes
    case AtOsCheck => if r.mem.osVolume.Some? then GetVolume(r.mem.osVolume.value) else ListVolumes
    case AtOsDelete => if r.mem.osVolume.Some? then DestroyVolume(r.mem.osVolume.value) else ListVolumes
  }

  /** The part of the program a call belongs to. */
  datatype Part = LookingUp | VolumeWork | Creation | ScriptWork | Deletion | Purging | CloneRemoval | Over

  function PartOf(pc: Pc): Part {
    match pc
    case AtLookup(_, _) => LookingUp
    case AtVolumeLookup => VolumeWork
    case AtSourceGet => VolumeWork
    case AtSourceList => VolumeWork
    case AtClone(_) => VolumeWork
    case AtCloneTag(_) => VolumeWork
    case AtVolumeTag(_) => VolumeWork
    case AtOsTagGet(_) => VolumeWork
    case AtOsTagSet(_) => VolumeWork
    case AtHostCheck(_, _) => Creation
    case AtScriptAdd(_, _) => Creation
    case AtCreate(_, _, _) => Creation
    case AtCreateCleanup(_, _) => Creation
    case AtScriptList(_, _) => ScriptWork
    case AtScriptDelete(_, _, _) => ScriptWork
    case AtScriptForget(_) => ScriptWork
    case AtDueCheck(_, _) => Deletion
    case AtDeleteGet(_, _, _) => Deletion
    case AtShutdown(_, _, _) => Deletion
    case AtDelete(_, _, _, _) => Deletion
    case AtPurgeGet(_, _, _) => Purging
    case AtPurgeTrash(_, _, _, _) => Purging
    case AtPurge(_, _, _, _, _, _, _) => Purging
    case AtOsGet => CloneRemoval
    case AtOsCheck => CloneRemoval
    case AtOsDelete => CloneRemoval
    case Finished => Over
  }

  /** Cloning the boot volume and keeping it tagged. */
  function HandleVolume(o: Owner, m: Object, pc: Pc, a: Response): Run {
    match pc
    case AtVolumeLookup =>
      if m.osVolume.Some? then
        match a {
        case OneVolume(row) => VolumeKnown(m, row)
        case Missing => SourceStart(m)
        case _ => Stop(m)
        }
      else
        match a {
        case Volumes(rows) =>
          var f := VolumeNamed(rows, CloneName(o));
          if f.Some? then VolumeKnown(m, f.value) else SourceStart(m)
        case _ => Stop(m)
        }
    case AtSourceGet =>
      match a {
      case OneVolume(row) => Run(m, AtClone(row.id))
      case Missing => Run(m, AtSourceList)
      case _ => StopVolume(m)
      }
    case AtSourceList =>
      match a {
      case Volumes(rows) =>
        var f := VolumeNamed(rows, if m.source.Source? then m.source.name else "");
        if f.None? || !f.value.vol.isOS then StopVolume(m) else Run(m, AtClone(f.value.id))
      case _ => StopVolume(m)
      }
    case AtClone(_) =>
      match a {
      case NewId(id) => Run(m, AtCloneTag(id))
      case _ => StopVolume(m)
      }
    case AtCloneTag(vol) =>
      VolumeKnown(m, VolumeRow(vol, Volume(CloneName(o), VolumeOther("cloning"), false, false, false)))
    case AtVolumeTag(row) =>
      VolumeSettled(m, if a.Done? then row.(vol := row.vol.(managed := true)) else row)
    case AtOsTagGet(found) =>
      match a {
      case OneVolume(row) =>
        if row.vol.managed then Settle(m.(osVolumeReady := true), found) else Run(m, AtOsTagSet(found))
      case _ => Settle(m, found)
      }
    case AtOsTagSet(found) =>
      Settle(if a.Done? then m.(osVolumeReady := true) else m, found)
    case _ => Stop(m)
  }

  /** The row of a new instance; the cloud may not say yet which script it was given. */
  function WithScript(row: InstanceRow, script: Id): InstanceRow {
    if row.inst.script.None? then row.(inst := row.inst.(script := Some(script))) else row
  }

  /** Creating the instance. */
  function HandleCreation(o: Owner, m: Object, pc: Pc, a: Response): Run {
    match pc
    case AtHostCheck(s, boot) =>
      match a {
      case Instances(rows) =>
        if HostnameTaken(rows, Hostname(o, s)) then StopNotReady(m) else Run(m, AtScriptList(s, ForCreate(boot)))
      case _ => StopNotReady(m)
      }
    case AtScriptAdd(s, boot) =>
      match a {
      case NewId(id) => Run(m, AtCreate(s, boot, id))
      case _ => StopNotReady(m)
      }
    case AtCreate(s, boot, script) =>
      match a {
      case OneInstance(row) =>
        AfterFound(o, m, s, WithScript(row, script))
      case _ => Run(m, AtCreateCleanup(s, script))
      }
    case AtCreateCleanup(_, _) => StopNotReady(m)
    case _ => Stop(m)
  }

  /** Deleting startup scripts. */
  function HandleScripts(o: Owner, m: Object, pc: Pc, a: Response): Run {
    match pc
    case AtScriptList(s, why) =>
      match a {
      case Scripts(rows) => ScriptsNext(o, m, s, why, ScriptsNamed(rows, Hostname(o, s)))
      case _ => StopScripts(m, why)
      }
    case AtScriptDelete(s, why, ids) =>
      if (a.Done? || a.Missing?) && ids != [] then ScriptsNext(o, m, s, why, ids[1..]) else StopScripts(m, why)
    case AtScriptForget(s) =>
      if a.Done? || a.Missing? then AfterScripts(o, SetRec(m, s, Rec(m, s).(script := None)), s) else Stop(m)
    case _ => Stop(m)
  }

  /** Asking the cloud to shut an instance down or delete it. */
  function HandleDeletion(o: Owner, m: Object, pc: Pc, a: Response): Run {
    match pc
    case AtDueCheck(s, found) =>
      match a {
      case Time(now) =>
        if RequestDue(m, s, found.inst.status, now)
        then Run(NoteRequest(m, s, found.inst.status, now), AtDeleteGet(s, found.id, TeardownAsk(found.inst.status)))
        else StopWaiting(o, m, found.inst.status)
      case _ => StopWaiting(o, m, found.inst.status)
      }
    case AtDeleteGet(s, id, why) =>
      match a {
      case OneInstance(row) => DeleteSwitch(o, m, s, row, why)
      case Missing => AfterDelete(o, m, why)
      case _ => Stop(m)
      }
    case AtShutdown(_, _, why) => if a.Done? || a.Missing? then AfterDelete(o, m, why) else Stop(m)
    case AtDelete(_, _, _, why) => if a.Done? || a.Missing? then AfterDelete(o, m, why) else Stop(m)
    case _ => Stop(m)
  }

  /** Purging the volumes of a gone instance. */
  function HandlePurge(o: Owner, m: Object, pc: Pc, a: Response): Run {
    match pc
    case AtPurgeGet(s, id, why) =>
      match a {
      case OneInstance(row) =>
        if !row.inst.managed then Stop(m) else Run(m, AtPurgeTrash(s, id, VolumesOf(row.inst), why))
      case Missing => AfterPurge(o, m, s, 0, why)
      case _ => Stop(m)
      }
    case AtPurgeTrash(s, id, vols, why) =>
      match a {
      case Trash(ids) => PurgeNext(o, m, s, id, vols, 0, ids, 0, why)
      case _ => Stop(m)
      }
    case AtPurge(s, id, vols, n, trash, pending, why) =>
      if a.Failed? || n >= |vols| then Stop(m)
      else
        var more := vols[n] !in trash && a.OneVolume? && !a.vol.vol.status.VolumeDeleted?;
        PurgeNext(o, m, s, id, vols, n + 1, trash, if more then pending + 1 else pending, why)
    case _ => Stop(m)
  }

  /** Deleting the clone of a machine. */
  function HandleCloneRemoval(o: Owner, m: Object, pc: Pc, a: Response): Run {
    match pc
    case AtOsGet =>
      match a {
      case OneVolume(row) =>
        if row.vol.name != CloneName(o) || row.vol.status.VolumeDeleting? || row.vol.status.VolumeDeleted?
        then Release(m.(osVolume := None)) else Run(m, AtOsCheck)
      case Missing => Release(m.(osVolume := None))
      case _ => Stop(m)
      }
    case AtOsCheck =>
      match a {
      case OneVolume(row) => if row.vol.managed then Run(m, AtOsDelete) else Stop(m)
      case Missing => Release(m.(osVolume := None))
      case _ => Stop(m)
      }
    case AtOsDelete =>
      if a.Done? || a.Missing? then Release(m.(osVolume := None)) else Stop(m)
    case _ => Stop(m)
  }

  /** From the answer to the call at `pc` to the next call. */
  function Handle(o: Owner, r: Run, a: Response): Run
    requires !r.pc.Finished?
  {
    match PartOf(r.pc)
    case LookingUp => AfterLookup(o, r.mem, r.pc.s, r.pc.goal, LookupResult(o, r.mem, r.pc.s, a))
    case VolumeWork => HandleVolume(o, r.mem, r.pc, a)
    case Creation => HandleCreation(o, r.mem, r.pc, a)
    case ScriptWork => HandleScripts(o, r.mem, r.pc, a)
    case Deletion => HandleDeletion(o, r.mem, r.pc, a)
    case Purging => HandlePurge(o, r.mem, r.pc, a)
    case CloneRemoval => HandleCloneRemoval(o, r.mem, r.pc, a)
  }
}
