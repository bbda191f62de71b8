/**
 The life of one owner: the object stored in the API server, at most one reconcile in flight, and
 every step either of them may take, with crashes and lost patches at any point.
 */
module Protocol {
  import opened Prelude
  import opened Owners
  import opened CloudApi
  import opened Reconcile

  datatype OwnerState = OwnerState(stored: Option<Object>, run: Option<Run>)

  /** An object as a user creates it. */
  predicate Fresh(m: Object) {
    && !m.deleting && !m.finalizer && m.asked == map[]
    && m.primary == NO_RECORD && m.service == NO_RECORD && m.osVolume.None?
    && !m.osVolumeReady && !m.provisioned && !m.ready
  }

  /** The deferred patch: metadata, status and conditions are written by separate requests, any may be lost. */
  function Patched(stored: Object, mem: Object, meta: bool, status: bool, conds: bool): Object {
    var a := if meta then stored.(finalizer := mem.finalizer, asked := mem.asked) else stored;
    var b := if conds then a.(osVolumeReady := mem.osVolumeReady, ready := mem.ready) else a;
    if status then
      b.(primary := mem.primary, service := mem.service, osVolume := mem.osVolume,
         provisioned := mem.provisioned, state := mem.state)
    else b
  }

  datatype Event =
    | UserCreates(obj: Object)
    | UserDeletes
    | UserToggles(primary: bool, service: bool)
    | ObjectVanishes
    | FinalizerAdded
    | Load
    | Api(answer: Response)
    | GiveUp(clearReady: bool)
    | Patch(meta: bool, status: bool, conds: bool)
    | Crash

  /** Owner `o` takes the step `e`; only an API call touches the cloud. */
  ghost predicate Step(o: Owner, c: Cloud, x: OwnerState, e: Event, d: Cloud, y: OwnerState) {
    match e
    case UserCreates(obj) => d == c && x.stored.None? && x.run.None? && Fresh(obj) && y == x.(stored := Some(obj))
    case UserDeletes => d == c && x.stored.Some? && y == x.(stored := Some(x.stored.value.(deleting := true)))
    case UserToggles(p, s) =>
      d == c && x.stored.Some? && y == x.(stored := Some(x.stored.value.(primaryEnabled := p, serviceEnabled := s)))
    case ObjectVanishes =>
      d == c && x.stored.Some? && x.stored.value.deleting && !x.stored.value.finalizer && y == x.(stored := None)
    case FinalizerAdded =>
      && d == c && x.run.None? && x.stored.Some? && !x.stored.value.deleting
      && y == x.(stored := Some(x.stored.value.(finalizer := true)))
    case Load =>
      && d == c && x.run.None? && x.stored.Some? && (x.stored.value.deleting || x.stored.value.finalizer)
      && y == x.(run := Some(Start(o, x.stored.value)))
    case Api(answer) =>
      && x.run.Some? && !x.run.value.pc.Finished?
      && Answers(c, NextCall(o, x.run.value), d, answer)
      && y == x.(run := Some(Handle(o, x.run.value, answer)))
    case GiveUp(clearReady) =>
      && d == c && x.run.Some?
      && y == x.(run := Some(if clearReady then StopNotReady(x.run.value.mem) else Stop(x.run.value.mem)))
    case Patch(meta, status, conds) =>
      && d == c && x.run.Some? && x.run.value.pc.Finished?
      && y.run.None?
      && y.stored == if x.stored.None? then None
                     else Some(Patched(x.stored.value, x.run.value.mem, meta, status, conds))
    case Crash => d == c && y == x.(run := None)
  }
}
