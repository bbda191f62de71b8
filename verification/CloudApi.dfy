/**
 The Verda API as an abstract machine: the state of the account, the calls a client can make,
 and every answer the cloud may give. A call may be carried out and still be reported as failed.
 */
module CloudApi {
  import opened Prelude
  import opened Owners

  /** One counter numbers instances, scripts and volumes; numbers are never used again. */
  type Id = nat

  datatype Status =
    | Running | Offline | Deleting | Discontinued | Deleted
    | Error | NoCapacity | NotFound | Other(name: string)

  predicate Gone(s: Status) {
    s.NotFound? || s.Discontinued? || s.Deleted?
  }

  datatype Instance = Instance(
    hostname: string, status: Status, ip: string, script: Option<Id>,
    managed: bool, tags: map<TagKey, string>, osVolume: Option<Id>, volumes: seq<Id>)

  function Tag(i: Instance, k: TagKey): string {
    if k in i.tags then i.tags[k] else ""
  }

  datatype VolumeStatus = Detached | Attached | VolumeDeleting | VolumeDeleted | VolumeOther(name: string)

  datatype Volume = Volume(name: string, status: VolumeStatus, isOS: bool, managed: bool, trashed: bool)

  datatype Cloud = Cloud(
    instances: map<Id, Instance>, scripts: map<Id, string>, volumes: map<Id, Volume>, next: Id)

  datatype InstanceRow = InstanceRow(id: Id, inst: Instance)
  datatype ScriptRow = ScriptRow(id: Id, name: string)
  datatype VolumeRow = VolumeRow(id: Id, vol: Volume)

  datatype Boot = FromImage | FromVolume(id: Id)

  datatype Call =
    | GetInstance(id: Id)
    | ListInstances
    | CreateInstance(hostname: string, key: TagKey, value: string, boot: Boot, script: Id)
    | ShutdownInstance(id: Id)
    | DeleteInstance(id: Id, volumes: seq<Id>)
    | ListScripts
    | AddScript(name: string)
    | DeleteScript(id: Id)
    | GetVolume(id: Id)
    | ListVolumes
    | ListTrash
    | CloneVolume(source: Id, name: string)
    | TagVolume(id: Id)
    | DestroyVolume(id: Id)
    | ReadClock

  datatype Response =
    | Failed
    | Missing
    | Done
    | NewId(id: Id)
    | OneInstance(row: InstanceRow)
    | Instances(rows: seq<InstanceRow>)
    | Scripts(names: seq<ScriptRow>)
    | OneVolume(vol: VolumeRow)
    | Volumes(vols: seq<VolumeRow>)
    | Trash(ids: set<Id>)
    | Time(now: nat)

  ghost predicate ListsVolume(i: Instance, v: Id) {
    i.osVolume == Some(v) || v in i.volumes
  }

  ghost predicate WellFormed(c: Cloud) {
    // `notfound` is the client's own marker for an instance the cloud does not know
    && (forall id :: id in c.instances ==> id < c.next && !c.instances[id].status.NotFound?)
    && (forall id, v: Id :: id in c.instances && ListsVolume(c.instances[id], v) ==> v < c.next)
    && (forall id :: id in c.scripts ==> id < c.next)
    && (forall id :: id in c.volumes ==> id < c.next)
  }

  /** A listing is accurate, holds every instance that is not gone, and shows gone ones only as `discontinued`. */
  ghost predicate Lists(c: Cloud, rows: seq<InstanceRow>) {
    && (forall r :: r in rows ==>
          && r.id in c.instances && c.instances[r.id] == r.inst
          && (Gone(r.inst.status) ==> r.inst.status.Discontinued?))
    && (forall id :: id in c.instances && !Gone(c.instances[id].status) ==> InstanceRow(id, c.instances[id]) in rows)
  }

  ghost predicate ListsScripts(c: Cloud, rows: seq<ScriptRow>) {
    && (forall r :: r in rows ==> r.id in c.scripts && c.scripts[r.id] == r.name)
    && (forall id :: id in c.scripts ==> ScriptRow(id, c.scripts[id]) in rows)
  }

  ghost predicate ListsVolumes(c: Cloud, rows: seq<VolumeRow>) {
    forall r :: r in rows ==> r.id in c.volumes && c.volumes[r.id] == r.vol
  }

  // How records may change, whoever changes them.

  ghost predicate InstanceEvolves(i: Instance, j: Instance) {
    && i.hostname == j.hostname && i.managed == j.managed && i.tags == j.tags
    && (Gone(i.status) ==> Gone(j.status) && i.osVolume == j.osVolume && i.volumes == j.volumes)
  }

  ghost predicate VolumeEvolves(v: Volume, w: Volume) {
    && v.name == w.name
    && (v.status.VolumeDeleted? ==> w.status.VolumeDeleted?)
  }

  /** Numbers are fresh, what is gone stays gone, names and tags are fixed. */
  ghost predicate Evolves(c: Cloud, d: Cloud) {
    && c.next <= d.next
    && WellFormed(d)
    && (forall id :: id in d.instances ==>
          if id in c.instances then InstanceEvolves(c.instances[id], d.instances[id]) else c.next <= id)
    && (forall id :: id in d.scripts ==>
          if id in c.scripts then c.scripts[id] == d.scripts[id] else c.next <= id)
    && (forall id :: id in d.volumes ==>
          if id in c.volumes then VolumeEvolves(c.volumes[id], d.volumes[id]) else c.next <= id)
  }

  /** The change a call makes when the cloud carries it out. */
  ghost predicate Effect(c: Cloud, call: Call, d: Cloud) {
    match call
    case CreateInstance(hostname, key, value, boot, script) =>
      && c.next in d.instances
      && d.instances == c.instances[c.next := d.instances[c.next]]
      && d.scripts == c.scripts
      && c.next < d.next
      && (var i := d.instances[c.next];
          && i.hostname == hostname && i.managed && i.tags == map[key := value] && !i.status.NotFound?
          && (i.script.None? || i.script == Some(script))
          && (forall v: Id :: ListsVolume(i, v) ==> c.next < v < d.next || (boot == FromVolume(v) && v in c.volumes)))
      && (forall v :: v in c.volumes ==>
            && v in d.volumes
            && VolumeEvolves(c.volumes[v], d.volumes[v])
            && (boot != FromVolume(v) ==> d.volumes[v] == c.volumes[v]))
      && (forall v :: v in d.volumes ==> v in c.volumes || c.next < v < d.next)
    case ShutdownInstance(id) =>
      && id in c.instances
      && (d == c || (!Gone(c.instances[id].status)
                     && d == c.(instances := c.instances[id := c.instances[id].(status := Offline)])))
    case DeleteInstance(id, volumes) =>
      && id in c.instances && id in d.instances
      && d.instances == c.instances[id := d.instances[id]]
      && (d.instances[id] == c.instances[id]
          || (!Gone(c.instances[id].status)
              && (d.instances[id] == c.instances[id].(status := Deleting)
                  || d.instances[id] == c.instances[id].(status := Discontinued))))
      && d.scripts == c.scripts && d.next == c.next
      && (forall v :: v in d.volumes ==> v in c.volumes && VolumeEvolves(c.volumes[v], d.volumes[v]))
      && (forall v :: v in c.volumes && v !in volumes ==> v in d.volumes && d.volumes[v] == c.volumes[v])
    case AddScript(name) =>
      d == c.(scripts := c.scripts[c.next := name], next := c.next + 1)
    case DeleteScript(id) =>
      id in c.scripts && d == c.(scripts := c.scripts - {id})
    case CloneVolume(source, name) =>
      && source in c.volumes
      && (var clone := Volume(name, VolumeOther("cloning"), c.volumes[source].isOS, false, false);
          d == c.(volumes := c.volumes[c.next := clone], next := c.next + 1))
    case TagVolume(id) =>
      id in c.volumes && d == c.(volumes := c.volumes[id := c.volumes[id].(managed := true)])
    case DestroyVolume(id) =>
      id in c.volumes && d == c.(volumes := c.volumes - {id})
    case _ => d == c
  }

  /** Nothing of that number exists, so the cloud answers 404. */
  predicate Absent(c: Cloud, call: Call) {
    match call
    case GetInstance(id) => id !in c.instances
    case ShutdownInstance(id) => id !in c.instances
    case DeleteInstance(id, _) => id !in c.instances
    case DeleteScript(id) => id !in c.scripts
    case GetVolume(id) => id !in c.volumes
    case TagVolume(id) => id !in c.volumes
    case DestroyVolume(id) => id !in c.volumes
    case _ => false
  }

  ghost predicate Reports(c: Cloud, call: Call, d: Cloud, r: Response) {
    match call
    case GetInstance(id) => id in c.instances && r == OneInstance(InstanceRow(id, c.instances[id]))
    case ListInstances => r.Instances? && Lists(c, r.rows)
    case CreateInstance(_, _, _, _, _) =>
      c.next in d.instances && r == OneInstance(InstanceRow(c.next, d.instances[c.next]))
    case ListScripts => r.Scripts? && ListsScripts(c, r.names)
    case AddScript(_) => r == NewId(c.next)
    case GetVolume(id) => id in c.volumes && r == OneVolume(VolumeRow(id, c.volumes[id]))
    case ListVolumes => r.Volumes? && ListsVolumes(c, r.vols)
    case ListTrash => r == Trash(set v | v in c.volumes && c.volumes[v].trashed)
    case CloneVolume(_, _) => r == NewId(c.next)
    case ReadClock => r.Time?
    case _ => r == Done
  }

  /** The cloud may answer `call` with `r` while moving from `c` to `d`. */
  ghost predicate Answers(c: Cloud, call: Call, d: Cloud, r: Response) {
    || (r.Failed? && !call.ReadClock? && (d == c || Effect(c, call, d)))
    || (r.Missing? && d == c && Absent(c, call))
    || (Effect(c, call, d) && Reports(c, call, d, r))
  }

  lemma InstancesEvolve(c: Cloud, call: Call, d: Cloud, r: Response)
    requires WellFormed(c) && Answers(c, call, d, r)
    ensures c.next <= d.next
    ensures forall id :: id in d.instances ==>
              && id < d.next && !d.instances[id].status.NotFound?
              && if id in c.instances then InstanceEvolves(c.instances[id], d.instances[id]) else c.next <= id
  {
  }

  lemma ListedVolumesGivenOut(c: Cloud, call: Call, d: Cloud, r: Response)
    requires WellFormed(c) && Answers(c, call, d, r)
    ensures forall id, v: Id :: id in d.instances && ListsVolume(d.instances[id], v) ==> v < d.next
  {
    InstancesEvolve(c, call, d, r);
    forall id, v: Id | id in d.instances && ListsVolume(d.instances[id], v)
      ensures v < d.next
    {
      if id in c.instances {
        assert ListsVolume(c.instances[id], v);
      }
    }
  }

  lemma VolumesEvolve(c: Cloud, call: Call, d: Cloud, r: Response)
    requires WellFormed(c) && Answers(c, call, d, r)
    ensures forall id :: id in d.volumes ==>
              id < d.next && if id in c.volumes then VolumeEvolves(c.volumes[id], d.volumes[id]) else c.next <= id
  {
  }

  lemma ScriptsEvolve(c: Cloud, call: Call, d: Cloud, r: Response)
    requires WellFormed(c) && Answers(c, call, d, r)
    ensures forall id :: id in d.scripts ==>
              id < d.next && if id in c.scripts then c.scripts[id] == d.scripts[id] else c.next <= id
  {
  }

  lemma AnswersEvolve(c: Cloud, call: Call, d: Cloud, r: Response)
    requires WellFormed(c)
    requires Answers(c, call, d, r)
    ensures Evolves(c, d)
  {
    InstancesEvolve(c, call, d, r);
    ListedVolumesGivenOut(c, call, d, r);
    VolumesEvolve(c, call, d, r);
    ScriptsEvolve(c, call, d, r);
  }

  // What the rest of the world may do between two steps of owner `o`.

  ghost predicate CarriesTagOf(o: Owner, i: Instance) {
    exists s :: HasSlot(o, s) && Tag(i, TagKeyOf(o, s)) == TagValue(o)
  }

  ghost predicate HostnameOf(o: Owner, name: string) {
    exists s :: HasSlot(o, s) && Hostname(o, s) == name
  }

  ghost predicate Rely(o: Owner, c: Cloud, d: Cloud) {
    && Evolves(c, d)
    && (forall id :: id in d.instances && id !in c.instances ==> !CarriesTagOf(o, d.instances[id]))
    && (forall id :: id in d.scripts && id !in c.scripts ==> !HostnameOf(o, d.scripts[id]))
  }
}
