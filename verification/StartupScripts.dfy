/** However the calls inside CreateInstance fail, a hostname never has two startup scripts. */
module StartupScripts {
  import opened Owners
  import opened CloudApi
  import opened Client
  import opened Reconcile
  import opened Protocol
  import opened Ownership

  ghost predicate OneScript(c: Cloud, name: string) {
    forall a, b :: a in c.scripts && b in c.scripts && c.scripts[a] == name && c.scripts[b] == name ==> a == b
  }

  ghost predicate OnlyScripts(c: Cloud, name: string, ids: seq<Id>) {
    forall id :: id in c.scripts && c.scripts[id] == name ==> id in ids
  }

  /** What the run knows on its way to add a script. */
  ghost predicate ScriptRun(c: Cloud, o: Owner, r: Run) {
    && (r.pc.AtScriptDelete? && r.pc.swhy.ForCreate? ==> OnlyScripts(c, Hostname(o, r.pc.s), r.pc.scripts))
    && (r.pc.AtScriptAdd? ==> OnlyScripts(c, Hostname(o, r.pc.s), []))
  }

  ghost predicate ScriptInv(c: Cloud, o: Owner, x: OwnerState) {
    && (forall s :: HasSlot(o, s) ==> OneScript(c, Hostname(o, s)))
    && (x.run.Some? ==> ScriptRun(c, o, x.run.value))
  }

  lemma RelyKeepsScripts(o: Owner, c: Cloud, x: OwnerState, d: Cloud)
    requires Inv(c, o, x) && ScriptInv(c, o, x) && Rely(o, c, d)
    ensures ScriptInv(d, o, x)
  {
    forall s, id | HasSlot(o, s) && id in d.scripts && d.scripts[id] == Hostname(o, s)
      ensures id in c.scripts && c.scripts[id] == Hostname(o, s)
    {
      if id !in c.scripts {
        assert HostnameOf(o, d.scripts[id]);
      }
    }
  }

  /** Outside the script part, no step leads to deleting or adding a script for a creation. */
  predicate NoScriptYet(q: Run) {
    !q.pc.AtScriptDelete? && !q.pc.AtScriptAdd?
  }

  lemma LookupQuiet(o: Owner, m: Object, s: Slot, goal: Goal, l: Lookup)
    ensures NoScriptYet(AfterLookup(o, m, s, goal, l))
  {
  }

  lemma VolumeQuiet(o: Owner, m: Object, pc: Pc, a: Response)
    ensures NoScriptYet(HandleVolume(o, m, pc, a))
  {
  }

  lemma CreationQuiet(o: Owner, m: Object, pc: Pc, a: Response)
    ensures NoScriptYet(HandleCreation(o, m, pc, a))
  {
  }

  lemma DeletionQuiet(o: Owner, m: Object, pc: Pc, a: Response)
    ensures NoScriptYet(HandleDeletion(o, m, pc, a))
  {
  }

  lemma PurgeQuiet(o: Owner, m: Object, pc: Pc, a: Response)
    ensures NoScriptYet(HandlePurge(o, m, pc, a))
  {
  }

  lemma CloneRemovalQuiet(o: Owner, m: Object, pc: Pc, a: Response)
    ensures NoScriptYet(HandleCloneRemoval(o, m, pc, a))
  {
  }

  lemma QuietParts(o: Owner, r: Run, a: Response)
    requires !r.pc.Finished? && !PartOf(r.pc).ScriptWork?
    ensures NoScriptYet(Handle(o, r, a))
  {
    match PartOf(r.pc)
    case LookingUp => LookupQuiet(o, r.mem, r.pc.s, r.pc.goal, LookupResult(o, r.mem, r.pc.s, a));
    case VolumeWork => VolumeQuiet(o, r.mem, r.pc, a);
    case Creation => CreationQuiet(o, r.mem, r.pc, a);
    case Deletion => DeletionQuiet(o, r.mem, r.pc, a);
    case Purging => PurgeQuiet(o, r.mem, r.pc, a);
    case CloneRemoval => CloneRemovalQuiet(o, r.mem, r.pc, a);
  }

  lemma ScriptListKeeps(o: Owner, c: Cloud, r: Run, a: Response, d: Cloud)
    requires r.pc.AtScriptList? && Answers(c, ListScripts, d, a)
    ensures ScriptRun(d, o, HandleScripts(o, r.mem, r.pc, a))
  {
    if a.Scripts? {
      assert d == c && ListsScripts(c, a.names);
      assert OnlyScripts(d, Hostname(o, r.pc.s), ScriptsNamed(a.names, Hostname(o, r.pc.s)));
    }
  }

  lemma ScriptDeleteKeeps(o: Owner, c: Cloud, r: Run, a: Response, d: Cloud)
    requires r.pc.AtScriptDelete? && ScriptRun(c, o, r) && Answers(c, NextCall(o, r), d, a)
    ensures ScriptRun(d, o, HandleScripts(o, r.mem, r.pc, a))
  {
    var ids := r.pc.scripts;
    if r.pc.swhy.ForCreate? && ids != [] && (a.Done? || a.Missing?) {
      assert ids[0] !in d.scripts;
      assert forall id :: id in ids ==> id == ids[0] || id in ids[1..];
      assert OnlyScripts(d, Hostname(o, r.pc.s), ids[1..]);
    }
  }

  lemma ScriptWorkKeeps(o: Owner, c: Cloud, r: Run, a: Response, d: Cloud)
    requires PartOf(r.pc).ScriptWork? && ScriptRun(c, o, r)
    requires Answers(c, NextCall(o, r), d, a)
    ensures ScriptRun(d, o, Handle(o, r, a))
  {
    if r.pc.AtScriptDelete? {
      ScriptDeleteKeeps(o, c, r, a, d);
    } else if r.pc.AtScriptList? {
      ScriptListKeeps(o, c, r, a, d);
    }
  }

  lemma OwnHostnamesDiffer(o: Owner)
    ensures o.Cluster? ==> Hostname(o, Primary) != Hostname(o, Service)
  {
    assert o.Cluster? ==> |Hostname(o, Primary)| != |Hostname(o, Service)|;
  }

  lemma ScriptsStayUnique(o: Owner, c: Cloud, r: Run, a: Response, d: Cloud, s: Slot)
    requires WellFormed(c) && !r.pc.Finished? && HasSlot(o, s) && HasSlot(o, SlotOf(r.pc).value)
    requires OneScript(c, Hostname(o, s)) && ScriptRun(c, o, r)
    requires Answers(c, NextCall(o, r), d, a)
    ensures OneScript(d, Hostname(o, s))
  {
    OnlyCreateCreates(o, r);
    OwnHostnamesDiffer(o);
    forall id | id in d.scripts && id !in c.scripts
      ensures r.pc.AtScriptAdd? && id == c.next && d.scripts[id] == Hostname(o, r.pc.s)
    {
    }
  }

  lemma StepKeepsScripts(o: Owner, c: Cloud, x: OwnerState, e: Event, d: Cloud, y: OwnerState)
    requires Inv(c, o, x) && ScriptInv(c, o, x) && Step(o, c, x, e, d, y)
    ensures ScriptInv(d, o, y)
  {
    if e.Api? {
      var r := x.run.value;
      forall s | HasSlot(o, s) ensures OneScript(d, Hostname(o, s)) {
        ScriptsStayUnique(o, c, r, e.answer, d, s);
      }
      if PartOf(r.pc).ScriptWork? {
        ScriptWorkKeeps(o, c, r, e.answer, d);
      } else {
        QuietParts(o, r, e.answer);
      }
    }
  }
}
