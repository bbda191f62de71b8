/**
 What a reconcile leaves behind: every log of a controller is a run of the protocol, so a reconcile
 ends in a state that keeps what the protocol keeps.
 */
module Reconciler {
  import opened Prelude
  import opened Owners
  import opened Protocol
  import opened Fleet
  import opened Controller

  /** What the protocol keeps, it keeps along every log. */
  lemma {:induction false} LogKeepsInv(o: Owner, origin: Snapshot, log: seq<Entry>, i: nat)
    requires i <= |log| && Chained(o, origin, log) && OwnerInv(origin.cloud, o, origin.state)
    ensures var s := Prior(origin, log, i); OwnerInv(s.cloud, o, s.state)
  {
    if i > 0 {
      LogKeepsInv(o, origin, log, i - 1);
      var a, b := Prior(origin, log, i - 1), log[i - 1].after;
      assert Marked(i - 1) && Linked(o, a, log[i - 1].cause, b);
      match log[i - 1].cause
      case Own(e) => OwnStepInv(o, a.cloud, a.state, e, b.cloud, b.state);
      case Foreign => ForeignStepInv(o, a.cloud, a.state, b.cloud);
    }
  }

  /**
   One reconcile from loading the object to its patch. However the calls are answered, and whichever
   part of the patch is lost, the log gains exactly the steps of a whole reconcile; and what the
   protocol keeps still holds where it ends.
   */
  method ReconcileOnce(world: World, waiting: bool, meta: bool, status: bool, conds: bool)
    requires world.Valid() && world.run.None?
    modifies world
    ensures world.Valid() && world.run.None?
    ensures Reconciled(world.owner, old(world.stored), waiting, meta, status, conds, old(world.log), world.log)
    ensures OwnerInv(world.origin.cloud, world.owner, world.origin.state) ==>
              OwnerInv(world.cloud, world.owner, OwnerState(world.stored, None))
  {
    ReconcileAndPatch(world, waiting, meta, status, conds);
    if OwnerInv(world.origin.cloud, world.owner, world.origin.state) {
      LogKeepsInv(world.owner, world.origin, world.log, |world.log|);
    }
  }
}
