/** The statements behind AccountCleanup: the journal scope's guarded writes and the collection of one page's results. */
module AccountStore {
  import opened Common
  import R = GatewayRecord
  import A = AccountCleanup

  /** The journal scope of one Gateway; its triggers are the guards of these methods. */
  class JournalScope {
    var world: A.World

    constructor (cluster: R.Cluster)
      ensures world == A.Init(cluster).world
    {
      world := A.Init(cluster).world;
    }

    /** An existing key may be rewritten at any time; a new one only before the scope is sealed. */
    method SaveResourceState(key: nat) returns (error: Option<R.Error>)
      modifies this
      ensures match A.SaveResourceState(old(world), key)
              case Ok(t) => error == None && world == t
              case Err(e) => error == Some(e) && world == old(world)
      ensures error == None <==> key in old(world).items || !old(world).scope.sealed
      ensures error == None ==> world.items == old(world).items + {key}
      ensures world.scope == if world.items == old(world).items then old(world).scope else old(world).scope.(revision := old(world).scope.revision + 1)
    {
      if key in world.items {
        return None;
      }
      if world.scope.sealed {
        return Some(R.StateConflict);
      }
      world := world.(items := world.items + {key});
      world := world.(scope := world.scope.(revision := world.scope.revision + 1));
      return None;
    }

    /** The last transaction of a pass: a refused seal or record leaves nothing behind. */
    method Finish(k: A.Worker) returns (committed: bool)
      requires k.Deciding?
      modifies this
      ensures world == A.FinishStep(old(world), k)
      ensures committed && k.complete ==> world.scope.sealed && world.store.row.done.accounts
      ensures !committed ==> world == old(world)
      ensures committed && !k.complete ==> world.scope == old(world).scope && !world.store.row.done.accounts
    {
      if !k.complete && !k.error && k.read.scope.sealed {
        if k.read.prior {
          return false;
        }
      }
      var scope := world.scope;
      if k.complete {
        if scope.revision != k.read.scope.revision {
          return false;
        }
        if !scope.sealed {
          scope := A.Scope(scope.revision + 1, true);
        }
      }
      var recorded := R.RecordCleanup(world.store, k.read.version, R.Accounts, None, k.complete);
      if recorded.Err? {
        return false;
      }
      world := world.(store := recorded.value, scope := scope);
      if k.complete {
        world := world.(proof := A.Proof(k.read.scope.revision, k.cleaned));
      }
      return true;
    }
  }

  /** Results arrive for every item; only an unbroken run of accepted ones moves the cursor. */
  method CollectPage(page: seq<nat>, outcomes: seq<A.Outcome>) returns (prefix: nat, failed: bool, cleaned: set<nat>)
    requires |page| == |outcomes|
    ensures prefix == A.Accepted(outcomes)
    ensures failed == A.AnyFailed(outcomes)
    ensures cleaned == A.CleanedBy(page, outcomes)
  {
    prefix, failed, cleaned := 0, false, {};
    for i := 0 to |outcomes|
      invariant prefix <= i
      invariant forall j :: 0 <= j < prefix ==> outcomes[j] == A.Succeeded || outcomes[j] == A.Continued
      invariant prefix < i ==> outcomes[prefix] == A.Stopped || outcomes[prefix] == A.NotRun
      invariant failed <==> exists j :: 0 <= j < i && (outcomes[j] == A.Continued || outcomes[j] == A.Stopped)
      invariant cleaned == set j | 0 <= j < i && outcomes[j] == A.Succeeded :: page[j]
    {
      if prefix == i && (outcomes[i] == A.Succeeded || outcomes[i] == A.Continued) {
        prefix := prefix + 1;
      }
      if outcomes[i] == A.Continued || outcomes[i] == A.Stopped {
        failed := true;
      }
      if outcomes[i] == A.Succeeded {
        cleaned := cleaned + {page[i]};
      }
    }
  }
}
