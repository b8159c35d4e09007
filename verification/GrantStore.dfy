/**
 The transactions of one live Gateway that decide the published grant condition,
 as they run on its stored fields. Each equals its function in GrantSync, so what
 the interleavings keep holds of these statements.
 */
module GrantStore {
  import opened Common
  import opened ScanCycle
  import G = GrantSync

  class LiveGateway {
    var grants: map<G.GrantId, G.Grant>
    var generation: nat
    var revision: nat
    var version: nat
    var cycle: Cycle<nat>
    var condition: G.Condition

    ghost function Row(): G.Row
      reads this
    {
      G.Row(grants, generation, revision, version, cycle, condition)
    }

    constructor (id: G.GrantId, owner: G.User)
      requires id >= 1
      ensures Row() == G.Init(id, owner).row
    {
      grants := map[id := G.Grant(owner, G.Owner, true)];
      generation, revision, version := 1, 1, 0;
      cycle := Empty();
      condition := G.Condition(G.ObservationPending, 0);
    }

    /** `changed` is false exactly when the current condition already says the same. */
    method WriteGrantCondition(reason: G.Reason) returns (changed: bool)
      modifies this
      ensures Row() == G.WriteGrantCondition(old(Row()), reason)
      ensures changed == (Row() != old(Row()))
      ensures condition == G.Condition(reason, generation) && revision == old(revision) + (if condition == old(condition) then 0 else 1)
      ensures grants == old(grants) && generation == old(generation) && version == old(version) && cycle == old(cycle)
    {
      if condition.observed == generation && condition.reason == reason {
        return false;
      }
      condition := G.Condition(reason, generation);
      revision := revision + 1;
      return true;
    }

    method ResetIdentityCycle()
      modifies this
      ensures Row() == G.ResetIdentityCycle(old(Row()))
      ensures cycle == Empty() && version == old(version) + 1 && condition == G.Condition(G.GrantsChanged, generation)
      ensures grants == old(grants) && generation == old(generation)
      ensures revision == old(revision) + (if condition == old(condition) then 0 else 1)
    {
      var previous := version;
      cycle := Empty();
      version := previous + 1;
      var _ := WriteGrantCondition(G.GrantsChanged);
    }

    method CreateGrant(id: G.GrantId, user: G.User, role: G.Role)
      modifies this
      ensures Row() == G.CreateGrant(old(Row()), id, user, role)
      ensures if id == 0 || id in old(grants) || role == G.NoRole then Row() == old(Row())
              else
                && grants == old(grants)[id := G.Grant(user, role, true)]
                && cycle == Empty() && version == old(version) + 1 && condition == G.Condition(G.GrantsChanged, generation)
    {
      if id == 0 || id in grants || role == G.NoRole {
        return;
      }
      grants := grants[id := G.Grant(user, role, true)];
      ResetIdentityCycle();
    }

    method DeleteGrant(id: G.GrantId)
      modifies this
      ensures Row() == G.DeleteGrant(old(Row()), id)
      ensures if id !in old(grants) || !old(grants)[id].live then Row() == old(Row())
              else
                && grants == old(grants)[id := old(grants)[id].(live := false)]
                && cycle == Empty() && version == old(version) + 1 && condition == G.Condition(G.GrantsChanged, generation)
    {
      if id !in grants || !grants[id].live {
        return;
      }
      grants := grants[id := grants[id].(live := false)];
      ResetIdentityCycle();
    }

    /** The revision that a successful save returns is the one now stored. */
    method SaveIdentityScanCycle(expected: nat, desired: nat, observed: nat, next: Cycle<nat>) returns (saved: Result<nat, G.Error>)
      modifies this
      ensures match G.SaveIdentityScanCycle(old(Row()), expected, desired, observed, next)
              case Ok(t) => saved == Ok(t.revision) && Row() == t
              case Err(e) => saved == Err(e) && Row() == old(Row())
      ensures saved.Ok? ==>
                && (desired, observed, expected) == (old(generation), old(revision), old(version)) && next.source == Some(desired)
                && cycle == next && version == expected + 1 && grants == old(grants) && generation == old(generation)
                && condition == if next.failed then G.Condition(G.GrantSyncIncomplete, generation)
                                else if next.complete then G.Condition(G.GrantSyncComplete, generation)
                                else old(condition)
      ensures saved == Err(G.CheckpointConflict) ==> expected != old(version)
      ensures saved == Err(G.VersionConflict) ==> observed < 1 || desired != old(generation) || observed != old(revision)
    {
      if observed < 1 {
        return Err(G.VersionConflict);
      }
      if next.source != Some(desired) || desired < 1 {
        return Err(G.Invalid);
      }
      if generation != desired || revision != observed {
        return Err(G.VersionConflict);
      }
      if version != expected {
        return Err(G.CheckpointConflict);
      }
      var previous := cycle;
      if !ValidTransition(previous, next) || (previous.source == next.source && !previous.complete && next.after < previous.after) {
        return Err(G.Invalid);
      }
      if next.after != 0 && next.after !in grants {
        return Err(G.Invalid);
      }
      cycle := next;
      version := expected + 1;
      if !next.failed && !next.complete {
        return Ok(revision);
      }
      var reason := G.GrantSyncComplete;
      if next.failed {
        reason := G.GrantSyncIncomplete;
      }
      var _ := WriteGrantCondition(reason);
      return Ok(revision);
    }

    /** The first of owner and viewer that a live grant of the user names. */
    method IdentityUserState(user: G.User) returns (role: G.Role)
      ensures role == G.RoleOf(grants, user)
      ensures role == G.Owner <==> exists id :: id in grants && grants[id] == G.Grant(user, G.Owner, true)
      ensures role == G.Viewer <==>
                && (forall id :: id in grants ==> grants[id] != G.Grant(user, G.Owner, true))
                && exists id :: id in grants && grants[id] == G.Grant(user, G.Viewer, true)
      ensures role == G.NoRole <==>
                forall id :: id in grants && grants[id].user == user && grants[id].live ==> grants[id].role == G.NoRole
    {
      G.RoleIsUnion(grants, user);
      var names := [G.Owner, G.Viewer];
      var i := 0;
      while i < |names|
        invariant i <= |names|
        invariant forall j :: 0 <= j < i ==> !G.HasLive(grants, user, names[j])
      {
        if G.HasLive(grants, user, names[i]) {
          return names[i];
        }
        i := i + 1;
      }
      assert names[0] == G.Owner && names[1] == G.Viewer;
      return G.NoRole;
    }
  }
}
