/** The placement transactions as statements on the stored tables; each equals its step in Placement. */
module PlacementStore {
  import opened Common
  import R = GatewayRecord
  import P = Placement

  class Tables {
    var clusters: set<P.Id>
    var releases: set<P.Id>
    var gateways: map<P.Id, P.Placed>

    ghost function Snapshot(): P.State
      reads this
    {
      P.State(clusters, releases, gateways)
    }

    constructor ()
      ensures Snapshot() == P.Init()
    {
      clusters, releases, gateways := {}, {}, map[];
    }

    method Create(id: P.Id, cluster: P.Id, release: P.Id) returns (created: bool)
      modifies this
      ensures Snapshot() == P.Apply(old(Snapshot()), P.CreateGateway(id, cluster, release))
      ensures created <==> id !in old(gateways) && cluster in clusters && release in releases
      ensures created ==> gateways == old(gateways)[id := P.Placed(R.Created(cluster), release)]
      ensures clusters == old(clusters) && releases == old(releases)
      ensures !created ==> Snapshot() == old(Snapshot())
    {
      if id in gateways || cluster !in clusters {
        return false;
      }
      if release !in releases {
        return false;
      }
      gateways := gateways[id := P.Placed(R.Created(cluster), release)];
      return true;
    }

    /** The patched row is checked as a whole before it is written. */
    method Update(id: P.Id, newCluster: Option<P.Id>, newRelease: Option<P.Id>) returns (updated: bool)
      modifies this
      ensures Snapshot() == P.Apply(old(Snapshot()), P.UpdateGateway(id, newCluster, newRelease))
      ensures !updated ==> Snapshot() == old(Snapshot())
      ensures updated <==>
                && id in old(gateways) && !old(gateways)[id].store.row.deleted
                && (newCluster.Some? ==> newCluster.value in clusters && newCluster.value == old(gateways)[id].store.row.cluster)
                && (newRelease.Some? ==> newRelease.value in releases)
      ensures updated ==>
                && gateways.Keys == old(gateways).Keys
                && (forall g :: g in gateways && g != id ==> gateways[g] == old(gateways)[g])
                && gateways[id].release == (if newRelease.Some? then newRelease.value else old(gateways)[id].release)
                && gateways[id].store.row == old(gateways)[id].store.row.(version := old(gateways)[id].store.row.version + 1)
                && gateways[id].store.events == old(gateways)[id].store.events + [R.Updated]
    {
      if id !in gateways || gateways[id].store.row.deleted {
        return false;
      }
      var current := gateways[id];
      var previous := current.store.row.cluster;
      if newCluster.Some? {
        current := current.(store := current.store.(row := current.store.row.(cluster := newCluster.value)));
      }
      if newRelease.Some? {
        current := current.(release := newRelease.value);
      }
      if newCluster.Some? && newCluster.value !in clusters {
        return false;
      }
      if newRelease.Some? && newRelease.value !in releases {
        return false;
      }
      if current.store.row.cluster != previous {
        return false;
      }
      var row := current.store.row.(version := current.store.row.version + 1);
      gateways := gateways[id := current.(store := current.store.(row := row, events := current.store.events + [R.Updated]))];
      return true;
    }

    /** One owner's references to a cluster: live rows, and deleted rows that the owner has not finished. */
    predicate HasUnfinishedReferences(cluster: P.Id, owner: R.Owner)
      reads this
    {
      exists g :: g in gateways && gateways[g].store.row.cluster == cluster &&
                  (!gateways[g].store.row.deleted || !R.Has(gateways[g].store.row.done, owner))
    }

    /** A cluster goes only when none of three owners has anything left there. */
    method DeleteCluster(id: P.Id) returns (deleted: bool)
      modifies this
      ensures Snapshot() == P.Apply(old(Snapshot()), P.DeleteCluster(id))
      ensures deleted <==> !exists g :: g in gateways && gateways[g].store.row.cluster == id && P.Unfinished(gateways[g])
      ensures clusters == (if deleted then old(clusters) - {id} else old(clusters)) && releases == old(releases) && gateways == old(gateways)
    {
      var owners := [R.Allocation, R.Workload, R.Sql];
      var i := 0;
      while i < |owners|
        invariant i <= |owners|
        invariant forall j :: 0 <= j < i ==> !HasUnfinishedReferences(id, owners[j])
      {
        if HasUnfinishedReferences(id, owners[i]) {
          assert owners[i] == R.Allocation || owners[i] == R.Workload || owners[i] == R.Sql;
          return false;
        }
        i := i + 1;
      }
      assert owners[0] == R.Allocation && owners[1] == R.Workload && owners[2] == R.Sql;
      assert forall j :: 0 <= j < 3 ==> !HasUnfinishedReferences(id, owners[j]);
      assert !exists g :: g in gateways && gateways[g].store.row.cluster == id && P.Unfinished(gateways[g]) by {
        assert !HasUnfinishedReferences(id, owners[0]) && !HasUnfinishedReferences(id, owners[1]) && !HasUnfinishedReferences(id, owners[2]);
      }
      clusters := clusters - {id};
      return true;
    }

    /** A release is referenced by live rows alone. */
    method DeleteRelease(id: P.Id) returns (deleted: bool)
      modifies this
      ensures Snapshot() == P.Apply(old(Snapshot()), P.DeleteRelease(id))
      ensures deleted <==> forall g :: g in gateways && !gateways[g].store.row.deleted ==> gateways[g].release != id
      ensures releases == (if deleted then old(releases) - {id} else old(releases)) && clusters == old(clusters) && gateways == old(gateways)
    {
      if exists g :: g in gateways && gateways[g].release == id && !gateways[g].store.row.deleted {
        return false;
      }
      releases := releases - {id};
      return true;
    }
  }
}
