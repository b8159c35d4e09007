/**
 Placement references: Gateways, clusters and releases under concurrent create,
 update, delete, catalog delete and cleanup observations. Each action is one
 serializable transaction.
 */
module Placement {
  import opened Common
  import opened GatewayRecord

  type Id = nat

  /** A Gateway row with its cleanup state, and the release that it names. */
  datatype Placed = Placed(store: Store, release: Id)

  datatype State = State(clusters: set<Id>, releases: set<Id>, gateways: map<Id, Placed>)

  datatype Action =
    | AddCluster(id: Id)
    | AddRelease(id: Id)
    | CreateGateway(id: Id, cluster: Id, release: Id)
    | UpdateGateway(id: Id, newCluster: Option<Id>, newRelease: Option<Id>)
    | RequestDelete(id: Id)
    | Observe(id: Id, version: nat, owner: Owner, target: Option<Id>, complete: bool)
    | DeleteCluster(id: Id)
    | DeleteRelease(id: Id)

  function Init(): State {
    State({}, {}, map[])
  }

  predicate LiveAt(p: Placed) {
    !p.store.row.deleted
  }

  /** What the catalog counts as a reference to a cluster: a live row, or one whose cleanup there is still owed. */
  predicate Unfinished(p: Placed) {
    LiveAt(p) || !p.store.row.done.allocation || !p.store.row.done.workload || !p.store.row.done.sql
  }

  /** A patch may name a cluster only to confirm it; a new release must exist. */
  function Patched(s: State, p: Placed, cluster: Option<Id>, release: Option<Id>): Option<Placed> {
    if cluster.Some? && cluster.value !in s.clusters then None
    else if release.Some? && release.value !in s.releases then None
    else if cluster.Some? && cluster.value != p.store.row.cluster then None
    else
      Some(Placed(p.store.(row := p.store.row.(version := p.store.row.version + 1), events := p.store.events + [Updated]),
                  if release.Some? then release.value else p.release))
  }

  function Apply(s: State, a: Action): State {
    match a
    case AddCluster(id) => s.(clusters := s.clusters + {id})
    case AddRelease(id) => s.(releases := s.releases + {id})
    case CreateGateway(id, cluster, release) =>
      if id in s.gateways || cluster !in s.clusters || release !in s.releases then s
      else s.(gateways := s.gateways[id := Placed(Created(cluster), release)])
    case UpdateGateway(id, cluster, release) =>
      if id !in s.gateways || !LiveAt(s.gateways[id]) then s
      else
        var p := Patched(s, s.gateways[id], cluster, release);
        if p.None? then s else s.(gateways := s.gateways[id := p.value])
    case RequestDelete(id) =>
      if id !in s.gateways then s
      else s.(gateways := s.gateways[id := s.gateways[id].(store := DeleteGateway(s.gateways[id].store))])
    case Observe(id, version, owner, target, complete) =>
      if id !in s.gateways then s
      else
        var recorded := RecordCleanup(s.gateways[id].store, version, owner, target, complete);
        if recorded.Err? then s else s.(gateways := s.gateways[id := s.gateways[id].(store := recorded.value)])
    case DeleteCluster(id) =>
      if exists g :: g in s.gateways && s.gateways[g].store.row.cluster == id && Unfinished(s.gateways[g]) then s
      else s.(clusters := s.clusters - {id})
    case DeleteRelease(id) =>
      if exists g :: g in s.gateways && s.gateways[g].release == id && LiveAt(s.gateways[g]) then s
      else s.(releases := s.releases - {id})
  }

  function Run(s: State, actions: seq<Action>): State
    decreases |actions|
  {
    if actions == [] then s else Apply(Run(s, actions[..|actions| - 1]), actions[|actions| - 1])
  }

  /* ---------- references that always hold ---------- */

  predicate References(s: State) {
    forall g :: g in s.gateways && LiveAt(s.gateways[g]) ==>
      s.gateways[g].store.row.cluster in s.clusters && s.gateways[g].release in s.releases
  }

  lemma StepKeepsReferences(s: State, a: Action)
    requires References(s)
    ensures References(Apply(s, a))
  {}

  lemma {:induction false} RunKeepsReferences(actions: seq<Action>)
    ensures References(Run(Init(), actions))
    decreases |actions|
  {
    if actions != [] {
      RunKeepsReferences(actions[..|actions| - 1]);
      StepKeepsReferences(Run(Init(), actions[..|actions| - 1]), actions[|actions| - 1]);
      hide References, Apply;
    }
  }

  /** In every reachable state every live Gateway names a stored cluster and a stored release. */
  lemma {:induction false} LiveReferencesExist(actions: seq<Action>, g: Id)
    requires g in Run(Init(), actions).gateways && LiveAt(Run(Init(), actions).gateways[g])
    ensures var s := Run(Init(), actions); s.gateways[g].store.row.cluster in s.clusters && s.gateways[g].release in s.releases
  {
    RunKeepsReferences(actions);
    hide Run;
  }

  predicate SamePlacement(s: State, t: State, g: Id) {
    g in s.gateways ==> g in t.gateways && t.gateways[g].store.row.cluster == s.gateways[g].store.row.cluster
  }

  lemma StepKeepsCluster(s: State, a: Action, g: Id)
    ensures SamePlacement(s, Apply(s, a), g)
  {}

  /** A Gateway's cluster never changes, and no Gateway row disappears. */
  lemma {:induction false} ClusterNeverChanges(s: State, actions: seq<Action>, g: Id)
    requires g in s.gateways
    ensures g in Run(s, actions).gateways
    ensures Run(s, actions).gateways[g].store.row.cluster == s.gateways[g].store.row.cluster
    decreases |actions|
  {
    if actions != [] {
      ClusterNeverChanges(s, actions[..|actions| - 1], g);
      StepKeepsCluster(Run(s, actions[..|actions| - 1]), actions[|actions| - 1], g);
      hide Apply;
    }
  }

  /** What a request leaves of its own Gateway: the row deleted once, with every observation pending again. */
  lemma RequestDeleteActs(s: State, g: Id)
    requires g in s.gateways
    ensures var t, row := Apply(s, RequestDelete(g)), s.gateways[g].store.row;
            && t.clusters == s.clusters && t.releases == s.releases && t.gateways.Keys == s.gateways.Keys
            && (forall h :: h in s.gateways && h != g ==> t.gateways[h] == s.gateways[h])
            && t.gateways[g].store.row.deleted && t.gateways[g].release == s.gateways[g].release
            && t.gateways[g].store.row == if row.deleted then row else row.(version := row.version + 1, deleted := true, done := PENDING)
  {}

  /** Which observations reach a Gateway, and that they reach no other. */
  lemma ObserveActs(s: State, g: Id, version: nat, owner: Owner, target: Option<Id>, complete: bool)
    requires g in s.gateways
    ensures var t, row := Apply(s, Observe(g, version, owner, target, complete)), s.gateways[g].store.row;
            && t.clusters == s.clusters && t.releases == s.releases && t.gateways.Keys == s.gateways.Keys
            && (forall h :: h in s.gateways && h != g ==> t.gateways[h] == s.gateways[h])
            && (if version >= 1 && version == row.version && row.deleted
                   && target == (if owner == Accounts || owner == Identity then None else Some(row.cluster))
                   && (owner == Sql && complete ==> ConsoleProven(s.gateways[g].store))
                then forall o :: Has(t.gateways[g].store.row.done, o) == if o == owner then complete else Has(row.done, o)
                else t == s)
  {
    CleanupAccepted(s.gateways[g].store, version, owner, target, complete);
    hide Has, Complete, Mark, ConsoleProven;
    if RecordCleanup(s.gateways[g].store, version, owner, target, complete).Ok? {
      CleanupOutcome(s.gateways[g].store, version, owner, target, complete);
    }
    hide RecordCleanup;
  }

  /* ---------- the reference that can be lost ---------- */

  /** Every Gateway with cleanup still owed at its cluster names a stored cluster. */
  predicate CleanupPlaced(s: State) {
    forall g :: g in s.gateways && Unfinished(s.gateways[g]) ==> s.gateways[g].store.row.cluster in s.clusters
  }

  /** A worker withdraws a complete observation at the row's revision after the cluster row has gone. */
  predicate WithdrawsAtLostCluster(s: State, a: Action) {
    && a.Observe? && a.id in s.gateways
    && Targeted(a.owner) && !a.complete
    && a.version == s.gateways[a.id].store.row.version && a.version >= 1
    && a.target == Some(s.gateways[a.id].store.row.cluster)
    && s.gateways[a.id].store.row.cluster !in s.clusters
  }

  /** Exactly which step loses the reference: the withdrawal of an observation at a removed cluster, and no other. */
  lemma CleanupPlacedExactly(s: State, a: Action)
    requires CleanupPlaced(s)
    ensures CleanupPlaced(Apply(s, a)) <==> !WithdrawsAtLostCluster(s, a)
  {
    if WithdrawsAtLostCluster(s, a) {
      var t := Apply(s, a);
      assert Unfinished(t.gateways[a.id]);
    }
  }

  lemma {:induction false} CleanupPlacedWithoutWithdrawals(actions: seq<Action>)
    requires forall k :: 0 <= k < |actions| ==> !WithdrawsAtLostCluster(Run(Init(), actions[..k]), actions[k])
    ensures CleanupPlaced(Run(Init(), actions))
    decreases |actions|
  {
    if actions != [] {
      var n := |actions| - 1;
      forall k | 0 <= k < n
        ensures !WithdrawsAtLostCluster(Run(Init(), actions[..n][..k]), actions[..n][k])
      {
        assert actions[..n][..k] == actions[..k];
      }
      CleanupPlacedWithoutWithdrawals(actions[..n]);
      CleanupPlacedExactly(Run(Init(), actions[..n]), actions[n]);
      hide CleanupPlaced, WithdrawsAtLostCluster, Apply;
    }
  }

  ghost predicate Reachable(s: State) {
    exists actions: seq<Action> :: s == Run(Init(), actions)
  }

  lemma ReachStep(s: State, a: Action)
    requires Reachable(s)
    ensures Reachable(Apply(s, a))
  {
    var actions: seq<Action> :| s == Run(Init(), actions);
    assert (actions + [a])[..|actions|] == actions;
    assert Run(Init(), actions + [a]) == Apply(s, a) by { hide Apply; }
  }

  /** A state with one Gateway, without SQL bindings. */
  predicate One(s: State, clusters: set<Id>, row: Row) {
    && s.clusters == clusters
    && 1 in s.gateways && (forall g :: g in s.gateways ==> g == 1)
    && s.gateways[1].store.row == row && s.gateways[1].store.console == ABSENT
  }

  lemma OneCreated() returns (s: State)
    ensures Reachable(s) && One(s, {1}, Row(1, 2, true, PENDING, false))
  {
    assert Run(Init(), []) == Init();
    assert Reachable(Init());
    ReachStep(Init(), AddCluster(1));
    var s1 := Apply(Init(), AddCluster(1));
    ReachStep(s1, AddRelease(1));
    var s2 := Apply(s1, AddRelease(1));
    ReachStep(s2, CreateGateway(1, 1, 1));
    var s3 := Apply(s2, CreateGateway(1, 1, 1));
    ReachStep(s3, RequestDelete(1));
    s := Apply(s3, RequestDelete(1));
    hide Reachable;
  }

  /** One more observation of the one Gateway, at its current revision. */
  lemma OneObserved(s: State, row: Row, owner: Owner, complete: bool) returns (t: State)
    requires Reachable(s) && One(s, s.clusters, row)
    requires row.cluster == 1 && row.deleted && row.version >= 1
    requires Targeted(owner) && Has(row.done, owner) != complete && !Complete(Mark(row.done, owner, complete))
    ensures Reachable(t) && One(t, s.clusters, Observed(row, owner, complete))
  {
    var a := Observe(1, row.version, owner, Some(1), complete);
    ReachStep(s, a);
    t := Apply(s, a);
    hide Reachable;
  }

  /**
   The property fails: all three cleanups complete, the cluster row is deleted, and
   a worker that finds its namespace again withdraws its observation.
   */
  lemma CleanupReferenceCanBeLost() returns (s: State)
    ensures Reachable(s) && !CleanupPlaced(s)
  {
    hide Reachable;
    s := OneCreated();
    var row := Row(1, 2, true, PENDING, false);
    s := OneObserved(s, row, Sql, true);
    row := Observed(row, Sql, true);
    s := OneObserved(s, row, Workload, true);
    row := Observed(row, Workload, true);
    s := OneObserved(s, row, Allocation, true);
    row := Observed(row, Allocation, true);
    ReachStep(s, DeleteCluster(1));
    s := Apply(s, DeleteCluster(1));
    s := OneObserved(s, row, Workload, false);
    assert Unfinished(s.gateways[1]);
  }
}
