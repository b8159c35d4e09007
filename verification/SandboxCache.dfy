/** The sandbox count cache and its controller as they run: maps updated in place, one event at a time. */
module SandboxCache {
  import opened Common
  import opened SandboxCount

  /** The source's zero value for a Pod that is not cached. */
  const NO_POD := Pod("", "", "", false)

  lemma RebuildFails(objects: seq<Object>, n: nat)
    requires n <= |objects| && Rebuild(objects[..n]).Err?
    ensures Rebuild(objects) == Rebuild(objects[..n])
    decreases |objects| - n
  {
    hide Step, Moved, Namespaces, PodsOk;
    if n < |objects| {
      assert objects[..n + 1][..n] == objects[..n];
      RebuildFails(objects, n + 1);
    } else {
      assert objects[..n] == objects;
    }
  }

  /** An event either fails before any change, or lists exactly the namespaces whose count it moved. */
  predicate Updated(before: Pods, listed: set<string>, kind: Kind, o: Object, after: Pods, changed: set<string>, error: Option<Error>) {
    match Step(before, kind, o)
    case Err(e) => error == Some(e) && after == before && changed == listed
    case Ok(t) =>
      && after == t
      && changed == listed + Moved(before, t)
      && error == if Moved(before, t) != {} && |changed| > MAX_OBSERVED then Some(QueueLimit) else None
  }

  /** A list replaces the Pods as a whole or not at all, and lists every namespace counted before or after. */
  predicate Replaced(before: Pods, listed: set<string>, objects: seq<Object>, after: Pods, changed: set<string>, error: Option<Error>) {
    match Rebuild(objects)
    case Err(e) => error == Some(e) && after == before && changed == listed
    case Ok(next) =>
      var all := next.touched + Tally(before).Keys + listed;
      if |all| > MAX_OBSERVED then error == Some(QueueLimit) && after == before && changed == listed
      else error == None && after == next.pods && changed == all
  }

  class Observation {
    var ready: bool
    var pods: Pods
    var counts: map<string, int>
    var changed: set<string>
    /** The counts when the controller last emptied `changed`. */
    ghost var drained: map<string, int>

    /** The counts are a recount of the cached Pods, and no moved count is missing from `changed`. */
    ghost predicate Valid()
      reads this
    {
      && PodsOk(pods)
      && counts == Tally(pods)
      && forall ns: string :: Count(counts, ns) != Count(drained, ns) ==> ns in changed
    }

    constructor ()
      ensures Valid() && !ready && pods == map[] && counts == map[] && changed == {} && drained == map[]
    {
      ready, pods, counts, changed, drained := false, map[], map[], {}, map[];
    }

    /** The counting half of an update, after the Pods have changed at one uid. */
    method Recount(prior: Pod, next: Pod, ghost before: Pods, ghost uid: Uid, ghost ns: string) returns (error: Option<Error>)
      requires counts == Tally(before) && OnlyChanges(before, pods, uid, ns)
      requires prior.active == IsActive(before, uid) && next.active == IsActive(pods, uid)
      requires (prior.active ==> prior.namespace == ns) && (next.active ==> next.namespace == ns)
      modifies this`counts, this`changed
      ensures counts == Tally(pods)
      ensures changed == old(changed) + Moved(before, pods)
      ensures error == if Moved(before, pods) != {} && |changed| > MAX_OBSERVED then Some(QueueLimit) else None
    {
      BumpIsRecount(before, pods, uid, ns);
      assert Shift(before, pods, uid) == (if next.active then 1 else 0) - (if prior.active then 1 else 0);
      hide Tally, Moved, OnlyChanges, IsActive, Shift;
      error := None;
      if prior.active != next.active {
        var space := if prior.active then prior.namespace else next.namespace;
        var count := Count(counts, space) + (if prior.active then -1 else 1);
        if count == 0 {
          counts := counts - {space};
        } else {
          counts := counts[space := count];
        }
        changed := changed + {space};
        if |changed| > MAX_OBSERVED {
          error := Some(QueueLimit);
        }
      } else {
        assert counts == Bump(counts, ns, 0) by { ZeroBump(before, ns); }
      }
    }

    /** The caching half of an update: `settled` when the event says nothing new. */
    method Place(kind: Kind, uid: Uid, next: Pod, ghost o: Object) returns (error: Option<Error>, settled: bool)
      requires Classify(o) == Ok(next) && o.uid == uid
      modifies this`pods
      ensures match Step(old(pods), kind, o)
              case Err(e) => error == Some(e) && pods == old(pods)
              case Ok(t) => error == None && pods == t
      ensures settled ==> pods == old(pods)
      ensures error == None && !settled ==> if kind == Deleted then uid in old(pods) else pods == old(pods)[uid := next]
    {
      hide Canonical;
      error, settled := None, false;
      var cached := uid in pods;
      if cached && pods[uid].physical != next.physical {
        return Some(ChangedNamespace), false;
      }
      match kind {
        case Deleted =>
          if !cached {
            assert pods - {uid} == pods;
            return None, true;
          }
          pods := pods - {uid};
        case Unknown =>
          return Some(UnknownEvent), false;
        case _ =>
          if cached && pods[uid].version == next.version {
            return None, true;
          }
          if !cached && |pods| >= MAX_OBSERVED {
            return Some(CacheLimit), false;
          }
          pods := pods[uid := next];
      }
    }

    method Update(kind: Kind, o: Object) returns (error: Option<Error>)
      requires Valid()
      modifies this`pods, this`counts, this`changed
      ensures Valid()
      ensures Updated(old(pods), old(changed), kind, o, pods, changed, error)
      ensures var refusal := Refusal(old(pods), kind, o);
              if refusal.Some? then error == refusal && pods == old(pods) && counts == old(counts) && changed == old(changed)
              else
                && Shifted(old(counts), counts, old(pods), kind, o)
                && Lists(old(changed), changed, old(pods), kind, o)
                && (error == None || error == Some(QueueLimit))
    {
      hide Refusal, Delta, Shifted, Lists, Step;
      EventListed(pods, changed, kind, o);
      hide Canonical, Tally, Moved, Count, PodsOk, OnlyChanges, IsActive;
      var classified := Classify(o);
      if classified.Err? {
        Unclassified(pods, kind, o);
        return Some(classified.error);
      }
      var next, before := classified.value, pods;
      var prior := Prior(pods, o.uid);
      var settled;
      error, settled := Place(kind, o.uid, next, o);
      hide Classify;
      if error.Some? {
        return;
      }
      if settled {
        MovedNothing(pods);
        return;
      }
      Placed(before, kind, o);
      StepKeepsPodsOk(before, kind, o);
      StillListed(before, pods, changed, drained);
      hide Step;
      error := Recount(prior, if kind == Deleted then next.(active := false) else next, before, o.uid, Canonical(o.namespace));
    }

    /** Any error leaves the cache waiting for a new baseline. */
    method Consume(change: Change) returns (error: Option<Error>)
      requires Valid()
      modifies this
      ensures Valid() && drained == old(drained)
      ensures error.Some? ==> !ready
      ensures match change
              case Reset => error == None && !ready && pods == old(pods) && changed == old(changed)
              case Replace(objects) =>
                && Replaced(old(pods), old(changed), objects, pods, changed, error)
                && (error == None ==> ready)
              case Event(kind, o) =>
                if !old(ready) then error == Some(BeforeBaseline) && pods == old(pods) && changed == old(changed)
                else
                  && Updated(old(pods), old(changed), kind, o, pods, changed, error)
                  && (error == None ==> ready && Refusal(old(pods), kind, o) == None && Shifted(old(counts), counts, old(pods), kind, o))
    {
      hide Tally, Count, PodsOk, Updated, Replaced, Refusal, Delta, Shifted;
      error := None;
      match change {
        case Reset =>
          ready := false;
        case Replace(objects) =>
          error := ReplaceAll(objects);
        case Event(kind, o) =>
          if !ready {
            return Some(BeforeBaseline);
          }
          error := Update(kind, o);
      }
      if error.Some? {
        ready := false;
      }
    }

    /** A new cache reads the whole list before anything is replaced. */
    static method ReadList(objects: seq<Object>) returns (next: Observation, error: Option<Error>)
      ensures fresh(next) && next.Valid() && next.drained == map[]
      ensures error == if Rebuild(objects).Err? then Some(Rebuild(objects).error) else None
      ensures error == None ==> Rebuild(objects) == Ok(Listing(next.pods, next.changed))
    {
      hide Tally, Moved, Count, PodsOk, Step, Namespaces, Rebuild;
      next := new Observation();
      error := None;
      var i := 0;
      assert objects[..0] == [];
      EmptyList();
      while i < |objects|
        invariant i <= |objects|
        invariant next.Valid() && next.drained == map[] && fresh(next) && error == None
        invariant Rebuild(objects[..i]) == Ok(Listing(next.pods, next.changed))
      {
        ghost var part := objects[..i + 1];
        assert part[..|part| - 1] == objects[..i] && part[|part| - 1] == objects[i];
        RebuildNext(part);
        NeverFull(part);
        error := next.Update(Added, objects[i]);
        if error.Some? {
          RebuildFails(objects, i + 1);
          return;
        }
        i := i + 1;
      }
      assert objects[..i] == objects;
    }

    method ReplaceAll(objects: seq<Object>) returns (error: Option<Error>)
      requires Valid()
      modifies this
      ensures Valid() && drained == old(drained)
      ensures Replaced(old(pods), old(changed), objects, pods, changed, error)
      ensures error == None ==> ready
    {
      hide Tally, Count, PodsOk, Rebuild;
      var next;
      next, error := ReadList(objects);
      if error.Some? {
        return;
      }
      var all := next.changed + counts.Keys + changed;
      if |all| > MAX_OBSERVED {
        return Some(QueueLimit);
      }
      ReplacedListed(pods, next.pods, changed, next.changed, drained);
      pods, counts, changed := next.pods, next.counts, all;
      ready := true;
    }

    /** The controller empties the set in the same critical section that read it. */
    method Drain() returns (moved: set<string>)
      requires Valid()
      modifies this`changed, this`drained
      ensures Valid() && changed == {} && drained == counts
      ensures moved == old(changed)
      ensures forall ns: string :: Count(counts, ns) != Count(old(drained), ns) ==> ns in moved
    {
      moved := changed;
      changed := {};
      drained := counts;
    }
  }

  /** While a list is read, the touched namespaces are those of listed Pods, so the queue limit cannot be met. */
  lemma NeverFull(objects: seq<Object>)
    ensures Rebuild(objects).Ok? ==> |Rebuild(objects).value.touched| <= MAX_OBSERVED
  {
    if Rebuild(objects).Ok? {
      ImageBound(Rebuild(objects).value.pods);
      SubsetSize(Rebuild(objects).value.touched, Namespaces(Rebuild(objects).value.pods));
    }
  }

  lemma EmptyList()
    ensures Rebuild([]) == Ok(Listing(map[], {}))
  {}

  lemma RebuildNext(objects: seq<Object>)
    requires objects != [] && Rebuild(objects[..|objects| - 1]).Ok?
    ensures var before := Rebuild(objects[..|objects| - 1]).value;
            Rebuild(objects) ==
            match Step(before.pods, Added, objects[|objects| - 1])
            case Err(e) => Err(e)
            case Ok(t) => Ok(Listing(t, before.touched + Moved(before.pods, t)))
  {
    hide Step, Moved, Namespaces, PodsOk;
  }

  lemma ReplacedListed(before: Pods, after: Pods, listed: set<string>, touched: set<string>, drained: map<string, int>)
    requires forall ns: string :: Count(Tally(before), ns) != Count(drained, ns) ==> ns in listed
    requires forall ns: string :: Count(Tally(after), ns) != Count(map[], ns) ==> ns in touched
    ensures forall ns: string :: Count(Tally(after), ns) != Count(drained, ns) ==> ns in touched + Tally(before).Keys + listed
  {
    hide Tally;
  }

  function Prior(pods: Pods, uid: Uid): Pod {
    if uid in pods then pods[uid] else NO_POD
  }

  /** An event that changes the cache changes it at one uid, within one canonical namespace. */
  lemma Placed(pods: Pods, kind: Kind, o: Object)
    requires PodsOk(pods) && Classify(o).Ok? && Step(pods, kind, o).Ok?
    requires kind == Deleted ==> o.uid in pods
    ensures var t, ns, prior, next := Step(pods, kind, o).value, Canonical(o.namespace), Prior(pods, o.uid), Classify(o).value;
            && OnlyChanges(pods, t, o.uid, ns)
            && prior.active == IsActive(pods, o.uid) && (prior.active ==> prior.namespace == ns)
            && next.namespace == ns
            && (kind == Deleted ==> !IsActive(t, o.uid))
            && (kind != Deleted && t != pods ==> next.active == IsActive(t, o.uid))
            && (kind != Deleted && t == pods[o.uid := next] ==> next.active == IsActive(t, o.uid))
  {
    hide Canonical;
    var t := Step(pods, kind, o).value;
    assert pods - {o.uid} == t - {o.uid};
  }

  lemma ZeroBump(pods: Pods, ns: string)
    ensures Bump(Tally(pods), ns, 0) == Tally(pods)
  {
    InTally(pods, ns);
    hide Tally, Active;
  }

  /** A namespace whose count moves now, or had moved before, is listed afterwards. */
  lemma StillListed(before: Pods, after: Pods, changed: set<string>, drained: map<string, int>)
    requires forall ns: string :: Count(Tally(before), ns) != Count(drained, ns) ==> ns in changed
    ensures forall ns: string :: Count(Tally(after), ns) != Count(drained, ns) ==> ns in changed + Moved(before, after)
  {
    forall ns: string | Count(Tally(after), ns) != Count(drained, ns)
      ensures ns in changed + Moved(before, after)
    {
      MovedIsDifference(before, after, ns);
      hide Tally, Moved;
    }
  }

  /** The counts and the listed namespaces of an accepted event, from what it says. */
  lemma EventListed(pods: Pods, listed: set<string>, kind: Kind, o: Object)
    ensures Step(pods, kind, o).Err? <==> Refusal(pods, kind, o).Some?
    ensures Step(pods, kind, o).Err? ==> Refusal(pods, kind, o) == Some(Step(pods, kind, o).error)
    ensures Step(pods, kind, o).Ok? ==>
              var t := Step(pods, kind, o).value;
              Shifted(Tally(pods), Tally(t), pods, kind, o) && Lists(listed, listed + Moved(pods, t), pods, kind, o)
  {
    EventOutcome(pods, kind, o);
    hide Step, Refusal, Tally, Moved, Delta, Active;
    if Step(pods, kind, o).Ok? {
      var t := Step(pods, kind, o).value;
      forall n: string
        ensures Count(Tally(t), n) == Count(Tally(pods), n) + Delta(pods, kind, o, n)
        ensures n in Moved(pods, t) <==> Delta(pods, kind, o, n) != 0
      {
        EventCounts(pods, kind, o, n);
        MovedIsDifference(pods, t, n);
        CountIsRecount(pods, n);
        CountIsRecount(t, n);
      }
    }
  }

  lemma Unclassified(pods: Pods, kind: Kind, o: Object)
    requires Classify(o).Err?
    ensures Step(pods, kind, o) == Err(Classify(o).error)
  {}

  lemma MovedNothing(pods: Pods)
    ensures Moved(pods, pods) == {}
  {}

  class Controller {
    var states: map<string, Observation>

    ghost predicate Valid()
      reads this, states.Values
    {
      && (forall ns :: ns in states ==> states[ns].Valid())
      && (forall a, b :: a in states && b in states && a != b ==> states[a] != states[b])
    }

    constructor ()
      ensures Valid() && states == map[]
    {
      states := map[];
    }

    method Remove(ns: string)
      requires Valid()
      modifies this
      ensures Valid() && states == old(states) - {ns}
    {
      states := states - {ns};
    }

    /** A reset starts an empty cache; the old one is dropped with its evidence. */
    method Reset(ns: string)
      requires Valid()
      modifies this
      ensures Valid() && ns in states && states == old(states)[ns := states[ns]]
      ensures fresh(states[ns]) && !states[ns].ready && states[ns].pods == map[]
    {
      var baseline := new Observation();
      states := states[ns := baseline];
    }

    /**
     Ok(true) enqueues the watch namespace. A consumed event or list that is not
     enqueued moved no count since the last drain; no other namespace is touched.
     */
    method Observe(ns: string, change: Change) returns (enqueued: Result<bool, Error>)
      requires Valid() && !change.Reset?
      modifies if ns in states then {states[ns]} else {}
      ensures Valid()
      ensures ns !in states ==> enqueued == Err(NoBaselineReset)
      ensures ns in states ==>
                && states[ns].changed == {}
                && states[ns].drained == states[ns].counts
                && (enqueued.Err? ==> !states[ns].ready)
                && (change.Replace? && enqueued.Ok? ==> enqueued == Ok(true))
                && (enqueued == Ok(false) ==> forall n: string :: Count(states[ns].counts, n) == Count(old(states[ns].drained), n))
                && (enqueued.Ok? ==> states[ns].ready)
                && (enqueued == Ok(true) ==> change.Replace? || old(states[ns].changed) + Moved(old(states[ns].pods), states[ns].pods) != {})
                && (enqueued.Ok? ==> match change
                      case Event(kind, o) =>
                        && old(states[ns].ready) && Refusal(old(states[ns].pods), kind, o) == None
                        && Shifted(old(states[ns].counts), states[ns].counts, old(states[ns].pods), kind, o)
                      case _ => true)
    {
      hide Tally, PodsOk, Count, Replaced, Refusal, Shifted, Step, Moved;
      if ns !in states {
        return Err(NoBaselineReset);
      }
      var state := states[ns];
      var error := state.Consume(change);
      var moved := state.Drain();
      if error.Some? {
        return Err(error.value);
      }
      return Ok(change.Replace? || |moved| > 0);
    }
  }
}
