/**
 The sandbox count cache: counts kept up to date one Pod event at a time, against
 a recount of the cached Pods, and the namespaces whose count has moved since the
 controller last drained them.
 */
module SandboxCount {
  import opened Common

  /** Zero stands for a missing uid. */
  type Uid = nat

  const MAX_OBSERVED: nat := 10000

  datatype Phase = Pending | Running | Other

  /** The observed fields; a missing uid and an empty namespace or version has no identity. */
  datatype Object = Object(uid: Uid, namespace: string, version: string, sandbox: bool, phase: Phase)

  datatype Pod = Pod(namespace: string, version: string, physical: string, active: bool)

  datatype Kind = Added | Modified | Deleted | Unknown

  datatype Change = Reset | Replace(objects: seq<Object>) | Event(kind: Kind, object: Object)

  datatype Error = NoIdentity | ChangedNamespace | CacheLimit | QueueLimit | UnknownEvent | BeforeBaseline | NoBaselineReset

  type Pods = map<Uid, Pod>

  predicate Hex(c: char) {
    '0' <= c <= '9' || 'a' <= c <= 'f'
  }

  predicate Suffix(ns: string, prefix: string) {
    |ns| == |prefix| + 16 && ns[..|prefix|] == prefix && forall i :: |prefix| <= i < |ns| ==> Hex(ns[i])
  }

  /** Gateway and sandbox namespaces share one canonical name; any other has none. */
  function Canonical(ns: string): string {
    if Suffix(ns, "openshell-") then ns
    else if Suffix(ns, "openshell-sandbox-") then "openshell-" + ns[18..]
    else ""
  }

  function Classify(o: Object): Result<Pod, Error> {
    if o.uid == 0 || o.namespace == "" || o.version == "" then Err(NoIdentity)
    else
      var canonical := Canonical(o.namespace);
      Ok(Pod(canonical, o.version, o.namespace, canonical != "" && o.sandbox && (o.phase == Pending || o.phase == Running)))
  }

  /* ---------- the recount ---------- */

  function Active(pods: Pods, ns: string): set<Uid> {
    set uid | uid in pods && pods[uid].active && pods[uid].namespace == ns
  }

  function Namespaces(pods: Pods): set<string> {
    set uid | uid in pods :: pods[uid].namespace
  }

  /** The counts of a fresh recount: the active Pods of each namespace that has any. */
  function Tally(pods: Pods): map<string, int> {
    map ns | ns in Namespaces(pods) && Active(pods, ns) != {} :: |Active(pods, ns)|
  }

  function Count(counts: map<string, int>, ns: string): int {
    if ns in counts then counts[ns] else 0
  }

  lemma CountIsRecount(pods: Pods, ns: string)
    ensures Count(Tally(pods), ns) == |Active(pods, ns)|
  {
    if Active(pods, ns) != {} {
      var uid :| uid in Active(pods, ns);
      assert pods[uid].namespace in Namespaces(pods);
    }
  }

  function Moved(before: Pods, after: Pods): set<string> {
    set ns | ns in Namespaces(before) + Namespaces(after) && |Active(before, ns)| != |Active(after, ns)|
  }

  lemma MovedIsDifference(before: Pods, after: Pods, ns: string)
    ensures ns in Moved(before, after) <==> Count(Tally(before), ns) != Count(Tally(after), ns)
  {
    CountIsRecount(before, ns);
    CountIsRecount(after, ns);
    if ns !in Namespaces(before) + Namespaces(after) {
      assert Active(before, ns) == {} && Active(after, ns) == {};
    }
  }

  /** Cached Pods agree with their physical namespace; only a canonical one is counted. */
  predicate PodsOk(pods: Pods) {
    && |pods| <= MAX_OBSERVED
    && forall uid :: uid in pods ==> pods[uid].namespace == Canonical(pods[uid].physical) && (pods[uid].active ==> pods[uid].namespace != "")
  }

  /** What one event does to the cached Pods. */
  function Step(pods: Pods, kind: Kind, o: Object): Result<Pods, Error> {
    var next := Classify(o);
    if next.Err? then Err(next.error)
    else if o.uid in pods && pods[o.uid].physical != o.namespace then Err(ChangedNamespace)
    else match kind
      case Deleted => Ok(pods - {o.uid})
      case Unknown => Err(UnknownEvent)
      case _ =>
        if o.uid in pods && pods[o.uid].version == o.version then Ok(pods)
        else if o.uid !in pods && |pods| >= MAX_OBSERVED then Err(CacheLimit)
        else Ok(pods[o.uid := next.value])
  }

  lemma PutSize(pods: Pods, uid: Uid, next: Pod)
    ensures |pods[uid := next]| == |pods| + (if uid in pods then 0 else 1)
  {
    assert pods[uid := next].Keys == pods.Keys + {uid};
  }

  lemma StepKeepsPodsOk(pods: Pods, kind: Kind, o: Object)
    requires PodsOk(pods) && Step(pods, kind, o).Ok?
    ensures PodsOk(Step(pods, kind, o).value)
  {
    hide Canonical;
    StepActs(pods, kind, o);
    StepSize(pods, kind, o);
    hide Step;
  }

  lemma StepSize(pods: Pods, kind: Kind, o: Object)
    requires |pods| <= MAX_OBSERVED && Step(pods, kind, o).Ok?
    ensures |Step(pods, kind, o).value| <= MAX_OBSERVED
  {
    hide Canonical, Classify;
    var t := Step(pods, kind, o).value;
    if kind == Deleted {
      SubsetSize(t.Keys, pods.Keys);
    } else if t != pods {
      PutSize(pods, o.uid, Classify(o).value);
    }
  }

  lemma ImageBound(pods: Pods)
    ensures |Namespaces(pods)| <= |pods|
    decreases |pods|
  {
    if |pods| > 0 {
      var uid :| uid in pods;
      var rest := pods - {uid};
      assert rest.Keys == pods.Keys - {uid};
      ImageBound(rest);
      assert Namespaces(pods) == Namespaces(rest) + {pods[uid].namespace} by {
        forall ns | ns in Namespaces(pods)
          ensures ns in Namespaces(rest) + {pods[uid].namespace}
        {
          var u :| u in pods && pods[u].namespace == ns;
          assert u != uid ==> u in rest && rest[u] == pods[u];
        }
      }
    }
  }

  /** Every count lies in 1..MAX_OBSERVED, so it fits the reported 32-bit integer. */
  lemma CountsBounded(pods: Pods, ns: string)
    requires PodsOk(pods) && ns in Tally(pods)
    ensures 1 <= Tally(pods)[ns] <= MAX_OBSERVED
  {
    SubsetSize(Active(pods, ns), pods.Keys);
  }

  /* ---------- a whole list ---------- */

  /** The Pods of a list and the namespaces whose count moved while it was read. */
  datatype Listing = Listing(pods: Pods, touched: set<string>)

  function Rebuild(objects: seq<Object>): (r: Result<Listing, Error>)
    ensures r.Ok? ==> PodsOk(r.value.pods) && r.value.touched <= Namespaces(r.value.pods)
  {
    if objects == [] then Ok(Listing(map[], {}))
    else
      var before := Rebuild(objects[..|objects| - 1]);
      if before.Err? then before
      else
        var after := Step(before.value.pods, Added, objects[|objects| - 1]);
        if after.Err? then Err(after.error)
        else
          StepKeepsPodsOk(before.value.pods, Added, objects[|objects| - 1]);
          NamespacesGrow(before.value.pods, objects[|objects| - 1]);
          Ok(Listing(after.value, before.value.touched + Moved(before.value.pods, after.value)))
  }

  lemma NamespacesGrow(pods: Pods, o: Object)
    requires PodsOk(pods) && Step(pods, Added, o).Ok?
    ensures Namespaces(pods) <= Namespaces(Step(pods, Added, o).value)
  {
    hide Canonical;
    var t := Step(pods, Added, o).value;
    forall ns | ns in Namespaces(pods)
      ensures ns in Namespaces(t)
    {
      var u :| u in pods && pods[u].namespace == ns;
      assert u in t && t[u].namespace == ns by { assert Classify(o).Ok?; }
    }
  }

  function Restrict(pods: Pods, uids: set<Uid>): Pods {
    map uid | uid in pods && uid in uids :: pods[uid]
  }

  function Uids(objects: seq<Object>): set<Uid> {
    set i | 0 <= i < |objects| :: objects[i].uid
  }

  /** The objects behind some cached Pods, each once. */
  predicate Shows(objects: seq<Object>, pods: Pods) {
    && (forall i :: 0 <= i < |objects| ==> objects[i].uid in pods && Classify(objects[i]) == Ok(pods[objects[i].uid]))
    && (forall i, j :: 0 <= i < j < |objects| ==> objects[i].uid != objects[j].uid)
  }

  lemma ShownNext(objects: seq<Object>, pods: Pods)
    requires Shows(objects, pods) && objects != []
    ensures var n := |objects| - 1;
            && Shows(objects[..n], pods)
            && objects[n].uid !in Uids(objects[..n])
            && Uids(objects) == Uids(objects[..n]) + {objects[n].uid}
  {
    hide Classify;
  }

  lemma RestrictNext(pods: Pods, uids: set<Uid>, uid: Uid)
    requires uid in pods && uid !in uids
    ensures Restrict(pods, uids)[uid := pods[uid]] == Restrict(pods, uids + {uid})
    ensures uid !in Restrict(pods, uids) && |Restrict(pods, uids)| < |pods|
  {
    assert Restrict(pods, uids).Keys <= pods.Keys - {uid};
    SubsetSize(Restrict(pods, uids).Keys, pods.Keys - {uid});
  }

  lemma {:induction false} RebuildShown(objects: seq<Object>, pods: Pods)
    requires PodsOk(pods) && Shows(objects, pods)
    ensures Rebuild(objects).Ok? && Rebuild(objects).value.pods == Restrict(pods, Uids(objects))
    decreases |objects|
  {
    if objects == [] {
      assert Restrict(pods, Uids(objects)) == map[];
    } else {
      var n := |objects| - 1;
      var o := objects[n];
      ShownNext(objects, pods);
      RebuildShown(objects[..n], pods);
      RestrictNext(pods, Uids(objects[..n]), o.uid);
      hide Classify, Moved, Namespaces, Restrict, Uids;
      assert Step(Restrict(pods, Uids(objects[..n])), Added, o) == Ok(Restrict(pods, Uids(objects)));
    }
  }

  /** A single list of the cached Pods rebuilds the same cache, in whatever order it names them. */
  lemma RebuildIsIdentity(objects: seq<Object>, pods: Pods)
    requires PodsOk(pods) && Shows(objects, pods) && Uids(objects) == pods.Keys
    ensures Rebuild(objects).Ok?
    ensures Rebuild(objects).value.pods == pods && Tally(Rebuild(objects).value.pods) == Tally(pods)
    ensures |Rebuild(objects).value.touched| <= MAX_OBSERVED
  {
    RebuildShown(objects, pods);
    assert Restrict(pods, Uids(objects)) == pods;
    ImageBound(pods);
    SubsetSize(Rebuild(objects).value.touched, Namespaces(pods));
  }

  /* ---------- one incremental update ---------- */

  /** A count that reaches zero leaves the map. */
  function Bump(counts: map<string, int>, ns: string, delta: int): map<string, int> {
    if Count(counts, ns) + delta == 0 then counts - {ns} else counts[ns := Count(counts, ns) + delta]
  }

  predicate OnlyChanges(before: Pods, after: Pods, uid: Uid, ns: string) {
    && before - {uid} == after - {uid}
    && (uid in before ==> before[uid].namespace == ns)
    && (uid in after ==> after[uid].namespace == ns)
  }

  predicate IsActive(pods: Pods, uid: Uid) {
    uid in pods && pods[uid].active
  }

  function Shift(before: Pods, after: Pods, uid: Uid): int {
    (if IsActive(after, uid) then 1 else 0) - (if IsActive(before, uid) then 1 else 0)
  }

  lemma RecountWithout(pods: Pods, uid: Uid, n: string)
    ensures |Active(pods, n)| == |Active(pods - {uid}, n)| + (if IsActive(pods, uid) && pods[uid].namespace == n then 1 else 0)
  {
    if IsActive(pods, uid) && pods[uid].namespace == n {
      assert Active(pods, n) == Active(pods - {uid}, n) + {uid};
    } else {
      assert Active(pods, n) == Active(pods - {uid}, n);
    }
  }

  lemma RecountShifts(before: Pods, after: Pods, uid: Uid, ns: string, n: string)
    requires OnlyChanges(before, after, uid, ns)
    ensures |Active(after, n)| == |Active(before, n)| + (if n == ns then Shift(before, after, uid) else 0)
  {
    RecountWithout(before, uid, n);
    RecountWithout(after, uid, n);
  }

  /** The incremental update of the counts is the recount of the new Pods. */
  lemma BumpIsRecount(before: Pods, after: Pods, uid: Uid, ns: string)
    requires OnlyChanges(before, after, uid, ns)
    ensures Tally(after) == Bump(Tally(before), ns, Shift(before, after, uid))
    ensures Moved(before, after) == if Shift(before, after, uid) == 0 then {} else {ns}
  {
    hide Active, OnlyChanges, Shift;
    forall n: string
      ensures (n in Tally(after) <==> n in Bump(Tally(before), ns, Shift(before, after, uid)))
      ensures n in Tally(after) ==> Tally(after)[n] == Bump(Tally(before), ns, Shift(before, after, uid))[n]
      ensures n in Moved(before, after) <==> n == ns && Shift(before, after, uid) != 0
    {
      RecountShifts(before, after, uid, ns, n);
      InTally(before, n);
      InTally(after, n);
      InTally(before, ns);
      MovedIsDifference(before, after, n);
      hide Tally, Moved;
    }
  }

  lemma InTally(pods: Pods, ns: string)
    ensures ns in Tally(pods) <==> |Active(pods, ns)| != 0
    ensures Count(Tally(pods), ns) == |Active(pods, ns)|
  {
    CountIsRecount(pods, ns);
    if |Active(pods, ns)| != 0 {
      var uid :| uid in Active(pods, ns);
      assert pods[uid].namespace in Namespaces(pods);
    }
  }

  /* ---------- what one event counts ---------- */

  /** Sixteen lower-case hexadecimal digits: the part of a namespace that names its Gateway. */
  predicate Digits(h: string) {
    |h| == 16 && forall c :: c in h ==> c in "0123456789abcdef"
  }

  predicate Names(ns: string, h: string) {
    ns == "openshell-" + h || ns == "openshell-sandbox-" + h
  }

  lemma HexDigits(c: char)
    ensures Hex(c) <==> c in "0123456789abcdef"
  {
    var all := "0123456789abcdef";
    if '0' <= c <= '9' {
      assert all[c as int - '0' as int] == c;
    } else if 'a' <= c <= 'f' {
      assert all[10 + (c as int - 'a' as int)] == c;
    }
  }

  lemma SuffixNames(ns: string, prefix: string)
    ensures Suffix(ns, prefix) <==> |ns| >= |prefix| && ns == prefix + ns[|prefix|..] && Digits(ns[|prefix|..])
  {
    if |ns| == |prefix| + 16 {
      var h := ns[|prefix|..];
      assert forall i :: |prefix| <= i < |ns| ==> ns[i] == h[i - |prefix|];
      assert forall i :: 0 <= i < |h| ==> h[i] == ns[i + |prefix|];
      forall c: char
        ensures Hex(c) <==> c in "0123456789abcdef"
      {
        HexDigits(c);
      }
      hide Hex;
      assert (forall i :: |prefix| <= i < |ns| ==> Hex(ns[i])) <==> forall c :: c in h ==> c in "0123456789abcdef";
    }
  }

  /** Both namespaces of a Gateway are counted under its own name. */
  lemma CanonicalOfGateway(ns: string, h: string)
    requires Digits(h) && Names(ns, h)
    ensures Canonical(ns) == "openshell-" + h
  {
    SuffixNames(ns, "openshell-");
    SuffixNames(ns, "openshell-sandbox-");
    hide Suffix, Digits;
    if ns == "openshell-" + h {
      assert ns[10..] == h;
    } else {
      assert ns[18..] == h;
      DigitsLength(h);
      NotBoth(ns, h);
    }
  }

  lemma DigitsLength(h: string)
    ensures Digits(h) ==> |h| == 16
  {}

  lemma NotBoth(ns: string, h: string)
    requires |h| == 16 && ns == "openshell-sandbox-" + h
    ensures !Suffix(ns, "openshell-")
  {}

  /** No other namespace is counted at all. */
  lemma CanonicalOfOther(ns: string)
    ensures Canonical(ns) != "" ==> exists h :: Digits(h) && Names(ns, h)
  {
    SuffixNames(ns, "openshell-");
    SuffixNames(ns, "openshell-sandbox-");
    hide Suffix, Digits;
    if Suffix(ns, "openshell-") {
      assert Names(ns, ns[10..]);
    }
    if Suffix(ns, "openshell-sandbox-") {
      assert Names(ns, ns[18..]);
    }
  }

  /** This observed object is one running or starting sandbox of the Gateway namespace n. */
  ghost predicate Counts(o: Object, n: string) {
    && o.sandbox && (o.phase == Pending || o.phase == Running)
    && exists h :: Digits(h) && Names(o.namespace, h) && n == "openshell-" + h
  }

  lemma ClassifyCounts(o: Object, n: string)
    requires Classify(o).Ok?
    ensures Counts(o, n) <==> Classify(o).value.active && Classify(o).value.namespace == n
  {
    hide Canonical, Digits;
    if exists h :: Digits(h) && Names(o.namespace, h) {
      var h :| Digits(h) && Names(o.namespace, h);
      CanonicalOfGateway(o.namespace, h);
      forall g | Digits(g) && Names(o.namespace, g)
        ensures "openshell-" + g == "openshell-" + h
      {
        CanonicalOfGateway(o.namespace, g);
      }
    } else {
      CanonicalOfOther(o.namespace);
    }
  }

  predicate CountedAt(pods: Pods, uid: Uid, n: string) {
    uid in pods && pods[uid].active && pods[uid].namespace == n
  }

  function One(b: bool): int {
    if b then 1 else 0
  }

  /** By how much an accepted event moves the count of one namespace. */
  ghost function Delta(pods: Pods, kind: Kind, o: Object, n: string): int {
    if kind == Deleted then -One(CountedAt(pods, o.uid, n))
    else if o.uid in pods && pods[o.uid].version == o.version then 0
    else One(Counts(o, n)) - One(CountedAt(pods, o.uid, n))
  }

  lemma CountShifts(pods: Pods, t: Pods, uid: Uid, n: string)
    requires pods - {uid} == t - {uid}
    ensures |Active(t, n)| == |Active(pods, n)| + One(CountedAt(t, uid, n)) - One(CountedAt(pods, uid, n))
  {
    RecountWithout(pods, uid, n);
    RecountWithout(t, uid, n);
    hide Active;
  }

  /** An accepted event moves a count by what it says of its own Pod, and no other count. */
  lemma EventCounts(pods: Pods, kind: Kind, o: Object, n: string)
    requires Step(pods, kind, o).Ok?
    ensures |Active(Step(pods, kind, o).value, n)| == |Active(pods, n)| + Delta(pods, kind, o, n)
  {
    hide Canonical, Counts, Active, Classify, Step;
    StepActs(pods, kind, o);
    ClassifyCounts(o, n);
    var t := Step(pods, kind, o).value;
    assert pods - {o.uid} == t - {o.uid};
    CountShifts(pods, t, o.uid, n);
  }

  /** Every count has moved by exactly what the event says. */
  ghost predicate Shifted(before: map<string, int>, after: map<string, int>, pods: Pods, kind: Kind, o: Object) {
    forall n: string :: Count(after, n) == Count(before, n) + Delta(pods, kind, o, n)
  }

  /** The namespaces newly listed are those whose count the event moved. */
  ghost predicate Lists(before: set<string>, after: set<string>, pods: Pods, kind: Kind, o: Object) {
    forall n: string :: n in after <==> n in before || Delta(pods, kind, o, n) != 0
  }

  lemma StepActs(pods: Pods, kind: Kind, o: Object)
    requires Step(pods, kind, o).Ok?
    ensures Classify(o).Ok?
    ensures Step(pods, kind, o).value ==
            if kind == Deleted then pods - {o.uid}
            else if o.uid in pods && pods[o.uid].version == o.version then pods
            else pods[o.uid := Classify(o).value]
  {
    hide Canonical;
  }

  predicate Identified(o: Object) {
    o.uid != 0 && o.namespace != "" && o.version != ""
  }

  /** Why an event is refused, if it is. */
  function Refusal(pods: Pods, kind: Kind, o: Object): Option<Error> {
    if !Identified(o) then Some(NoIdentity)
    else if o.uid in pods && pods[o.uid].physical != o.namespace then Some(ChangedNamespace)
    else if kind == Unknown then Some(UnknownEvent)
    else if kind != Deleted && o.uid !in pods && |pods| >= 10000 then Some(CacheLimit)
    else None
  }

  /** An event is refused for one of four reasons, and one that is not leaves its Pod as it says. */
  lemma EventOutcome(pods: Pods, kind: Kind, o: Object)
    ensures Step(pods, kind, o).Err? <==> Refusal(pods, kind, o).Some?
    ensures Step(pods, kind, o).Err? ==> Refusal(pods, kind, o) == Some(Step(pods, kind, o).error)
    ensures Step(pods, kind, o).Ok? ==>
              var t := Step(pods, kind, o).value;
              && (forall uid :: uid != o.uid ==> (uid in t <==> uid in pods) && (uid in t ==> t[uid] == pods[uid]))
              && (o.uid in t <==> kind != Deleted)
              && (o.uid in t ==> t[o.uid].version == o.version && t[o.uid].physical == o.namespace)
  {
    hide Canonical;
    if Step(pods, kind, o).Ok? {
      StepActs(pods, kind, o);
    }
  }

  /** How many of the listed objects count for a namespace. */
  ghost function Occurrences(objects: seq<Object>, n: string): nat {
    if objects == [] then 0
    else Occurrences(objects[..|objects| - 1], n) + (if Counts(objects[|objects| - 1], n) then 1 else 0)
  }

  predicate DistinctUids(objects: seq<Object>) {
    forall i, j :: 0 <= i < j < |objects| ==> objects[i].uid != objects[j].uid
  }

  lemma ListNext(objects: seq<Object>)
    requires DistinctUids(objects) && objects != []
    ensures var last := |objects| - 1;
            && DistinctUids(objects[..last])
            && objects[last].uid !in Uids(objects[..last])
            && Uids(objects) == Uids(objects[..last]) + {objects[last].uid}
  {}

  lemma NewPodCounts(pods: Pods, o: Object, n: string)
    requires Step(pods, Added, o).Ok? && o.uid !in pods
    ensures var t := Step(pods, Added, o).value;
            && Count(Tally(t), n) == Count(Tally(pods), n) + (if Counts(o, n) then 1 else 0)
            && t.Keys == pods.Keys + {o.uid}
  {
    hide Step, Tally, Active, Counts, Classify;
    EventCounts(pods, Added, o, n);
    StepActs(pods, Added, o);
    CountIsRecount(pods, n);
    CountIsRecount(Step(pods, Added, o).value, n);
  }

  /** An accepted list of different Pods is counted object by object, and caches exactly those Pods. */
  lemma {:induction false} ListCounts(objects: seq<Object>, n: string)
    requires DistinctUids(objects) && Rebuild(objects).Ok?
    ensures Count(Tally(Rebuild(objects).value.pods), n) == Occurrences(objects, n)
    ensures Rebuild(objects).value.pods.Keys == Uids(objects)
    decreases |objects|
  {
    hide Step, Tally, Active, Counts, Classify, Uids, Count, Moved, Namespaces, PodsOk, DistinctUids;
    if objects != [] {
      var last := |objects| - 1;
      ListNext(objects);
      ListCounts(objects[..last], n);
      NewPodCounts(Rebuild(objects[..last]).value.pods, objects[last], n);
    } else {
      NothingCounted(n);
    }
  }

  lemma NothingCounted(n: string)
    ensures Count(Tally(map[]), n) == 0 && Uids([]) == {}
  {
    CountIsRecount(map[], n);
  }
}
