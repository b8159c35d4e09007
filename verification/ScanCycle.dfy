/** Checkpointed scan cycles: what one pass of a resumable scan keeps as evidence. */
module ScanCycle {
  import opened Common

  /** A cycle without a source is the empty checkpoint; cursor 0 is the start of the source. */
  datatype Cycle<S> = Cycle(source: Option<S>, after: nat, failed: bool, complete: bool)

  function Empty<S>(): Cycle<S> {
    Cycle(None, 0, false, false)
  }

  /** A pass continues an unfinished cycle of its own source; otherwise it starts again. */
  function Resume<S(==)>(prior: Cycle<S>, source: S): (c: Cycle<S>)
    ensures c.source == Some(source) && !c.complete
    ensures prior.source == Some(source) && !prior.complete ==> c == prior
    ensures prior.source != Some(source) || prior.complete ==> c.after == 0 && !c.failed
  {
    if prior.source == Some(source) && !prior.complete then prior else Cycle(Some(source), 0, false, false)
  }

  /** Failure evidence is kept until its cycle ends. */
  predicate ValidTransition<S(==)>(previous: Cycle<S>, next: Cycle<S>) {
    && next.source.Some?
    && (previous.source.None? ==> previous == Empty<S>())
    && !(previous.source.Some? && previous.source == next.source && !previous.complete && previous.failed && !next.failed)
  }

  /** What an ordered, strictly increasing page says about the keys after a cursor. */
  predicate Covers(keys: set<nat>, after: nat, page: seq<nat>, more: bool) {
    && (forall i :: 0 <= i < |page| ==> page[i] in keys && after < page[i])
    && (forall i, j :: 0 <= i < j < |page| ==> page[i] < page[j])
    && (forall key :: key in keys && after < key ==>
          key in page || (more && (forall i :: 0 <= i < |page| ==> page[i] < key)))
  }

  predicate IsPage(keys: set<nat>, after: nat, page: seq<nat>, more: bool, limit: nat) {
    |page| <= limit && (more ==> page != []) && Covers(keys, after, page, more)
  }

  /** Moving the cursor past the first item leaves no key behind. */
  lemma CoversRest(keys: set<nat>, after: nat, page: seq<nat>, more: bool)
    requires Covers(keys, after, page, more) && page != []
    ensures Covers(keys, page[0], page[1..], more)
    ensures forall key :: key in keys && key <= page[0] ==> key <= after || key == page[0]
  {
    forall key | key in keys && page[0] < key
      ensures key in page[1..] || (more && (forall i :: 0 <= i < |page[1..]| ==> page[1..][i] < key))
    {
      if key in page {
        var i :| 0 <= i < |page| && page[i] == key;
        assert page[1..][i - 1] == key;
      }
    }
  }

  /* ---------- the page that a full storage read returns ---------- */

  function After(keys: set<nat>, after: nat): set<nat> {
    set key | key in keys && after < key
  }

  lemma {:induction false} FindLeast(keys: set<nat>) returns (least: nat)
    requires keys != {}
    ensures least in keys && forall key :: key in keys ==> least <= key
    decreases |keys|
  {
    least :| least in keys;
    var rest := keys - {least};
    if rest != {} {
      var other := FindLeast(rest);
      var some := least;
      least := if some < other then some else other;
      forall key | key in keys
        ensures least <= key
      {
        if key != some {
          assert key in rest;
        }
      }
    } else {
      forall key | key in keys
        ensures least <= key
      {
        assert key !in rest;
      }
    }
  }

  lemma LeastExists(keys: set<nat>)
    requires keys != {}
    ensures exists least :: least in keys && forall key :: key in keys ==> least <= key
  {
    var least := FindLeast(keys);
  }

  ghost function Least(keys: set<nat>): (least: nat)
    requires keys != {}
    ensures least in keys && forall key :: key in keys ==> least <= key
  {
    LeastExists(keys);
    var least :| least in keys && forall key :: key in keys ==> least <= key;
    least
  }

  ghost function Sorted(keys: set<nat>): (s: seq<nat>)
    ensures |s| == |keys|
    ensures forall key :: key in keys <==> key in s
    ensures forall i, j :: 0 <= i < j < |s| ==> s[i] < s[j]
    decreases |keys|
  {
    if keys == {} then [] else [Least(keys)] + Sorted(keys - {Least(keys)})
  }

  /** The next keys in order, up to the limit, and whether any are left. */
  ghost function NextPage(keys: set<nat>, after: nat, limit: nat): (page: (seq<nat>, bool))
    requires limit > 0
    ensures IsPage(keys, after, page.0, page.1, limit) && (page.1 ==> |page.0| == limit)
  {
    var all := Sorted(After(keys, after));
    assert forall i :: 0 <= i < |all| ==> all[i] in After(keys, after);
    if |all| <= limit then
      assert Covers(keys, after, all, false) by { assert forall key :: key in keys && after < key ==> key in After(keys, after); }
      (all, false)
    else
      FirstKeys(keys, after, all, limit);
      (all[..limit], true)
  }

  lemma FirstKeys(keys: set<nat>, after: nat, all: seq<nat>, limit: nat)
    requires limit < |all|
    requires forall key :: key in After(keys, after) <==> key in all
    requires forall i, j :: 0 <= i < j < |all| ==> all[i] < all[j]
    ensures Covers(keys, after, all[..limit], true)
  {
    assert forall i :: 0 <= i < |all| ==> all[i] in After(keys, after);
    forall key | key in keys && after < key
      ensures key in all[..limit] || forall i :: 0 <= i < limit ==> all[..limit][i] < key
    {
      assert key in After(keys, after);
      var at :| 0 <= at < |all| && all[at] == key;
      if at < limit {
        assert all[..limit][at] == key;
      }
    }
  }

  /** A page takes exactly its keys from those still to come. */
  lemma {:induction false} PageLeaves(keys: set<nat>, after: nat, page: seq<nat>, more: bool)
    requires Covers(keys, after, page, more) && page != []
    ensures |After(keys, after)| == |After(keys, page[|page| - 1])| + |page|
    decreases |page|
  {
    CoversRest(keys, after, page, more);
    assert After(keys, after) == After(keys, page[0]) + {page[0]};
    if |page| > 1 {
      PageLeaves(keys, page[0], page[1..], more);
    }
  }

  /** More is left exactly if the page could not hold all that was to come. */
  lemma PageMore(keys: set<nat>, after: nat, limit: nat)
    requires limit > 0
    ensures NextPage(keys, after, limit).1 <==> |After(keys, after)| > limit
  {}

  /** Passing a key leaves fewer to come. */
  lemma FewerAfter(keys: set<nat>, after: nat, key: nat)
    requires key in keys && after < key
    ensures |After(keys, key)| < |After(keys, after)|
  {
    SubsetSize(After(keys, key) + {key}, After(keys, after));
  }

  lemma AfterBound(keys: set<nat>, after: nat)
    ensures |After(keys, after)| <= |keys|
  {
    SubsetSize(After(keys, after), keys);
  }

  /** The keys still to pass in a cycle and, after a failure, a whole cycle more. */
  function Units<S>(keys: set<nat>, c: Cycle<S>): nat {
    var again := if c.failed then |keys| + 1 else 0;
    if c.complete then again else |After(keys, c.after)| + 1 + again
  }

  lemma NoneBefore(keys: set<nat>)
    requires 0 !in keys
    ensures After(keys, 0) == keys
  {}
}
