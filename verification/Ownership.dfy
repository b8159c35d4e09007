/**
 Gateway owners: Gateways and role bindings under concurrent create, grant, revoke
 and delete calls. A revoke reads its binding without a lock to learn which
 Gateway row to lock, then locks, checks again, counts the owners and deletes in
 separate steps. A Gateway delete and every grant write take the same row lock.
 */
module Ownership {
  import opened Common

  type GatewayId = nat
  type BindingId = nat
  type Client = nat

  datatype Role = Owner | Viewer

  /** A global binding names no Gateway. */
  datatype Binding = Binding(gateway: Option<GatewayId>, role: Role, live: bool)

  datatype Step =
    | Selected(binding: BindingId, gateway: GatewayId)
    | Locked(binding: BindingId, gateway: GatewayId)
    | Counted(binding: BindingId, gateway: GatewayId)

  /** `gateways` maps each Gateway to whether it is live; `locks` holds the row locks of open transactions. */
  datatype State = State(
    gateways: map<GatewayId, bool>, bindings: map<BindingId, Binding>,
    locks: map<GatewayId, Client>, calls: map<Client, Step>)

  datatype Error = NotFound | Forbidden | LastOwner

  datatype Action =
    | CreateGateway(gateway: GatewayId, binding: BindingId)
    | DeleteGateway(gateway: GatewayId)
    | CreateGrant(gateway: GatewayId, binding: BindingId, role: Role)
    | CreateGlobal(binding: BindingId, role: Role)
    | DeleteGlobal(binding: BindingId)
    | Select(client: Client, binding: BindingId)
    | Lock(client: Client)
    | Count(client: Client)
    | CommitDelete(client: Client)
    | Abandon(client: Client)

  function Init(): State {
    State(map[], map[], map[], map[])
  }

  predicate Live(s: State, g: GatewayId) {
    g in s.gateways && s.gateways[g]
  }

  function Owners(bindings: map<BindingId, Binding>, g: GatewayId): set<BindingId> {
    set b | b in bindings && bindings[b] == Binding(Some(g), Owner, true)
  }

  /** The call ends and its transaction, if any, releases its lock. */
  function End(s: State, c: Client): State {
    s.(calls := s.calls - {c}, locks := map g | g in s.locks && s.locks[g] != c :: s.locks[g])
  }

  /** The checks of one revoke under the Gateway lock. */
  function CheckDelete(s: State, b: BindingId, g: GatewayId): Option<Error> {
    if b !in s.bindings || !s.bindings[b].live || s.bindings[b].gateway != Some(g) then Some(NotFound)
    else if s.bindings[b].role == Owner && |Owners(s.bindings, g)| <= 1 then Some(LastOwner)
    else None
  }

  function Apply(s: State, a: Action): State {
    match a
    case CreateGateway(g, b) =>
      if g in s.gateways || b in s.bindings then s
      else s.(gateways := s.gateways[g := true], bindings := s.bindings[b := Binding(Some(g), Owner, true)])
    case DeleteGateway(g) =>
      if Live(s, g) && g !in s.locks then s.(gateways := s.gateways[g := false]) else s
    case CreateGrant(g, b, role) =>
      if Live(s, g) && g !in s.locks && b !in s.bindings then s.(bindings := s.bindings[b := Binding(Some(g), role, true)]) else s
    case CreateGlobal(b, role) =>
      if b in s.bindings then s else s.(bindings := s.bindings[b := Binding(None, role, true)])
    case DeleteGlobal(b) =>
      if b in s.bindings && s.bindings[b].gateway == None then s.(bindings := s.bindings[b := s.bindings[b].(live := false)]) else s
    case Select(c, b) =>
      if c in s.calls || b !in s.bindings || !s.bindings[b].live || s.bindings[b].gateway == None then s
      else s.(calls := s.calls[c := Selected(b, s.bindings[b].gateway.value)])
    case Lock(c) =>
      if c !in s.calls || !s.calls[c].Selected? || s.calls[c].gateway in s.locks then s
      else if !Live(s, s.calls[c].gateway) then End(s, c)
      else
        var k := s.calls[c];
        s.(calls := s.calls[c := Locked(k.binding, k.gateway)], locks := s.locks[k.gateway := c])
    case Count(c) =>
      if c !in s.calls || !s.calls[c].Locked? then s
      else
        var k := s.calls[c];
        if CheckDelete(s, k.binding, k.gateway).Some? then End(s, c)
        else s.(calls := s.calls[c := Counted(k.binding, k.gateway)])
    case CommitDelete(c) =>
      if c !in s.calls || !s.calls[c].Counted? || s.calls[c].binding !in s.bindings then s
      else
        var b := s.calls[c].binding;
        End(s.(bindings := s.bindings[b := s.bindings[b].(live := false)]), c)
    case Abandon(c) => End(s, c)
  }

  function Run(s: State, actions: seq<Action>): State
    decreases |actions|
  {
    if actions == [] then s else Apply(Run(s, actions[..|actions| - 1]), actions[|actions| - 1])
  }

  lemma RunSnoc(s: State, actions: seq<Action>, a: Action)
    ensures Run(s, actions + [a]) == Apply(Run(s, actions), a)
  {
    hide Apply;
    assert (actions + [a])[..|actions|] == actions;
  }

  predicate Owned(s: State) {
    forall g :: g in s.gateways && s.gateways[g] ==> Owners(s.bindings, g) != {}
  }

  /** While a revoke holds the row lock, what it checked stays so. */
  predicate CallOk(s: State, c: Client, k: Step) {
    k.Locked? || k.Counted? ==>
      && Live(s, k.gateway)
      && k.gateway in s.locks && s.locks[k.gateway] == c
      && (k.Counted? ==> CheckDelete(s, k.binding, k.gateway) == None)
  }

  predicate Inv(s: State) {
    && Owned(s)
    && (forall c :: c in s.calls ==> CallOk(s, c, s.calls[c]))
    && (forall b :: b in s.bindings && s.bindings[b].gateway.Some? ==> s.bindings[b].gateway.value in s.gateways)
    && (forall g :: g in s.locks ==> g in s.gateways)
  }

  lemma MemberCount(a: set<BindingId>, b: BindingId)
    requires b in a
    ensures |a| <= 1 <==> a == {b}
  {
    SubsetSize({b}, a);
    if |a| <= 1 {
      assert a == {b} by {
        forall x | x in a
          ensures x == b
        {
          if x != b {
            SubsetSize({b, x}, a);
          }
        }
      }
    }
  }

  /** An owner binding is deleted exactly when another live owner binding of its Gateway remains. */
  lemma LastOwnerExactly(s: State, b: BindingId, g: GatewayId)
    requires b in Owners(s.bindings, g)
    ensures CheckDelete(s, b, g) == None <==> exists other :: other in Owners(s.bindings, g) && other != b
    ensures CheckDelete(s, b, g) == None || CheckDelete(s, b, g) == Some(LastOwner)
  {
    var owners := Owners(s.bindings, g);
    MemberCount(owners, b);
    if owners != {b} {
      assert !(owners <= {b});
    }
  }

  /** The checks repeated under the lock refuse a binding that is gone, deleted or of another Gateway, and never a viewer for its role. */
  lemma CheckedExactly(s: State, b: BindingId, g: GatewayId)
    ensures CheckDelete(s, b, g) == Some(NotFound) <==> !(b in s.bindings && s.bindings[b].live && s.bindings[b].gateway == Some(g))
    ensures CheckDelete(s, b, g) == Some(LastOwner) ==> b in Owners(s.bindings, g)
    ensures CheckDelete(s, b, g) != Some(Forbidden)
  {
    hide Owners;
    if CheckDelete(s, b, g) == Some(LastOwner) {
      assert s.bindings[b] == Binding(Some(g), Owner, true);
      OwnerListed(s.bindings, b, g);
    }
  }

  lemma OwnerListed(bindings: map<BindingId, Binding>, b: BindingId, g: GatewayId)
    requires b in bindings && bindings[b] == Binding(Some(g), Owner, true)
    ensures b in Owners(bindings, g)
  {}

  function At(bindings: map<BindingId, Binding>, b: BindingId, g: GatewayId): Option<Binding> {
    if b in bindings && bindings[b].gateway == Some(g) then Some(bindings[b]) else None
  }

  /** A step elsewhere: this Gateway, its lock and its bindings are as before. */
  ghost predicate SameAt(s: State, t: State, g: GatewayId) {
    && (Live(s, g) ==> Live(t, g))
    && (g in s.locks ==> g in t.locks && t.locks[g] == s.locks[g])
    && forall b: BindingId :: At(t.bindings, b, g) == At(s.bindings, b, g)
  }

  lemma SameOwners(s: State, t: State, g: GatewayId)
    requires SameAt(s, t, g)
    ensures Owners(t.bindings, g) == Owners(s.bindings, g)
  {
    forall b: BindingId
      ensures b in Owners(t.bindings, g) <==> b in Owners(s.bindings, g)
    {
      assert At(t.bindings, b, g) == At(s.bindings, b, g);
    }
  }

  lemma CallKept(s: State, t: State, c: Client, k: Step)
    requires CallOk(s, c, k) && SameAt(s, t, k.gateway)
    ensures CallOk(t, c, k)
  {
    if k.Locked? || k.Counted? {
      SameOwners(s, t, k.gateway);
      assert At(t.bindings, k.binding, k.gateway) == At(s.bindings, k.binding, k.gateway);
    }
  }

  /** Grants may be written and the row deleted only where no revoke holds the lock. */
  lemma OtherStepKeepsCalls(s: State, a: Action)
    requires Inv(s) && (a.CreateGateway? || a.DeleteGateway? || a.CreateGrant? || a.CreateGlobal? || a.DeleteGlobal?)
    ensures var t := Apply(s, a); forall c :: c in t.calls ==> CallOk(t, c, t.calls[c])
  {
    var t := Apply(s, a);
    forall c | c in t.calls
      ensures CallOk(t, c, t.calls[c])
    {
      var k := t.calls[c];
      assert CallOk(s, c, k);
      if k.Locked? || k.Counted? {
        assert SameAt(s, t, k.gateway);
        CallKept(s, t, c, k);
      }
    }
  }

  lemma OtherStepKeepsOwned(s: State, a: Action)
    requires Inv(s) && (a.CreateGateway? || a.DeleteGateway? || a.CreateGrant? || a.CreateGlobal? || a.DeleteGlobal?)
    ensures Owned(Apply(s, a))
  {
    hide CallOk;
    var t := Apply(s, a);
    forall g | g in t.gateways && t.gateways[g]
      ensures Owners(t.bindings, g) != {}
    {
      if g in s.gateways {
        var b :| b in Owners(s.bindings, g);
        assert b in Owners(t.bindings, g);
      } else {
        assert a.binding in Owners(t.bindings, g);
      }
    }
  }

  lemma OtherStepKeepsInv(s: State, a: Action)
    requires Inv(s) && (a.CreateGateway? || a.DeleteGateway? || a.CreateGrant? || a.CreateGlobal? || a.DeleteGlobal?)
    ensures Inv(Apply(s, a))
  {
    OtherStepKeepsCalls(s, a);
    OtherStepKeepsOwned(s, a);
    hide CallOk, Owned;
  }

  /** Ending a call touches no other call. */
  lemma EndKeepsInv(s: State, c: Client)
    requires Inv(s)
    ensures Inv(End(s, c))
  {
    var t := End(s, c);
    forall d | d in t.calls
      ensures CallOk(t, d, t.calls[d])
    {
      assert CallOk(s, d, s.calls[d]);
      if t.calls[d].Locked? || t.calls[d].Counted? {
        CallKept(s, t, d, t.calls[d]);
      }
    }
    hide CallOk, Owners;
  }

  /** One call moves on; the others are where they were. */
  lemma CallKeepsInv(s: State, c: Client, k: Step, t: State)
    requires Inv(s) && t == s.(calls := s.calls[c := k], locks := t.locks) && CallOk(t, c, k)
    requires forall g :: g in s.locks ==> g in t.locks && t.locks[g] == s.locks[g]
    requires forall g :: g in t.locks ==> g in s.locks || Live(s, g)
    ensures Inv(t)
  {
    forall d | d in t.calls
      ensures CallOk(t, d, t.calls[d])
    {
      if d != c {
        assert CallOk(s, d, s.calls[d]);
        CallKept(s, t, d, s.calls[d]);
      }
    }
    hide CallOk, Owners;
  }

  /** The deletion itself: under the lock another owner still stands. */
  lemma CommitKeepsInv(s: State, c: Client)
    requires Inv(s) && c in s.calls && s.calls[c].Counted?
    ensures Inv(Apply(s, CommitDelete(c)))
  {
    var k := s.calls[c];
    assert CallOk(s, c, k);
    var t := s.(bindings := s.bindings[k.binding := s.bindings[k.binding].(live := false)]);
    forall g | g in t.gateways && t.gateways[g]
      ensures Owners(t.bindings, g) != {}
    {
      StillOwned(s, k.binding, k.gateway, g);
    }
    forall d | d in t.calls && d != c
      ensures CallOk(t, d, t.calls[d])
    {
      assert CallOk(s, d, s.calls[d]);
      if t.calls[d].Locked? || t.calls[d].Counted? {
        assert SameAt(s, t, t.calls[d].gateway);
        CallKept(s, t, d, t.calls[d]);
      }
    }
    hide CallOk, Owners;
    EndsOne(s, t, c);
  }

  lemma StillOwned(s: State, b: BindingId, h: GatewayId, g: GatewayId)
    requires Inv(s) && Live(s, g) && CheckDelete(s, b, h) == None
    ensures Owners(s.bindings[b := s.bindings[b].(live := false)], g) != {}
  {
    var after := s.bindings[b := s.bindings[b].(live := false)];
    var owner: BindingId :| owner in Owners(s.bindings, g);
    if owner == b {
      LastOwnerExactly(s, b, g);
      owner :| owner in Owners(s.bindings, g) && owner != b;
    }
    assert owner in Owners(after, g);
  }

  lemma EndsOne(s: State, t: State, c: Client)
    requires Inv(s) && t == s.(bindings := t.bindings) && t.bindings.Keys == s.bindings.Keys
    requires forall b :: b in s.bindings ==> t.bindings[b].gateway == s.bindings[b].gateway
    requires Owned(t) && forall d :: d in t.calls && d != c ==> CallOk(t, d, t.calls[d])
    ensures Inv(End(t, c))
  {
    var u := End(t, c);
    forall d | d in u.calls
      ensures CallOk(u, d, u.calls[d])
    {
      assert CallOk(t, d, t.calls[d]);
      if u.calls[d].Locked? || u.calls[d].Counted? {
        CallKept(t, u, d, u.calls[d]);
      }
    }
    hide CallOk, Owners;
  }

  lemma StepKeepsInv(s: State, a: Action)
    requires Inv(s)
    ensures Inv(Apply(s, a))
  {
    hide Inv, CheckDelete;
    match a
    case Select(c, b) =>
      if Apply(s, a) != s { CallKeepsInv(s, c, Selected(b, s.bindings[b].gateway.value), Apply(s, a)); }
    case Lock(c) => LockKeepsInv(s, c);
    case Count(c) => CountKeepsInv(s, c);
    case CommitDelete(c) => if c in s.calls && s.calls[c].Counted? { CommitKeepsInv(s, c); }
    case Abandon(c) => EndKeepsInv(s, c);
    case _ => OtherStepKeepsInv(s, a);
  }

  lemma LockKeepsInv(s: State, c: Client)
    requires Inv(s)
    ensures Inv(Apply(s, Lock(c)))
  {
    if c in s.calls && s.calls[c].Selected? && s.calls[c].gateway !in s.locks {
      var k := s.calls[c];
      if Live(s, k.gateway) {
        hide Inv, CheckDelete;
        CallKeepsInv(s, c, Locked(k.binding, k.gateway), Apply(s, Lock(c)));
      } else {
        EndKeepsInv(s, c);
      }
    }
  }

  lemma CountKeepsInv(s: State, c: Client)
    requires Inv(s)
    ensures Inv(Apply(s, Count(c)))
  {
    if c in s.calls && s.calls[c].Locked? {
      var k := s.calls[c];
      assert CallOk(s, c, k);
      if CheckDelete(s, k.binding, k.gateway).Some? {
        EndKeepsInv(s, c);
      } else {
        hide Inv;
        CallKeepsInv(s, c, Counted(k.binding, k.gateway), Apply(s, Count(c)));
      }
    }
  }

  lemma {:induction false} RunKeepsInv(actions: seq<Action>)
    ensures Inv(Run(Init(), actions))
    decreases |actions|
  {
    if actions != [] {
      RunKeepsInv(actions[..|actions| - 1]);
      StepKeepsInv(Run(Init(), actions[..|actions| - 1]), actions[|actions| - 1]);
      hide Inv, Apply;
    }
  }

  /** In every reachable state every live Gateway has a live owner grant. */
  lemma EveryGatewayHasOwner(actions: seq<Action>, g: GatewayId)
    requires Live(Run(Init(), actions), g)
    ensures exists b :: b in Run(Init(), actions).bindings && Run(Init(), actions).bindings[b] == Binding(Some(g), Owner, true)
  {
    RunKeepsInv(actions);
    var b :| b in Owners(Run(Init(), actions).bindings, g);
    hide Run;
  }

  /* ---------- what a call comes to ---------- */

  /** The bindings of a create call: a new Gateway with its owner, or nothing. */
  lemma CreateGatewayActs(s: State, g: GatewayId, b: BindingId)
    ensures var t := Apply(s, CreateGateway(g, b));
            if g !in s.gateways && b !in s.bindings then
              && Live(t, g) && t.bindings == s.bindings[b := Binding(Some(g), Owner, true)]
              && (forall h :: h != g ==> (h in t.gateways <==> h in s.gateways) && (h in t.gateways ==> t.gateways[h] == s.gateways[h]))
              && t.locks == s.locks && t.calls == s.calls
            else t == s
  {}

  /** A grant and a Gateway delete go through exactly for a live Gateway whose row nobody holds. */
  lemma GrantActs(s: State, g: GatewayId, b: BindingId, role: Role)
    ensures var t := Apply(s, CreateGrant(g, b, role));
            t == if g in s.gateways && s.gateways[g] && g !in s.locks && b !in s.bindings then s.(bindings := s.bindings[b := Binding(Some(g), role, true)]) else s
    ensures var t := Apply(s, DeleteGateway(g));
            t == if g in s.gateways && s.gateways[g] && g !in s.locks then s.(gateways := s.gateways[g := false]) else s
  {}

  function Revoke(c: Client, b: BindingId): seq<Action> {
    [Select(c, b), Lock(c), Count(c), CommitDelete(c)]
  }

  /** The state while one call stands at a step under the lock of its Gateway. */
  function During(s: State, c: Client, g: GatewayId, k: Step, bindings: map<BindingId, Binding>): State {
    s.(calls := s.calls[c := k], locks := s.locks[g := c], bindings := bindings)
  }

  /** A client without a call or a lock. */
  predicate Fresh(s: State, c: Client) {
    c !in s.calls && forall h :: h in s.locks ==> s.locks[h] != c
  }

  lemma CallEnds(s: State, c: Client, g: GatewayId, k: Step, bindings: map<BindingId, Binding>)
    requires Fresh(s, c) && g !in s.locks
    ensures End(During(s, c, g, k, bindings), c) == s.(bindings := bindings)
  {
    var t := During(s, c, g, k, bindings);
    assert t.calls - {c} == s.calls;
    assert End(t, c).locks == s.locks;
  }

  predicate Revocable(s: State, b: BindingId, g: GatewayId) {
    g !in s.locks && Live(s, g) && b in s.bindings && s.bindings[b].live && s.bindings[b].gateway == Some(g)
  }

  lemma RevokeLocks(s: State, c: Client, b: BindingId, g: GatewayId)
    requires Fresh(s, c) && Revocable(s, b, g)
    ensures Run(s, [Select(c, b), Lock(c)]) == During(s, c, g, Locked(b, g), s.bindings)
  {
    RunSnoc(s, [], Select(c, b));
    RunSnoc(s, [] + [Select(c, b)], Lock(c));
    assert [Select(c, b), Lock(c)] == [] + [Select(c, b)] + [Lock(c)];
    assert Run(s, []) == s;
    hide Run;
  }

  lemma RevokeCommits(s: State, c: Client, b: BindingId, g: GatewayId)
    requires Fresh(s, c) && Revocable(s, b, g)
    ensures Apply(Apply(During(s, c, g, Locked(b, g), s.bindings), Count(c)), CommitDelete(c)) ==
            if CheckDelete(s, b, g).Some? then s else s.(bindings := s.bindings[b := s.bindings[b].(live := false)])
  {
    hide End, Owners;
    CallEnds(s, c, g, Locked(b, g), s.bindings);
    var t := During(s, c, g, Locked(b, g), s.bindings);
    assert CheckDelete(t, b, g) == CheckDelete(s, b, g);
    if CheckDelete(s, b, g).None? {
      var after := s.bindings[b := s.bindings[b].(live := false)];
      CallEnds(s, c, g, Counted(b, g), after);
      assert t.calls[c := Counted(b, g)] == During(s, c, g, Counted(b, g), s.bindings).calls;
      assert Apply(t, Count(c)) == During(s, c, g, Counted(b, g), s.bindings);
    } else {
      assert Apply(t, Count(c)) == s;
    }
  }

  /**
   A revoke that meets nobody at its Gateway deletes its binding, unless that is the
   last owner: then nothing changes. Either way it gives back the lock.
   */
  lemma RevokeActs(s: State, c: Client, b: BindingId, g: GatewayId)
    requires Fresh(s, c) && Revocable(s, b, g)
    ensures var kept := s.bindings[b].role == Viewer || exists other :: other in s.bindings && other != b && s.bindings[other] == Binding(Some(g), Owner, true);
            Run(s, [Select(c, b), Lock(c), Count(c), CommitDelete(c)])
              == if kept then s.(bindings := s.bindings[b := s.bindings[b].(live := false)]) else s
  {
    RevokeLocks(s, c, b, g);
    RevokeCommits(s, c, b, g);
    var locking := [Select(c, b), Lock(c)];
    assert [Select(c, b), Lock(c), Count(c), CommitDelete(c)] == locking + [Count(c)] + [CommitDelete(c)];
    RunSnoc(s, locking, Count(c));
    RunSnoc(s, locking + [Count(c)], CommitDelete(c));
    hide Run, End, Apply;
    if s.bindings[b].role == Owner {
      LastOwnerExactly(s, b, g);
      forall other | other in s.bindings && s.bindings[other] == Binding(Some(g), Owner, true)
        ensures other in Owners(s.bindings, g)
      {}
    }
  }

  /** Global bindings come and go without a Gateway, and an abandoned call leaves its lock and nothing else. */
  lemma OthersAct(s: State, c: Client, b: BindingId, role: Role)
    ensures Apply(s, CreateGlobal(b, role)) == if b in s.bindings then s else s.(bindings := s.bindings[b := Binding(None, role, true)])
    ensures var t := Apply(s, DeleteGlobal(b));
            if b in s.bindings && s.bindings[b].gateway == None then t == s.(bindings := s.bindings[b := s.bindings[b].(live := false)]) else t == s
    ensures var t := Apply(s, Abandon(c));
            && t.gateways == s.gateways && t.bindings == s.bindings && t.calls == s.calls - {c}
            && (forall g :: g in t.locks <==> g in s.locks && s.locks[g] != c) && forall g :: g in t.locks ==> t.locks[g] == s.locks[g]
  {}
}
