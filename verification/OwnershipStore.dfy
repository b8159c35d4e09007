/** The Gateway and grant calls as they run alone; every execution is one of the runs of Ownership. */
module OwnershipStore {
  import opened Common
  import opened Ownership

  lemma OnlyCall(c: Client, g: GatewayId, k: Step, t: Step)
    ensures map[c := k] - {c} == map[] && map[c := k][c := t] == map[c := t]
    ensures (map h | h in map[g := c] && map[g := c][h] != c :: map[g := c][h]) == map[]
  {}

  /** Why a revoke of one binding is refused, if it is. */
  ghost function Refusal(gateways: map<GatewayId, bool>, bindings: map<BindingId, Binding>, id: BindingId): Option<Error> {
    if id !in bindings || !bindings[id].live then Some(NotFound)
    else match bindings[id].gateway
      case None => Some(Forbidden)
      case Some(g) =>
        if g !in gateways || !gateways[g] then Some(NotFound)
        else if bindings[id].role == Owner && forall b :: b in bindings && bindings[b] == Binding(Some(g), Owner, true) ==> b == id then Some(LastOwner)
        else None
  }

  /** What a revoke of one binding leaves: that binding deleted, or a refusal and nothing changed. */
  ghost predicate Revoked(gateways: map<GatewayId, bool>, before: map<BindingId, Binding>, after: map<BindingId, Binding>, id: BindingId, error: Option<Error>) {
    && error == Refusal(gateways, before, id)
    && after == if error == None then before[id := before[id].(live := false)] else before
  }

  /** The unlocked read and the lock of a revoke that meets nobody else. */
  lemma LockActs(s: State, c: Client, id: BindingId, g: GatewayId)
    requires s.locks == map[] && s.calls == map[]
    requires id in s.bindings && s.bindings[id].live && s.bindings[id].gateway == Some(g)
    ensures Apply(Apply(s, Select(c, id)), Lock(c)) ==
            if Live(s, g) then s.(locks := map[g := c], calls := map[c := Locked(id, g)]) else s
  {
    OnlyCall(c, g, Selected(id, g), Locked(id, g));
  }

  class Tables {
    var gateways: map<GatewayId, bool>
    var bindings: map<BindingId, Binding>

    constructor ()
      ensures Alone() == Init()
    {
      gateways, bindings := map[], map[];
    }

    ghost function Alone(): State
      reads this
    {
      State(gateways, bindings, map[], map[])
    }

    ghost function Locking(c: Client, g: GatewayId, k: Step): State
      reads this
    {
      State(gateways, bindings, map[g := c], map[c := k])
    }

    /** Gateway and owner grant in one commit. */
    method Create(g: GatewayId, b: BindingId)
      modifies this
      ensures Alone() == Apply(old(Alone()), CreateGateway(g, b))
      ensures if g in old(gateways) || b in old(bindings) then gateways == old(gateways) && bindings == old(bindings)
              else gateways == old(gateways)[g := true] && bindings == old(bindings)[b := Binding(Some(g), Owner, true)]
    {
      if g in gateways || b in bindings {
        return;
      }
      gateways := gateways[g := true];
      bindings := bindings[b := Binding(Some(g), Owner, true)];
    }

    /** The unlocked read chooses the lock; everything is checked again under it. */
    method DeleteGrant(id: BindingId, ghost c: Client) returns (error: Option<Error>, ghost trace: seq<Action>)
      modifies this`bindings
      ensures Run(old(Alone()), trace) == Alone()
      ensures Revoked(gateways, old(bindings), bindings, id, error)
    {
      ghost var start := Alone();
      assert Run(start, []) == start;
      hide Run, Owners, Apply;
      trace := [];
      if id !in bindings || !bindings[id].live {
        return Some(NotFound), trace;
      }
      var initial := bindings[id];
      if initial.gateway.None? {
        return Some(Forbidden), trace;
      }
      var g := initial.gateway.value;
      RunSnoc(start, trace, Select(c, id));
      trace := trace + [Select(c, id)];
      RunSnoc(start, trace, Lock(c));
      trace := trace + [Lock(c)];
      LockActs(start, c, id, g);
      if g !in gateways || !gateways[g] {
        return Some(NotFound), trace;
      }
      error, trace := DeleteLocked(id, g, c, start, trace);
    }

    /** Under the Gateway lock: the owner count, then the deletion. */
    method DeleteLocked(id: BindingId, g: GatewayId, ghost c: Client, ghost start: State, ghost prefix: seq<Action>)
      returns (error: Option<Error>, ghost trace: seq<Action>)
      requires id in bindings && bindings[id].live && bindings[id].gateway == Some(g)
      requires g in gateways && gateways[g]
      requires Run(start, prefix) == Locking(c, g, Locked(id, g))
      modifies this`bindings
      ensures Run(start, trace) == Alone()
      ensures Revoked(gateways, old(bindings), bindings, id, error)
    {
      hide Run, Owners;
      RunSnoc(start, prefix, Count(c));
      trace := prefix + [Count(c)];
      OnlyCall(c, g, Locked(id, g), Counted(id, g));
      if bindings[id].role == Owner && |Owners(bindings, g)| <= 1 {
        LastOne(bindings, id, g);
        return Some(LastOwner), trace;
      }
      if bindings[id].role == Owner {
        NotLast(bindings, id, g);
      }
      OnlyCall(c, g, Counted(id, g), Counted(id, g));
      RunSnoc(start, trace, CommitDelete(c));
      trace := trace + [CommitDelete(c)];
      bindings := bindings[id := bindings[id].(live := false)];
      error := None;
    }
  }

  lemma LastOne(bindings: map<BindingId, Binding>, id: BindingId, g: GatewayId)
    requires id in bindings && bindings[id] == Binding(Some(g), Owner, true) && |Owners(bindings, g)| <= 1
    ensures forall b :: b in bindings && bindings[b] == Binding(Some(g), Owner, true) ==> b == id
  {
    MemberCount(Owners(bindings, g), id);
    forall b | b in bindings && bindings[b] == Binding(Some(g), Owner, true)
      ensures b in Owners(bindings, g)
    {}
  }

  lemma NotLast(bindings: map<BindingId, Binding>, id: BindingId, g: GatewayId)
    requires id in bindings && bindings[id] == Binding(Some(g), Owner, true) && |Owners(bindings, g)| > 1
    ensures exists b :: b in bindings && bindings[b] == Binding(Some(g), Owner, true) && b != id
  {
    MemberCount(Owners(bindings, g), id);
    assert !(Owners(bindings, g) <= {id});
    var b :| b in Owners(bindings, g) && b != id;
  }
}
