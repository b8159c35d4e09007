/**
 The retained Gateway row, its cleanup observations and its SQL effect bindings,
 with one function per transaction. Each function returns the whole committed
 store, or the error with which the transaction rolls back.
 */
module GatewayRecord {
  import opened Common

  type Digest = nat
  type Cluster = nat

  datatype Owner = Accounts | Identity | Workload | Sql | Allocation
  datatype Component = Gateway | Console
  datatype Event = Updated | Deleted
  datatype Error = Invalid | NotFound | Forbidden | StateConflict | VersionConflict | BindingConflict

  /** A binding that is not present has no digest and is not closed. */
  datatype Binding = Binding(present: bool, digest: Option<Digest>, closed: bool)

  /** The stored cleanup observation of each owner. */
  datatype Done = Done(accounts: bool, identity: bool, workload: bool, sql: bool, allocation: bool)

  datatype Row = Row(cluster: Cluster, version: nat, deleted: bool, done: Done, finalized: bool)

  datatype Store = Store(row: Row, gateway: Binding, console: Binding, completion: Binding, events: seq<Event>)

  const ABSENT := Binding(false, None, false)

  const PENDING := Done(false, false, false, false, false)

  function Has(d: Done, o: Owner): bool {
    match o
    case Accounts => d.accounts
    case Identity => d.identity
    case Workload => d.workload
    case Sql => d.sql
    case Allocation => d.allocation
  }

  function Mark(d: Done, o: Owner, complete: bool): Done {
    match o
    case Accounts => d.(accounts := complete)
    case Identity => d.(identity := complete)
    case Workload => d.(workload := complete)
    case Sql => d.(sql := complete)
    case Allocation => d.(allocation := complete)
  }

  /** Marking one owner is seen by that owner alone. */
  lemma MarkIsExact(d: Done, o: Owner, complete: bool, p: Owner)
    ensures Has(Mark(d, o, complete), p) == if p == o then complete else Has(d, p)
  {}

  predicate Complete(d: Done) {
    d.accounts && d.identity && d.workload && d.sql && d.allocation
  }

  function Created(cluster: Cluster): Store {
    Store(Row(cluster, 1, false, PENDING, false), ABSENT, ABSENT, ABSENT, [])
  }

  function Bound(s: Store, c: Component): Binding {
    if c == Gateway then s.gateway else s.console
  }

  function WithBound(s: Store, c: Component, b: Binding): Store {
    if c == Gateway then s.(gateway := b) else s.(console := b)
  }

  predicate Targeted(o: Owner) {
    o == Workload || o == Sql || o == Allocation
  }

  /** The evidence that lets a complete `sql` observation commit. */
  predicate ConsoleProven(s: Store) {
    s.console.present && s.console.digest.Some? ==>
      && s.console.closed
      && s.completion.present
      && s.completion.closed
      && s.completion.digest == s.console.digest
  }

  /** A write that changes the row raises its revision. */
  function Observed(row: Row, owner: Owner, complete: bool): Row {
    row.(version := row.version + 1, done := Mark(row.done, owner, complete))
  }

  function Finalized(row: Row): Row {
    row.(version := row.version + 1, finalized := true)
  }

  function RecordCleanup(s: Store, version: nat, owner: Owner, target: Option<Cluster>, complete: bool): Result<Store, Error> {
    if version < 1 || Targeted(owner) != target.Some? then Err(Invalid)
    else if !s.row.deleted then Err(StateConflict)
    else if s.row.version != version then Err(VersionConflict)
    else if target.Some? && target.value != s.row.cluster then Err(VersionConflict)
    else if owner == Sql && complete && !ConsoleProven(s) then Err(BindingConflict)
    else
      var changed := Has(s.row.done, owner) != complete;
      var row := if changed then Observed(s.row, owner, complete) else s.row;
      if Complete(row.done) && !row.finalized then
        Ok(s.(row := Finalized(row), events := s.events + [Deleted]))
      else
        Ok(s.(row := row, events := if changed then s.events + [Updated] else s.events))
  }

  function BindSQLState(s: Store, cluster: Cluster, c: Component, digest: Digest, version: nat): Result<Store, Error> {
    var prior := Bound(s, c);
    if s.row.deleted then Err(NotFound)
    else if cluster != s.row.cluster then Err(Forbidden)
    else if s.row.version != version then Err(VersionConflict)
    else if !prior.present then Ok(WithBound(s, c, Binding(true, Some(digest), false)))
    else if prior.closed || prior.digest != Some(digest) then Err(BindingConflict)
    else Ok(s)
  }

  function CloseSQLState(s: Store, cluster: Cluster, c: Component): Result<Store, Error> {
    if cluster != s.row.cluster then Err(Forbidden)
    else if !s.row.deleted then Err(VersionConflict)
    else Ok(WithBound(s, c, Binding(true, Bound(s, c).digest, true)))
  }

  function CompleteConsoleSQLCleanup(s: Store, cluster: Cluster): Result<Store, Error> {
    if cluster != s.row.cluster then Err(Forbidden)
    else if !s.row.deleted then Err(VersionConflict)
    else if !s.console.present || !s.console.closed then Err(BindingConflict)
    else if s.completion.closed then
      if s.completion.digest == s.console.digest then Ok(s) else Err(BindingConflict)
    else if s.console.digest.Some? && s.completion.present && s.completion.digest != s.console.digest then Err(BindingConflict)
    else Ok(s.(completion := Binding(true, if s.completion.present then s.completion.digest else s.console.digest, true)))
  }

  /** Soft deletion resets every cleanup observation; it cannot be reversed. */
  function DeleteGateway(s: Store): Store {
    if s.row.deleted then s
    else s.(row := s.row.(version := s.row.version + 1, deleted := true, done := PENDING), events := s.events + [Updated])
  }

  /** What holds of every stored row and its outbox. */
  predicate Ledger(s: Store) {
    && s.row.version >= 1
    && (s.row.deleted || s.row.done == PENDING)
    && (s.row.finalized ==> s.row.deleted)
    && (Complete(s.row.done) ==> s.row.finalized)
    && DeletedEvents(s.events) == (if s.row.finalized then 1 else 0)
  }

  function DeletedEvents(events: seq<Event>): nat {
    if events == [] then 0
    else DeletedEvents(events[..|events| - 1]) + (if events[|events| - 1] == Deleted then 1 else 0)
  }

  lemma DeletedEventsAppend(events: seq<Event>, e: Event)
    ensures DeletedEvents(events + [e]) == DeletedEvents(events) + (if e == Deleted then 1 else 0)
  {
    assert (events + [e])[..|events|] == events;
  }

  /** How one committed observation changes the store: one owner, one event at most, no binding. */
  predicate Committed(s: Store, t: Store, owner: Owner, complete: bool) {
    && t == s.(row := t.row, events := t.events)
    && s.row.deleted
    && t.row == s.row.(version := t.row.version, done := Mark(s.row.done, owner, complete), finalized := t.row.finalized)
    && t.row.version >= s.row.version
    && (t.row.version == s.row.version ==> t.row == s.row)
    && Ledger(t)
  }

  lemma CleanupEffect(s: Store, version: nat, owner: Owner, target: Option<Cluster>, complete: bool)
    requires Ledger(s)
    requires RecordCleanup(s, version, owner, target, complete).Ok?
    ensures Committed(s, RecordCleanup(s, version, owner, target, complete).value, owner, complete)
  {
    hide ConsoleProven;
    DeletedEventsAppend(s.events, Deleted);
    DeletedEventsAppend(s.events, Updated);
  }

  /** Which observations are accepted. */
  lemma CleanupAccepted(s: Store, version: nat, owner: Owner, target: Option<Cluster>, complete: bool)
    ensures RecordCleanup(s, version, owner, target, complete).Ok? <==>
              && version >= 1 && version == s.row.version && s.row.deleted
              && target == (if owner == Accounts || owner == Identity then None else Some(s.row.cluster))
              && (owner == Sql && complete ==> ConsoleProven(s))
  {
    hide ConsoleProven, Has, Mark, Complete;
  }

  /** Everything that an accepted observation leaves. */
  lemma CleanupOutcome(s: Store, version: nat, owner: Owner, target: Option<Cluster>, complete: bool)
    requires RecordCleanup(s, version, owner, target, complete).Ok?
    ensures var t, changed := RecordCleanup(s, version, owner, target, complete).value, Has(s.row.done, owner) != complete;
            && (forall o :: Has(t.row.done, o) == if o == owner then complete else Has(s.row.done, o))
            && t.row.finalized == (s.row.finalized || forall o :: Has(t.row.done, o))
            && t.events == s.events + (if t.row.finalized && !s.row.finalized then [Deleted] else if changed then [Updated] else [])
            && t.row.version == s.row.version + (if changed then 1 else 0) + (if t.row.finalized && !s.row.finalized then 1 else 0)
            && t.row.deleted && t.row.cluster == s.row.cluster
            && t.gateway == s.gateway && t.console == s.console && t.completion == s.completion
  {
    hide ConsoleProven, Complete;
    CompleteIsAll(RecordCleanup(s, version, owner, target, complete).value.row.done);
    forall o
      ensures Has(Mark(s.row.done, owner, complete), o) == if o == owner then complete else Has(s.row.done, o)
    {
      MarkIsExact(s.row.done, owner, complete, o);
    }
    hide Mark, Has;
  }

  lemma CompleteIsAll(d: Done)
    ensures Complete(d) <==> forall o :: Has(d, o)
  {
    if !Complete(d) {
      assert !Has(d, Accounts) || !Has(d, Identity) || !Has(d, Workload) || !Has(d, Sql) || !Has(d, Allocation);
    }
  }

  /** Completing console cleanup again changes nothing; the evidence it leaves is what a sql observation needs. */
  lemma CompletionIdempotent(s: Store, cluster: Cluster)
    requires CompleteConsoleSQLCleanup(s, cluster).Ok?
    requires s.completion.present ==> s.completion.closed
    requires !s.completion.present ==> s.completion == ABSENT
    ensures var t := CompleteConsoleSQLCleanup(s, cluster).value;
            && CompleteConsoleSQLCleanup(t, cluster) == Ok(t)
            && ConsoleProven(t)
            && t.row == s.row && t.events == s.events && t.gateway == s.gateway && t.console == s.console
  {}
}
