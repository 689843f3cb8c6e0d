/** Training sessions of one agent as rows changed by transactions (domain/entity/agenttraining,
    infrastructure/persistence/agenttraining, application/service/agenttraining). */
module Training {
  import opened Common

  datatype Status = Active | Validating | Ready | Published | Cancelled | Stale | Expired

  datatype Kind = Initialize | Run | Validate | Restore | Config | Cancel | Publish

  datatype OpState = Running | Completed | Interrupted | Failed

  /** `prepared` is the version a publication is about to commit. */
  datatype Operation = Operation(id: nat, kind: Kind, digest: nat, state: OpState, prepared: Option<nat>)

  /** What a validation looked at. */
  datatype Evidence = Evidence(head: nat, config: nat)

  datatype Session = Session(
    id: nat, admin: nat, base: nat, head: nat, config: nat, partial: bool, status: Status, rowVersion: nat,
    expires: int, validation: Option<Evidence>, op: Operation, result: Option<nat>)

  datatype Agent = Agent(enabled: bool, active: Option<nat>, pointer: Option<nat>, rowVersion: nat)

  /** A version's row names the session it was published from, if any. */
  datatype DB = DB(agent: Agent, sessions: map<nat, Session>, versions: map<nat, Option<nat>>)

  predicate Terminal(s: Session) { s.status.Published? || s.status.Cancelled? || s.status.Stale? || s.status.Expired? }

  predicate IsRunning(s: Session) { s.op.state.Running? }

  predicate IsExpired(s: Session, now: int) { now >= s.expires }

  predicate Allowed(from: Status, to: Status) {
    match from
    case Active => to.Active? || to.Validating? || to.Cancelled? || to.Stale? || to.Expired?
    case Validating => to.Active? || to.Ready? || to.Cancelled? || to.Stale? || to.Expired?
    case Ready => to.Active? || to.Validating? || to.Published? || to.Cancelled? || to.Stale? || to.Expired?
    case _ => false
  }

  function Transition(s: Session, next: Status): Option<Session> {
    if Terminal(s) || !Allowed(s.status, next) then None
    else if next.Ready? && (s.partial || s.validation.None?) then None
    else if (next.Cancelled? || next.Expired? || next.Stale?) && IsRunning(s) then None
    else Some(s.(status := next, validation := if next.Ready? || next.Published? then s.validation else None))
  }

  function PublishSession(s: Session, version: nat): Option<Session> {
    if !s.status.Ready? || s.partial then None
    else
      var t :- Transition(s, Published);
      Some(t.(result := Some(version)))
  }

  // ----- primitives of a transaction ----------------------------------------------------------

  /** The rows as this transaction sees them, and the sessions it has saved. */
  datatype Tx = Tx(db: DB, changed: map<nat, Session>)

  function Begin(db: DB): Tx { Tx(db, map[]) }

  predicate Live(s: Session) { s.status.Active? || s.status.Validating? || s.status.Ready? }

  function Load(db: DB, id: nat, admin: nat): Option<Session> {
    if id in db.sessions && db.sessions[id].admin == admin then Some(db.sessions[id]) else None
  }

  /** Every session row is counted that is neither published, cancelled, stale nor expired. */
  predicate AnyLive(db: DB) { exists id :: id in db.sessions && Live(db.sessions[id]) }

  function CreateSession(t: Tx, s: Session): Option<Tx> {
    var a := t.db.agent;
    if s.status != Active || s.rowVersion != 0 then None
    else if !a.enabled || a.pointer.Some? || a.active != Some(s.base) || AnyLive(t.db) || s.id in t.db.sessions then None
    else Some(Tx(t.db.(sessions := t.db.sessions[s.id := s]), t.changed[s.id := s]))
  }

  function SaveSession(t: Tx, s: Session, expected: nat): Option<Tx> {
    var row :- Load(t.db, s.id, s.admin);
    if row.rowVersion != expected || row.expires != s.expires || row.base != s.base || Terminal(row) then None
    else if s.status != row.status
        && Transition(row.(op := s.op, validation := s.validation, partial := s.partial), s.status).None? then None
    else Some(Tx(t.db.(sessions := t.db.sessions[s.id := s.(rowVersion := expected + 1)]), t.changed[s.id := s]))
  }

  function SetTrainingPointer(t: Tx, expected: Option<nat>, next: Option<nat>, version: nat): Option<Tx> {
    var a := t.db.agent;
    if next.Some? && !(next.value in t.db.sessions && Live(t.db.sessions[next.value])) then None
    else if a.rowVersion != version || a.pointer != expected then None
    else Some(t.(db := t.db.(agent := a.(pointer := next, rowVersion := a.rowVersion + 1))))
  }

  function CommitPublication(t: Tx, version: nat, source: nat, expected: nat): Option<Tx> {
    var a := t.db.agent;
    if !(source in t.db.sessions && t.db.sessions[source].status.Ready?) || version in t.db.versions then None
    else if a.rowVersion != expected || !a.enabled || a.pointer != Some(source) then None
    else Some(t.(db := t.db.(versions := t.db.versions[version := Some(source)],
      agent := a.(active := Some(version), pointer := None, rowVersion := a.rowVersion + 1))))
  }

  /** Every session saved is live exactly if the agent points to it. */
  predicate GuardHolds(t: Tx) {
    forall id :: id in t.changed ==> (Terminal(t.changed[id]) <==> t.db.agent.pointer != Some(id))
  }

  /** The end of a transaction: everything, or nothing. */
  function Commit(t: Tx): Option<DB> { if GuardHolds(t) then Some(t.db) else None }

  // ----- the service's transactions -----------------------------------------------------------

  /** What a transaction leaves: the rows, and the session as its caller goes on holding it. */
  datatype Outcome = Outcome(db: DB, item: Session)

  function Bumped(s: Session): Session { s.(rowVersion := s.rowVersion + 1) }

  function Saved(db: DB, item: Session): Option<Outcome> {
    var t :- SaveSession(Begin(db), item, item.rowVersion);
    var d :- Commit(t);
    Some(Outcome(d, Bumped(item)))
  }

  /** As `Saved`, with the pointer cleared first. */
  function SavedAndCleared(db: DB, item: Session): Option<Outcome> {
    var t :- SetTrainingPointer(Begin(db), Some(item.id), None, db.agent.rowVersion);
    var u :- SaveSession(t, item, item.rowVersion);
    var d :- Commit(u);
    Some(Outcome(d, Bumped(item)))
  }

  datatype Request = Request(id: nat, digest: nat, expected: nat)

  datatype NewSession = NewSession(id: nat, admin: nat, head: nat, config: nat, expires: int, digest: nat)

  function Create(db: DB, n: NewSession, expected: nat): Option<Outcome> {
    var a := db.agent;
    if a.rowVersion != expected || !a.enabled || a.active.None? || a.pointer.Some? then None
    else
      var item := Session(n.id, n.admin, a.active.value, n.head, n.config, false, Active, 0, n.expires, None,
                          Operation(n.id, Initialize, n.digest, Running, None), None);
      var t :- CreateSession(Begin(db), item);
      var u :- SetTrainingPointer(t, None, Some(n.id), a.rowVersion);
      var d :- Commit(u);
      Some(Outcome(d, item))
  }

  /** The admitted copy of a session: evidence is dropped unless the operation is a publication. */
  function Claimed(s: Session, kind: Kind, q: Request): Session {
    var op := Operation(q.id, kind, q.digest, Running, None);
    if kind.Publish? then s.(op := op)
    else s.(op := op, validation := None, status := if kind.Validate? then Validating else Active)
  }

  predicate Admissible(db: DB, s: Session, kind: Kind, q: Request, now: int) {
    && !Terminal(s) && !IsRunning(s) && s.rowVersion == q.expected && !IsExpired(s, now)
    && db.agent.enabled && db.agent.active == Some(s.base) && db.agent.pointer == Some(s.id)
    && (kind.Publish? ==> s.status.Ready? && !s.partial)
    && (kind.Validate? ==> !s.partial)
  }

  /** An operation claims the session; a repeated request finds its own operation and changes nothing. */
  function Admit(db: DB, id: nat, admin: nat, kind: Kind, q: Request, now: int): Option<Outcome> {
    var s :- Load(db, id, admin);
    if s.op.id == q.id then
      if s.op.kind == kind && s.op.digest == q.digest then Some(Outcome(db, s)) else None
    else if Admissible(db, s, kind, q, now) then Saved(db, Claimed(s, kind, q))
    else None
  }

  /** What an operation changed in the copy it holds before it is finished. */
  datatype Change =
    | Initialized(ok: bool)
    | Validated(passed: bool)
    | Restored(head: nat, partial: bool)
    | Configured(config: nat)
    | Withdrawn
    | NotPublished(busy: bool)
    | Nothing

  function KindOf(c: Change): Kind {
    match c
    case Initialized(_) => Initialize
    case Validated(_) => Validate
    case Restored(_, _) => Restore
    case Configured(_) => Config
    case Withdrawn => Cancel
    case NotPublished(_) => Publish
    case Nothing => Restore
  }

  function Changed(s: Session, c: Change): Session {
    match c
    case Initialized(ok) => if ok then s else s.(status := Cancelled)
    case Validated(passed) =>
      if passed then s.(status := Ready, validation := Some(Evidence(s.head, s.config)))
      else s.(status := Active, validation := None)
    case Restored(head, partial) => s.(head := head, partial := partial)
    case Configured(config) => s.(config := config)
    case Withdrawn => s.(status := Cancelled, validation := None)
    case NotPublished(busy) =>
      var r := s.(op := s.op.(prepared := None));
      if busy then r else r.(status := Active, validation := None)
    case Nothing => s
  }

  function Finished(s: Session, ok: bool, now: int): Session {
    var t := s.(op := s.op.(state := if ok then Completed else Failed));
    if IsExpired(s, now) then t.(op := t.op.(state := Interrupted), status := Expired, validation := None) else t
  }

  /** The row still is what the caller holds, and its operation still runs. */
  predicate StillHeld(db: DB, item: Session) {
    && Load(db, item.id, item.admin).Some?
    && var current := db.sessions[item.id];
    current.rowVersion == item.rowVersion && current.op.id == item.op.id && IsRunning(current)
  }

  function Finish(db: DB, item: Session, ok: bool, now: int): Option<Outcome> {
    if !StillHeld(db, item) then None
    else
      var done := Finished(item, ok, now);
      if Terminal(done) then SavedAndCleared(db, done) else Saved(db, done)
  }

  function FinishRun(db: DB, item: Session, head: Option<nat>, partial: bool, ok: bool, now: int): Option<Outcome> {
    var written := if head.Some? then item.(head := head.value, partial := partial) else item.(partial := true);
    if !StillHeld(db, item) then None
    else
      var t := written.(op := item.op.(state := if ok then Completed else Failed));
      if IsExpired(item, now) then SavedAndCleared(db, t.(op := t.op.(state := Interrupted), status := Expired))
      else Saved(db, t)
  }

  /** Expired or stale sessions are closed; any other session is left alone. */
  function Reconcile(db: DB, id: nat, admin: nat, now: int): Option<Outcome> {
    var s :- Load(db, id, admin);
    if Terminal(s) then Some(Outcome(db, s))
    else if IsRunning(s) then None
    else if !IsExpired(s, now) && db.agent.enabled && db.agent.active == Some(s.base) then Some(Outcome(db, s))
    else
      var closed :- Transition(s, if IsExpired(s, now) then Expired else Stale);
      var t :- SaveSession(Begin(db), closed, closed.rowVersion);
      var u :- SetTrainingPointer(t, Some(id), None, db.agent.rowVersion);
      var d :- Commit(u);
      Some(Outcome(d, Bumped(closed)))
  }

  function Prepare(db: DB, item: Session, version: nat): Option<Outcome> {
    Saved(db, item.(op := item.op.(prepared := Some(version))))
  }

  function Ended(item: Session): Session {
    item.(validation := Some(Evidence(item.head, item.config)), op := item.op.(state := Completed))
  }

  function CommitPublish(db: DB, item: Session, validUntil: int, now: int): Option<Outcome> {
    if !StillHeld(db, item) || !db.sessions[item.id].status.Ready? || item.op.prepared.None? then None
    else if IsExpired(item, now) || now >= validUntil || db.agent.active != Some(item.base) then None
    else
      var version := item.op.prepared.value;
      var t :- CommitPublication(Begin(db), version, item.id, db.agent.rowVersion);
      var p :- PublishSession(Ended(item), version);
      var u :- SaveSession(t, p, p.rowVersion);
      var d :- Commit(u);
      Some(Outcome(d, Bumped(p)))
  }

  /** After a crash: a running operation is interrupted, whatever it had claimed. */
  function Interrupt(db: DB, item: Session): Option<Outcome> {
    var current :- Load(db, item.id, item.admin);
    if Terminal(item) || !IsRunning(item) || current.rowVersion != item.rowVersion then None
    else Saved(db, item.(op := item.op.(state := Interrupted, prepared := None), status := Active, validation := None))
  }

  /** After a crash: a session whose prepared version was committed is published after all. */
  function RecoverCommitted(db: DB, item: Session): Option<Outcome> {
    var current :- Load(db, item.id, item.admin);
    if !NeedsRecovery(db, item) || current.rowVersion != item.rowVersion then None
    else
      SavedAndCleared(db, item.(status := Published, result := item.op.prepared,
        validation := Some(Evidence(item.head, item.config)), op := item.op.(state := Completed)))
  }

  /** The version this session was preparing exists and came from it. */
  predicate NeedsRecovery(db: DB, item: Session) {
    && !Terminal(item) && IsRunning(item) && item.op.prepared.Some?
    && item.op.prepared.value in db.versions && db.versions[item.op.prepared.value] == Some(item.id)
  }
}
