/** Sessions and the agent's pointer agree after every committed transaction. */
module TrainingProofs {
  import opened Common
  import opened Training

  // ----- the guard at the end of a transaction ------------------------------------------------

  predicate AgreesAt(db: DB, id: nat)
    requires id in db.sessions
  {
    db.sessions[id].id == id && (Terminal(db.sessions[id]) <==> db.agent.pointer != Some(id))
  }

  /** A session is live exactly if the agent points to it. */
  predicate Agreement(db: DB) {
    && (forall id :: id in db.sessions ==> AgreesAt(db, id))
    && (db.agent.pointer.Some? ==> db.agent.pointer.value in db.sessions)
  }

  lemma AtMostOneLive(db: DB, i: nat, j: nat)
    requires Agreement(db) && i in db.sessions && j in db.sessions
    requires !Terminal(db.sessions[i]) && !Terminal(db.sessions[j])
    ensures i == j
  {}

  datatype Op =
    | DoCreate(s: Session)
    | DoSave(s: Session, expected: nat)
    | DoPoint(from: Option<nat>, to: Option<nat>, version: nat)
    | DoCommit(id: nat, source: nat, expected: nat)

  /** The body of a transaction: any sequence of primitives. */
  datatype Body = Empty | Then(before: Body, op: Op)

  function Perform(t: Tx, op: Op): Option<Tx> {
    match op
    case DoCreate(s) => CreateSession(t, s)
    case DoSave(s, expected) => SaveSession(t, s, expected)
    case DoPoint(from, to, version) => SetTrainingPointer(t, from, to, version)
    case DoCommit(id, source, expected) => CommitPublication(t, id, source, expected)
  }

  function Exec(db: DB, b: Body): Option<Tx> {
    match b
    case Empty => Some(Begin(db))
    case Then(before, op) =>
      var t :- Exec(db, before);
      Perform(t, op)
  }

  /** What a body can have done so far. */
  predicate Tracks(db: DB, t: Tx) {
    && (forall id :: id in db.sessions ==> id in t.db.sessions)
    && (forall id :: id in t.db.sessions && id !in t.changed ==> id in db.sessions && t.db.sessions[id] == db.sessions[id])
    && (forall id :: id in t.changed ==> Recorded(t, id))
    && (t.db.agent.pointer.Some? && t.db.agent.pointer != db.agent.pointer ==> Pointable(t, t.db.agent.pointer.value))
  }

  predicate Recorded(t: Tx, id: nat)
    requires id in t.changed
  {
    id in t.db.sessions && t.db.sessions[id].status == t.changed[id].status && t.db.sessions[id].id == id
  }

  predicate Pointable(t: Tx, id: nat) { id in t.db.sessions && (id in t.changed || !Terminal(t.db.sessions[id])) }

  lemma SaveTracks(db: DB, t: Tx, s: Session, expected: nat)
    requires Tracks(db, t) && SaveSession(t, s, expected).Some?
    ensures Tracks(db, SaveSession(t, s, expected).value)
  {
    var u := SaveSession(t, s, expected).value;
    forall id | id in u.changed ensures Recorded(u, id) {
      if id != s.id { assert Recorded(t, id); }
    }
  }

  lemma CreateTracks(db: DB, t: Tx, s: Session)
    requires Tracks(db, t) && CreateSession(t, s).Some?
    ensures Tracks(db, CreateSession(t, s).value)
  {
    var u := CreateSession(t, s).value;
    forall id | id in u.changed ensures Recorded(u, id) {
      if id != s.id { assert Recorded(t, id); }
    }
  }

  /** A primitive that leaves the sessions alone. */
  lemma PointerTracks(db: DB, t: Tx, u: Tx)
    requires Tracks(db, t) && u.db.sessions == t.db.sessions && u.changed == t.changed
    requires u.db.agent.pointer.Some? ==> Pointable(u, u.db.agent.pointer.value)
    ensures Tracks(db, u)
  {
    forall id | id in u.changed ensures Recorded(u, id) { assert Recorded(t, id); }
  }

  lemma {:induction false} ExecTracks(db: DB, b: Body)
    requires Exec(db, b).Some?
    ensures Tracks(db, Exec(db, b).value)
  {
    if b.Then? {
      ExecTracks(db, b.before);
      var t, u := Exec(db, b.before).value, Exec(db, b).value;
      match b.op
      case DoCreate(s) => CreateTracks(db, t, s);
      case DoSave(s, expected) => SaveTracks(db, t, s, expected);
      case DoPoint(_, _, _) => PointerTracks(db, t, u);
      case DoCommit(_, _, _) => PointerTracks(db, t, u);
    }
  }

  /** A body that moves the pointer away from a session must save that session. */
  predicate SavesOldPointee(db: DB, t: Tx) {
    db.agent.pointer.Some? && t.db.agent.pointer != db.agent.pointer ==> db.agent.pointer.value in t.changed
  }

  /** The guard alone does not keep the agreement: it does so exactly if the transaction also saves the
      session it moves the pointer away from. */
  lemma {:induction false} GuardSufficesIff(db: DB, b: Body)
    requires Agreement(db) && Exec(db, b).Some?
    ensures var t := Exec(db, b).value; Agreement(t.db) <==> GuardHolds(t) && SavesOldPointee(db, t)
  {
    var t := Exec(db, b).value;
    ExecTracks(db, b);
    if Agreement(t.db) {
      forall id | id in t.changed ensures Terminal(t.changed[id]) <==> t.db.agent.pointer != Some(id) {
        assert Recorded(t, id);
        assert Terminal(t.db.sessions[id]) <==> Terminal(t.changed[id]);
      }
    }
    if GuardHolds(t) && SavesOldPointee(db, t) {
      forall id | id in t.db.sessions ensures AgreesAt(t.db, id) {
        if id in t.changed { assert Recorded(t, id); assert Terminal(t.db.sessions[id]) <==> Terminal(t.changed[id]); }
      }
    }
  }

  /** Clearing the pointer alone passes the guard and leaves a live session without it. */
  lemma {:induction false} GuardMisses(db: DB)
    requires Agreement(db) && db.agent.pointer.Some?
    ensures var b := Then(Empty, DoPoint(db.agent.pointer, None, db.agent.rowVersion));
      Exec(db, b).Some? && Commit(Exec(db, b).value).Some? && !Agreement(Commit(Exec(db, b).value).value)
  {
    var b := Then(Empty, DoPoint(db.agent.pointer, None, db.agent.rowVersion));
    assert Exec(db, Empty) == Some(Begin(db));
    var t := Exec(db, b).value;
    assert t.db.sessions == db.sessions && t.db.agent.pointer == None;
    assert !Terminal(t.db.sessions[db.agent.pointer.value]);
  }

  // ----- runs ---------------------------------------------------------------------------------

  /** The rows, and every copy of a session that some caller may still hold. */
  datatype State = State(db: DB, copies: set<Session>)

  datatype Event =
    | Creates(n: NewSession, expected: nat)
    | Reads(id: nat)
    | Admits(id: nat, admin: nat, kind: Kind, q: Request, now: int)
    | Finishes(item: Session, change: Change, ok: bool, now: int)
    | FinishesRun(item: Session, head: Option<nat>, partial: bool, ok: bool, now: int)
    | Reconciles(id: nat, admin: nat, now: int)
    | Prepares(item: Session, version: nat)
    | Publishes(item: Session, validUntil: int, now: int)
    | Interrupts(item: Session)
    | Recovers(item: Session)
    | AgentChanges(enabled: bool, active: Option<nat>)
    | VersionAppears(version: nat)

  /** Which copies an operation works on: the ones its own admission handed out. */
  predicate Own(s: State, item: Session, kind: Kind) { item in s.copies && IsRunning(item) && item.op.kind == kind }

  function Effect(s: State, e: Event): Option<Outcome> {
    match e
    case Creates(n, expected) => Create(s.db, n, expected)
    case Reads(id) => if id in s.db.sessions then Some(Outcome(s.db, s.db.sessions[id])) else None
    case Admits(id, admin, kind, q, now) => if kind.Initialize? then None else Admit(s.db, id, admin, kind, q, now)
    case Finishes(item, change, ok, now) =>
      if Own(s, item, KindOf(change)) then Finish(s.db, Changed(item, change), ok, now) else None
    case FinishesRun(item, head, partial, ok, now) =>
      if Own(s, item, Run) then FinishRun(s.db, item, head, partial, ok, now) else None
    case Reconciles(id, admin, now) => Reconcile(s.db, id, admin, now)
    case Prepares(item, version) => if Own(s, item, Publish) then Prepare(s.db, item, version) else None
    case Publishes(item, validUntil, now) =>
      if Own(s, item, Publish) then CommitPublish(s.db, item, validUntil, now) else None
    case Interrupts(item) => if item in s.copies then Interrupt(s.db, item) else None
    case Recovers(item) => if item in s.copies then RecoverCommitted(s.db, item) else None
    case AgentChanges(_, _) => None
    case VersionAppears(_) => None
  }

  /** A transaction that fails changes nothing. */
  function Step(s: State, e: Event): State {
    match e
    case AgentChanges(enabled, active) =>
      var a := s.db.agent;
      s.(db := s.db.(agent := a.(enabled := enabled, active := active, rowVersion := a.rowVersion + 1)))
    case VersionAppears(v) => if v in s.db.versions then s else s.(db := s.db.(versions := s.db.versions[v := None]))
    case _ =>
      match Effect(s, e)
      case Some(o) => State(o.db, s.copies + {o.item})
      case None => s
  }

  datatype History = Nothing | And(before: History, event: Event)

  function After(s: State, h: History): State { if h.Nothing? then s else Step(After(s, h.before), h.event) }

  // ----- the invariant ------------------------------------------------------------------------

  /** Evidence is there exactly when it counts, and then for the candidate as it is. */
  predicate Evidenced(s: Session) {
    if s.status.Ready? || s.status.Published? then !s.partial && s.validation == Some(Evidence(s.head, s.config))
    else s.validation.None?
  }

  /** The status a running operation claimed. */
  predicate Claims(s: Session) {
    IsRunning(s) ==>
      match s.op.kind
      case Validate => s.status.Validating? && !s.partial
      case Publish => s.status.Ready?
      case _ => s.status.Active?
  }

  predicate RowsSound(db: DB) { forall id :: id in db.sessions ==> Evidenced(db.sessions[id]) && Claims(db.sessions[id]) }

  /** A session is published exactly if the version it resulted in exists, and names it. */
  predicate VersionsSound(db: DB) {
    && (forall v :: v in db.versions && db.versions[v].Some? ==>
          db.versions[v].value in db.sessions && db.sessions[db.versions[v].value].status.Published?)
    && (forall id :: id in db.sessions && db.sessions[id].status.Published? ==>
          db.sessions[id].result.Some? && db.sessions[id].result.value in db.versions
          && db.versions[db.sessions[id].result.value] == Some(id))
  }

  /** A copy is as old as its row version says: with the row's own version it is the row. */
  predicate CopyOf(c: Session, db: DB) {
    c.id in db.sessions && c.rowVersion <= db.sessions[c.id].rowVersion
    && (c.rowVersion == db.sessions[c.id].rowVersion ==> c == db.sessions[c.id])
  }

  predicate CopiesSound(s: State) { forall c :: c in s.copies ==> CopyOf(c, s.db) }

  predicate Inv(s: State) { Agreement(s.db) && RowsSound(s.db) && VersionsSound(s.db) && CopiesSound(s) }

  // ----- what a save comes to -----------------------------------------------------------------

  /** One row rewritten, the pointer kept or cleared with it. */
  predicate Rewrites(db: DB, d: DB, r: Session) {
    && r.id in db.sessions && !Terminal(db.sessions[r.id]) && r.rowVersion == db.sessions[r.id].rowVersion + 1
    && d.sessions == db.sessions[r.id := r]
    && (Terminal(r) <==> d.agent.pointer != Some(r.id))
    && (d.agent.pointer == db.agent.pointer || d.agent.pointer == None)
  }

  lemma SavedRewrites(db: DB, item: Session)
    requires Saved(db, item).Some?
    ensures var o := Saved(db, item).value;
      o.item == Bumped(item) && Rewrites(db, o.db, o.item) && o.db.versions == db.versions
    ensures db.sessions[item.id].admin == item.admin && db.sessions[item.id].rowVersion == item.rowVersion
  {
    var t := SaveSession(Begin(db), item, item.rowVersion).value;
    assert item.id in t.changed;
  }

  lemma ClearedRewrites(db: DB, item: Session)
    requires SavedAndCleared(db, item).Some?
    ensures var o := SavedAndCleared(db, item).value;
      o.item == Bumped(item) && Rewrites(db, o.db, o.item) && o.db.versions == db.versions
    ensures db.sessions[item.id].admin == item.admin && db.sessions[item.id].rowVersion == item.rowVersion
  {
    var t := SetTrainingPointer(Begin(db), Some(item.id), None, db.agent.rowVersion).value;
    var u := SaveSession(t, item, item.rowVersion).value;
    assert item.id in u.changed;
  }

  /** A transaction creates one row, rewrites one live row, or changes nothing. */
  predicate Touches(db: DB, o: Outcome) {
    || o.db == db
    || Rewrites(db, o.db, o.item)
    || (o.item.id !in db.sessions && o.db.sessions == db.sessions[o.item.id := o.item])
  }

  /** A transaction that keeps the invariant, with what it hands back as one more copy. */
  predicate Keeps(s: State, o: Outcome) { Inv(State(o.db, s.copies + {o.item})) && Touches(s.db, o) }

  /** A rewrite keeps the agreement, and makes every older copy of the row outdated. */
  lemma RewriteKeeps(s: State, d: DB, r: Session)
    requires Agreement(s.db) && RowsSound(s.db) && CopiesSound(s) && Rewrites(s.db, d, r)
    requires Evidenced(r) && Claims(r)
    ensures Agreement(d) && RowsSound(d) && CopiesSound(State(d, s.copies + {r}))
  {
    forall id | id in d.sessions ensures AgreesAt(d, id) {
      if id != r.id { assert d.sessions[id] == s.db.sessions[id]; }
    }
    forall c | c in s.copies + {r} ensures CopyOf(c, d) {
      if c in s.copies { assert CopyOf(c, s.db); }
    }
  }

  /** As long as nothing is published, the versions stay as they were. */
  lemma VersionsKept(db: DB, d: DB, r: Session)
    requires VersionsSound(db) && Rewrites(db, d, r) && d.versions == db.versions && !r.status.Published?
    ensures VersionsSound(d)
  {
    forall id | id in d.sessions && d.sessions[id].status.Published?
      ensures d.sessions[id].result.Some? && d.sessions[id].result.value in d.versions
           && d.versions[d.sessions[id].result.value] == Some(id)
    {
      assert d.sessions[id] == db.sessions[id];
    }
  }

  lemma Rewritten(s: State, o: Outcome)
    requires Inv(s) && Rewrites(s.db, o.db, o.item) && o.db.versions == s.db.versions
    requires Evidenced(o.item) && Claims(o.item) && !o.item.status.Published?
    ensures Keeps(s, o)
  {
    RewriteKeeps(s, o.db, o.item);
    VersionsKept(s.db, o.db, o.item);
  }

  /** A save commits only what was made from the row as it is. */
  lemma HeldIsCurrent(s: State, item: Session)
    requires CopiesSound(s) && item in s.copies && Load(s.db, item.id, item.admin).Some?
    requires s.db.sessions[item.id].rowVersion == item.rowVersion
    ensures item == s.db.sessions[item.id]
  {
    assert CopyOf(item, s.db);
  }

  // ----- every event --------------------------------------------------------------------------

  lemma CreateKeeps(s: State, n: NewSession, expected: nat)
    requires Inv(s) && Create(s.db, n, expected).Some?
    ensures var o := Create(s.db, n, expected).value; Keeps(s, o)
  {
    var o := Create(s.db, n, expected).value;
    var db, d := s.db, o.db;
    assert d.sessions == db.sessions[n.id := o.item] && n.id !in db.sessions && d.agent.pointer == Some(n.id);
    forall id | id in d.sessions ensures AgreesAt(d, id) {
      if id != n.id { assert d.sessions[id] == db.sessions[id]; }
    }
    forall c | c in s.copies + {o.item} ensures CopyOf(c, d) {
      if c in s.copies { assert CopyOf(c, db); }
    }
    forall v | v in d.versions && d.versions[v].Some?
      ensures d.versions[v].value in d.sessions && d.sessions[d.versions[v].value].status.Published?
    {
      assert db.versions[v].value in db.sessions;
    }
  }

  lemma AdmitKeeps(s: State, id: nat, admin: nat, kind: Kind, q: Request, now: int)
    requires Inv(s) && !kind.Initialize? && Admit(s.db, id, admin, kind, q, now).Some?
    ensures var o := Admit(s.db, id, admin, kind, q, now).value; Keeps(s, o)
  {
    var o, row := Admit(s.db, id, admin, kind, q, now).value, s.db.sessions[id];
    if row.op.id != q.id {
      SavedRewrites(s.db, Claimed(row, kind, q));
      Rewritten(s, o);
    } else {
      SameRows(s, o);
    }
  }

  lemma SameRows(s: State, o: Outcome)
    requires Inv(s) && o.db == s.db && o.item.id in s.db.sessions && o.item == s.db.sessions[o.item.id]
    ensures Keeps(s, o)
  {}

  /** What finishing an operation makes of a session it claimed. */
  lemma FinishedIsSound(row: Session, change: Change, ok: bool, now: int)
    requires Evidenced(row) && Claims(row) && IsRunning(row) && row.op.kind == KindOf(change)
    ensures var done := Finished(Changed(row, change), ok, now);
      Evidenced(Bumped(done)) && Claims(Bumped(done)) && !done.status.Published?
  {}

  lemma FinishRewrites(db: DB, held: Session, ok: bool, now: int)
    requires Finish(db, held, ok, now).Some?
    ensures var o := Finish(db, held, ok, now).value;
      && o.item == Bumped(Finished(held, ok, now)) && Rewrites(db, o.db, o.item) && o.db.versions == db.versions
      && Load(db, held.id, held.admin).Some? && db.sessions[held.id].rowVersion == held.rowVersion
  {
    var done := Finished(held, ok, now);
    if Terminal(done) { ClearedRewrites(db, done); } else { SavedRewrites(db, done); }
  }

  /** A change leaves alone what says which row it is for. */
  lemma ChangedKeepsIdentity(item: Session, change: Change)
    ensures var c := Changed(item, change); c.id == item.id && c.admin == item.admin && c.rowVersion == item.rowVersion
  {}

  lemma FinishKeeps(s: State, item: Session, change: Change, ok: bool, now: int)
    requires Inv(s) && Own(s, item, KindOf(change)) && Finish(s.db, Changed(item, change), ok, now).Some?
    ensures var o := Finish(s.db, Changed(item, change), ok, now).value; Keeps(s, o)
    ensures item.id in s.db.sessions && item == s.db.sessions[item.id]
  {
    FinishRewrites(s.db, Changed(item, change), ok, now);
    ChangedKeepsIdentity(item, change);
    HeldIsCurrent(s, item);
    FinishedIsSound(item, change, ok, now);
    Rewritten(s, Finish(s.db, Changed(item, change), ok, now).value);
  }

  lemma FinishRunKeeps(s: State, item: Session, head: Option<nat>, partial: bool, ok: bool, now: int)
    requires Inv(s) && Own(s, item, Run) && FinishRun(s.db, item, head, partial, ok, now).Some?
    ensures var o := FinishRun(s.db, item, head, partial, ok, now).value; Keeps(s, o)
  {
    var written := if head.Some? then item.(head := head.value, partial := partial) else item.(partial := true);
    var t := written.(op := item.op.(state := if ok then Completed else Failed));
    if IsExpired(item, now) {
      ClearedRewrites(s.db, t.(op := t.op.(state := Interrupted), status := Expired));
    } else {
      SavedRewrites(s.db, t);
    }
    HeldIsCurrent(s, item);
    Rewritten(s, FinishRun(s.db, item, head, partial, ok, now).value);
  }

  lemma ReconcileKeeps(s: State, id: nat, admin: nat, now: int)
    requires Inv(s) && Reconcile(s.db, id, admin, now).Some?
    ensures var o := Reconcile(s.db, id, admin, now).value; Keeps(s, o)
  {
    var o, row := Reconcile(s.db, id, admin, now).value, s.db.sessions[id];
    if o.db == s.db {
      SameRows(s, o);
    } else {
      var closed := Transition(row, if IsExpired(row, now) then Expired else Stale).value;
      var t := SaveSession(Begin(s.db), closed, closed.rowVersion).value;
      var u := SetTrainingPointer(t, Some(id), None, s.db.agent.rowVersion).value;
      assert id in u.changed;
      Rewritten(s, o);
    }
  }

  lemma PrepareKeeps(s: State, item: Session, version: nat)
    requires Inv(s) && Own(s, item, Publish) && Prepare(s.db, item, version).Some?
    ensures var o := Prepare(s.db, item, version).value; Keeps(s, o)
  {
    SavedRewrites(s.db, item.(op := item.op.(prepared := Some(version))));
    HeldIsCurrent(s, item);
    Rewritten(s, Prepare(s.db, item, version).value);
  }

  lemma PublishRewrites(s: State, item: Session, validUntil: int, now: int)
    requires Inv(s) && Own(s, item, Publish) && CommitPublish(s.db, item, validUntil, now).Some?
    ensures var o := CommitPublish(s.db, item, validUntil, now).value;
      && item.op.prepared.Some? && item == s.db.sessions[item.id]
      && Rewrites(s.db, o.db, o.item) && Evidenced(o.item) && Claims(o.item) && o.item.status.Published?
      && o.item.result == item.op.prepared && item.op.prepared.value !in s.db.versions
      && o.db.versions == s.db.versions[item.op.prepared.value := Some(item.id)]
  {
    HeldIsCurrent(s, item);
    var version := item.op.prepared.value;
    var t := CommitPublication(Begin(s.db), version, item.id, s.db.agent.rowVersion).value;
    var p := PublishSession(Ended(item), version).value;
    var u := SaveSession(t, p, p.rowVersion).value;
    assert item.id in u.changed;
  }

  lemma PublishKeeps(s: State, item: Session, validUntil: int, now: int)
    requires Inv(s) && Own(s, item, Publish) && CommitPublish(s.db, item, validUntil, now).Some?
    ensures var o := CommitPublish(s.db, item, validUntil, now).value; Keeps(s, o)
  {
    var o := CommitPublish(s.db, item, validUntil, now).value;
    PublishRewrites(s, item, validUntil, now);
    RewriteKeeps(s, o.db, o.item);
    NewVersion(s.db, o.db, o.item);
  }

  lemma NewVersion(db: DB, d: DB, r: Session)
    requires VersionsSound(db) && Rewrites(db, d, r) && r.status.Published? && r.result.Some?
    requires r.result.value !in db.versions && d.versions == db.versions[r.result.value := Some(r.id)]
    ensures VersionsSound(d)
  {
    forall v | v in d.versions && d.versions[v].Some?
      ensures d.versions[v].value in d.sessions && d.sessions[d.versions[v].value].status.Published?
    {
      if v != r.result.value { assert db.sessions[db.versions[v].value].status.Published?; }
    }
    forall id | id in d.sessions && d.sessions[id].status.Published?
      ensures d.sessions[id].result.Some? && d.sessions[id].result.value in d.versions
           && d.versions[d.sessions[id].result.value] == Some(id)
    {
      if id != r.id { assert d.sessions[id] == db.sessions[id]; }
    }
  }

  lemma InterruptKeeps(s: State, item: Session)
    requires Inv(s) && item in s.copies && Interrupt(s.db, item).Some?
    ensures var o := Interrupt(s.db, item).value; Keeps(s, o)
  {
    SavedRewrites(s.db, item.(op := item.op.(state := Interrupted, prepared := None), status := Active, validation := None));
    HeldIsCurrent(s, item);
    Rewritten(s, Interrupt(s.db, item).value);
  }

  /** Publishing a session after a crash never happens: a version that came from a session was committed
      together with the session's own end, so no live session is left to be recovered. */
  lemma RecoveryFindsNothing(s: State, item: Session)
    requires VersionsSound(s.db) && CopiesSound(s) && item in s.copies
    ensures RecoverCommitted(s.db, item) == None
  {
    if Load(s.db, item.id, item.admin).Some? && s.db.sessions[item.id].rowVersion == item.rowVersion {
      HeldIsCurrent(s, item);
    }
  }

  lemma OutsideKeeps(s: State, e: Event)
    requires Inv(s) && (e.AgentChanges? || e.VersionAppears?)
    ensures Inv(Step(s, e))
  {
    var t := Step(s, e);
    forall c | c in t.copies ensures CopyOf(c, t.db) { assert CopyOf(c, s.db); }
  }

  lemma StepKeeps(s: State, e: Event)
    requires Inv(s)
    ensures Inv(Step(s, e))
    ensures Effect(s, e).Some? ==> Touches(s.db, Effect(s, e).value)
  {
    if e.AgentChanges? || e.VersionAppears? {
      OutsideKeeps(s, e);
    } else if Effect(s, e).Some? {
      match e
      case Creates(n, expected) => CreateKeeps(s, n, expected);
      case Reads(id) => SameRows(s, Effect(s, e).value);
      case Admits(id, admin, kind, q, now) => AdmitKeeps(s, id, admin, kind, q, now);
      case Finishes(item, change, ok, now) => FinishKeeps(s, item, change, ok, now);
      case FinishesRun(item, head, partial, ok, now) => FinishRunKeeps(s, item, head, partial, ok, now);
      case Reconciles(id, admin, now) => ReconcileKeeps(s, id, admin, now);
      case Prepares(item, version) => PrepareKeeps(s, item, version);
      case Publishes(item, validUntil, now) => PublishKeeps(s, item, validUntil, now);
      case Interrupts(item) => InterruptKeeps(s, item);
      case Recovers(item) => RecoveryFindsNothing(s, item);
    }
  }

  lemma {:induction false} EveryRunKeeps(s: State, h: History)
    requires Inv(s)
    ensures Inv(After(s, h))
  {
    if h.And? {
      EveryRunKeeps(s, h.before);
      StepKeeps(After(s, h.before), h.event);
    }
  }

  // ----- the results --------------------------------------------------------------------------

  /** The copy an event was made from. */
  function Held(e: Event): Option<Session> {
    match e
    case Finishes(item, _, _, _) => Some(item)
    case FinishesRun(item, _, _, _, _) => Some(item)
    case Prepares(item, _) => Some(item)
    case Publishes(item, _, _) => Some(item)
    case Interrupts(item) => Some(item)
    case Recovers(item) => Some(item)
    case _ => None
  }

  /** No update is lost: whatever commits from a copy, the copy still was the row, in every field. */
  lemma NoUpdateIsLost(s: State, e: Event)
    requires Inv(s) && Held(e).Some? && Effect(s, e).Some?
    ensures Held(e).value.id in s.db.sessions && Held(e).value == s.db.sessions[Held(e).value.id]
  {
    var item := Held(e).value;
    match e
    case Finishes(_, change, ok, now) => FinishKeeps(s, item, change, ok, now);
    case FinishesRun(_, _, _, _, _) => HeldIsCurrent(s, item);
    case Prepares(_, version) =>
      SavedRewrites(s.db, item.(op := item.op.(prepared := Some(version))));
      HeldIsCurrent(s, item);
    case Publishes(_, validUntil, now) => PublishRewrites(s, item, validUntil, now);
    case Interrupts(_) => HeldIsCurrent(s, item);
    case Recovers(_) => HeldIsCurrent(s, item);
  }

  /** Before any session: an agent without a pointer, and versions that came from elsewhere. */
  predicate Untrained(db: DB) {
    db.sessions == map[] && db.agent.pointer == None && forall v :: v in db.versions ==> db.versions[v].None?
  }

  /** After every run the agent points to the one live session or to none, a ready session has evidence for
      its candidate as it is, and a session is published exactly if its version exists. */
  lemma {:induction false} EveryRunAgrees(db: DB, h: History)
    requires Untrained(db)
    ensures var d := After(State(db, {}), h).db; Agreement(d) && RowsSound(d) && VersionsSound(d)
  {
    EveryRunKeeps(State(db, {}), h);
  }

  /** No run brings up a session that recovery would have to publish after the fact. */
  lemma {:induction false} RecoveryIsNeverNeeded(db: DB, h: History, item: Session)
    requires Untrained(db) && item in After(State(db, {}), h).copies
    ensures RecoverCommitted(After(State(db, {}), h).db, item) == None
  {
    EveryRunKeeps(State(db, {}), h);
    RecoveryFindsNothing(After(State(db, {}), h), item);
  }

  /** A published session stays as it is: nothing that commits touches its row again. */
  lemma PublishedIsFinal(s: State, e: Event, id: nat)
    requires Inv(s) && id in s.db.sessions && Terminal(s.db.sessions[id])
    ensures id in Step(s, e).db.sessions && Step(s, e).db.sessions[id] == s.db.sessions[id]
  {
    StepKeeps(s, e);
  }
}
