/** What each transaction of a training session decides, in terms of the rows alone: when it commits, what it
    leaves in the row it touches, and what it leaves alone. */
module TrainingLaws {
  import opened Common
  import opened Training
  import opened TrainingProofs

  /** The agent stays as it is, up to the pointer; a session that has ended loses it. */
  predicate PointsOnly(a: Agent, b: Agent, ended: bool) {
    && b.enabled == a.enabled && b.active == a.active
    && (if ended then b.pointer == None && b.rowVersion == a.rowVersion + 1 else b == a)
  }

  /** Of all rows only `r` is new, one version on, for the same session under the same terms. */
  predicate OneRow(db: DB, o: Outcome, row: Session) {
    && o.item.id == row.id && o.db.sessions == db.sessions[row.id := o.item]
    && o.item.rowVersion == row.rowVersion + 1 && o.item.admin == row.admin && o.item.base == row.base
    && o.item.expires == row.expires
  }

  predicate SameOperation(a: Operation, b: Operation) { a.id == b.id && a.kind == b.kind && a.digest == b.digest }

  // ----- primitives ---------------------------------------------------------------------------

  predicate IsLive(status: Status) { status.Active? || status.Validating? || status.Ready? }

  /** Nothing leaves an end; a session becomes ready only from a validation, whole and with evidence, and published
      only from ready; it is not validated twice at once, and not ended while an operation runs. */
  predicate MayTurn(s: Session, next: Status) {
    && IsLive(s.status)
    && (next.Ready? ==> s.status.Validating? && !s.partial && s.validation.Some?)
    && (next.Published? ==> s.status.Ready?)
    && (next.Validating? ==> !s.status.Validating?)
    && (next.Cancelled? || next.Stale? || next.Expired? ==> s.op.state != Running)
  }

  /** A transition is made exactly if it may be, and keeps evidence only for what is ready or published. */
  lemma TransitionDecides(s: Session, next: Status)
    ensures Transition(s, next).Some? <==> MayTurn(s, next)
    ensures Transition(s, next).Some? ==>
      var kept := if next.Ready? || next.Published? then s.validation else None;
      Transition(s, next).value == s.(status := next, validation := kept)
    ensures var p := PublishSession(s, 0);
      && (p.Some? <==> s.status.Ready? && !s.partial)
      && (p.Some? ==> p.value == s.(status := Published, result := Some(0)))
  {}

  /** A row is rewritten exactly at the version expected, under the same terms, while it is live, and to a status it
      may turn to with the operation, the evidence and the partial flag it is saved with. */
  lemma SaveDecides(t: Tx, s: Session, expected: nat)
    ensures var u := SaveSession(t, s, expected);
      && (u.Some? <==>
        && s.id in t.db.sessions && var row := t.db.sessions[s.id];
        && row.admin == s.admin && row.rowVersion == expected && row.expires == s.expires && row.base == s.base
        && IsLive(row.status)
        && (s.status != row.status ==>
              MayTurn(row.(op := s.op, validation := s.validation, partial := s.partial), s.status)))
      && (u.Some? ==>
        && u.value.changed == t.changed[s.id := s]
        && u.value.db == t.db.(sessions := t.db.sessions[s.id := s.(rowVersion := expected + 1)]))
  {}

  /** A session is inserted exactly if it is new, active and unversioned, and its agent is enabled, points to none,
      is on its base and has no live session. */
  lemma InsertDecides(t: Tx, s: Session)
    ensures var u, a := CreateSession(t, s), t.db.agent;
      && (u.Some? <==>
        && s.status.Active? && s.rowVersion == 0 && a.enabled && a.pointer == None && a.active == Some(s.base)
        && s.id !in t.db.sessions && forall id :: id in t.db.sessions ==> !IsLive(t.db.sessions[id].status))
      && (u.Some? ==>
        u.value == Tx(t.db.(sessions := t.db.sessions[s.id := s]), t.changed[s.id := s]))
  {
    if AnyLive(t.db) { var id :| id in t.db.sessions && Live(t.db.sessions[id]); }
    if id :| id in t.db.sessions && IsLive(t.db.sessions[id].status) { assert Live(t.db.sessions[id]); }
  }

  /** The pointer moves exactly from the session and at the version expected, and only to a live session. */
  lemma PointDecides(t: Tx, from: Option<nat>, to: Option<nat>, version: nat)
    ensures var u, a := SetTrainingPointer(t, from, to, version), t.db.agent;
      && (u.Some? <==>
        && a.pointer == from && a.rowVersion == version
        && (to.Some? ==> to.value in t.db.sessions && IsLive(t.db.sessions[to.value].status)))
      && (u.Some? ==> u.value == t.(db := t.db.(agent := a.(pointer := to, rowVersion := version + 1))))
  {}

  /** A version is inserted and activated exactly if it is new, its session is ready and the one pointed to, and the
      agent is enabled and at the version expected. */
  lemma ActivationDecides(t: Tx, version: nat, source: nat, expected: nat)
    ensures var u, a := CommitPublication(t, version, source, expected), t.db.agent;
      && (u.Some? <==>
        && source in t.db.sessions && t.db.sessions[source].status.Ready? && version !in t.db.versions
        && a.rowVersion == expected && a.enabled && a.pointer == Some(source))
      && (u.Some? ==> u.value == t.(db := t.db.(versions := t.db.versions[version := Some(source)],
            agent := a.(active := Some(version), pointer := None, rowVersion := expected + 1))))
  {}

  /** A transaction commits exactly if, of the sessions it saved, the one the agent points to is live and the others
      have ended. */
  lemma GuardDecides(t: Tx)
    ensures Commit(t).Some? <==>
      forall id :: id in t.changed ==> (IsLive(t.changed[id].status) <==> t.db.agent.pointer == Some(id))
    ensures Commit(t).Some? ==> Commit(t).value == t.db
  {
    assert forall id :: id in t.changed ==> (Terminal(t.changed[id]) <==> !IsLive(t.changed[id].status));
  }

  /** What an operation may make of its session. */
  predicate MayBecome(row: Session, r: Session) {
    && r.id == row.id && r.admin == row.admin && r.base == row.base && r.expires == row.expires
    && r.rowVersion == row.rowVersion
    && (r.status != row.status ==>
          Transition(row.(op := r.op, validation := r.validation, partial := r.partial), r.status).Some?)
  }

  /** Saving what a session became, with the pointer if it has ended, fails only for an outdated copy. */
  lemma EndIsSaved(s: State, row: Session, r: Session)
    requires Agreement(s.db) && row.id in s.db.sessions && s.db.sessions[row.id] == row
    requires !Terminal(row) && MayBecome(row, r)
    ensures var o := if Terminal(r) then SavedAndCleared(s.db, r) else Saved(s.db, r);
      && o.Some? && OneRow(s.db, o.value, row) && o.value.db.versions == s.db.versions
      && o.value.item == Bumped(r) && PointsOnly(s.db.agent, o.value.db.agent, Terminal(r))
  {
    assert AgreesAt(s.db, row.id);
  }

  // ----- creation and admission ---------------------------------------------------------------

  /** A session is created exactly for an enabled agent with an active version and no session pointed to; that
      no other session is live, and that the pointer and the guard let it pass, then needs no test. */
  lemma CreationDecides(s: State, n: NewSession, expected: nat)
    requires Inv(s)
    ensures var o, a := Effect(s, Creates(n, expected)), s.db.agent;
      && (o.Some? <==>
        a.rowVersion == expected && a.enabled && a.active.Some? && a.pointer == None && n.id !in s.db.sessions)
      && (o.Some? ==>
        && o.value.db.sessions == s.db.sessions[n.id := o.value.item] && o.value.db.versions == s.db.versions
        && o.value.db.agent == a.(pointer := Some(n.id), rowVersion := a.rowVersion + 1)
        && var r := o.value.item;
           && r.id == n.id && r.admin == n.admin && Some(r.base) == a.active && r.head == n.head && r.config == n.config
           && !r.partial && r.status == Active && r.rowVersion == 0 && r.expires == n.expires && r.validation == None
           && r.op == Operation(n.id, Initialize, n.digest, Running, None) && r.result == None)
  {}

  /** A repeated request finds its own operation and changes nothing. Any other claims a session that is live,
      idle, unexpired, at the version asked for and based on the version in use; only a publication keeps the
      evidence it relies on. That the agent points to the session needs no test. */
  lemma AdmissionDecides(s: State, id: nat, admin: nat, kind: Kind, q: Request, now: int)
    requires Inv(s) && !kind.Initialize? && id in s.db.sessions && s.db.sessions[id].admin == admin
    ensures var o, a, row := Effect(s, Admits(id, admin, kind, q, now)), s.db.agent, s.db.sessions[id];
      && (row.op.id == q.id ==>
        if row.op.kind == kind && row.op.digest == q.digest then o == Some(Outcome(s.db, row)) else o == None)
      && (row.op.id != q.id ==>
        && (o.Some? <==>
          && (row.status.Active? || row.status.Validating? || row.status.Ready?) && row.op.state != Running
          && row.rowVersion == q.expected && now < row.expires && a.enabled && a.active == Some(row.base)
          && (kind.Publish? ==> row.status.Ready? && !row.partial) && (kind.Validate? ==> !row.partial))
        && (o.Some? ==>
          && OneRow(s.db, o.value, row) && o.value.db.versions == s.db.versions && o.value.db.agent == a
          && var r := o.value.item;
             && r.op == Operation(q.id, kind, q.digest, Running, None)
             && r.head == row.head && r.config == row.config && r.partial == row.partial && r.result == row.result
             && r.status == (match kind case Publish => Ready case Validate => Validating case _ => Active)
             && r.validation == if kind.Publish? then row.validation else None))
  {
    assert AgreesAt(s.db, id);
    var row := s.db.sessions[id];
    if row.op.id != q.id && Admissible(s.db, row, kind, q, now) { EndIsSaved(s, row, Claimed(row, kind, q)); }
  }

  lemma UnknownIsRefused(s: State, id: nat, admin: nat, kind: Kind, q: Request, now: int)
    requires id !in s.db.sessions || s.db.sessions[id].admin != admin
    ensures Effect(s, Admits(id, admin, kind, q, now)) == None && Effect(s, Reconciles(id, admin, now)) == None
  {}

  // ----- the end of an operation --------------------------------------------------------------

  /** An operation that ends is Completed or Failed as its caller says; one that ends too late is Interrupted,
      and its session Expired, without evidence and without the pointer. */
  predicate EndsAs(item: Session, r: Session, ok: bool, now: int) {
    && SameOperation(item.op, r.op) && r.result == item.result
    && (now >= item.expires ==> r.op.state == Interrupted && r.status == Expired && r.validation == None)
    && (now < item.expires ==> r.op.state == if ok then Completed else Failed)
  }

  lemma EndMayBecome(item: Session, change: Change, ok: bool, now: int)
    requires Evidenced(item) && Claims(item) && IsRunning(item) && item.op.kind == KindOf(change)
    ensures var r := Finished(Changed(item, change), ok, now);
      MayBecome(item, r) && EndsAs(item, r, ok, now) && (Terminal(r) <==> r.status.Cancelled? || r.status.Expired?)
  {}

  /** Finishing commits exactly if the copy held still is the row, and then ends the operation and nothing else
      but what its change says. */
  lemma FinishDecides(s: State, item: Session, change: Change, ok: bool, now: int)
    requires Inv(s) && Own(s, item, KindOf(change))
    ensures var o := Effect(s, Finishes(item, change, ok, now));
      && (o.Some? <==> item == s.db.sessions[item.id])
      && (o.Some? ==>
        && OneRow(s.db, o.value, item) && o.value.db.versions == s.db.versions && EndsAs(item, o.value.item, ok, now)
        && PointsOnly(s.db.agent, o.value.db.agent, o.value.item.status.Cancelled? || o.value.item.status.Expired?))
  {
    assert CopyOf(item, s.db);
    if item == s.db.sessions[item.id] {
      EndMayBecome(item, change, ok, now);
      EndIsSaved(s, item, Finished(Changed(item, change), ok, now));
    } else {
      ChangedKeepsIdentity(item, change);
    }
  }

  /** A validation that commits in time makes the session ready exactly if it passed, and leaves evidence, for
      the candidate it looked at, exactly if it passed. */
  lemma ValidationDecides(s: State, item: Session, passed: bool, ok: bool, now: int)
    requires Inv(s) && Own(s, item, Validate) && Effect(s, Finishes(item, Validated(passed), ok, now)).Some?
    ensures var r := Effect(s, Finishes(item, Validated(passed), ok, now)).value.item;
      && r.head == item.head && r.config == item.config && r.partial == item.partial && r.op.prepared == item.op.prepared
      && (now < item.expires ==>
        && (r.status.Ready? <==> passed) && (r.status.Active? <==> !passed)
        && (r.validation.Some? <==> passed)
        && (passed ==> r.validation.value.head == item.head && r.validation.value.config == item.config))
  {}

  lemma ChangesLeave(item: Session, change: Change, ok: bool, now: int, r: Session)
    requires Evidenced(item) && Claims(item) && IsRunning(item) && item.op.kind == KindOf(change) && !change.Validated?
    requires r == Bumped(Finished(Changed(item, change), ok, now))
    ensures Leaves(item, change, now, r)
  {}

  /** What a change other than a verdict leaves in the row: a failed creation and a withdrawal cancel the session,
      a restored head and a patched configuration are taken over, a publication that failed for another reason
      than a busy agent costs the session its evidence, and nothing else is touched. */
  predicate Leaves(item: Session, change: Change, now: int, r: Session) {
    && r.head == (if change.Restored? then change.head else item.head)
    && r.partial == (if change.Restored? then change.partial else item.partial)
    && r.config == (if change.Configured? then change.config else item.config)
    && r.op.prepared == (if change.NotPublished? then None else item.op.prepared)
    && (now < item.expires ==>
      match change
      case Initialized(fine) => r.validation == None && r.status == if fine then Active else Cancelled
      case Withdrawn => r.validation == None && r.status == Cancelled
      case NotPublished(busy) =>
        if busy then r.status == Ready && r.validation == item.validation else r.status == Active && r.validation == None
      case _ => r.validation == None && r.status == Active)
  }

  lemma ChangesDecide(s: State, item: Session, change: Change, ok: bool, now: int)
    requires Inv(s) && Own(s, item, KindOf(change)) && !change.Validated?
    requires Effect(s, Finishes(item, change, ok, now)).Some?
    ensures Leaves(item, change, now, Effect(s, Finishes(item, change, ok, now)).value.item)
  {
    FinishRewrites(s.db, Changed(item, change), ok, now);
    FinishDecides(s, item, change, ok, now);
    ChangesLeave(item, change, ok, now, Effect(s, Finishes(item, change, ok, now)).value.item);
  }

  /** What the end of a run makes of its session. */
  lemma RunResult(item: Session, head: Option<nat>, partial: bool, ok: bool, now: int) returns (t: Session)
    requires Evidenced(item) && Claims(item) && IsRunning(item) && item.op.kind.Run?
    ensures t == (var written := if head.Some? then item.(head := head.value, partial := partial)
                                 else item.(partial := true);
                  var ended := written.(op := item.op.(state := if ok then Completed else Failed));
                  if now >= item.expires then ended.(op := ended.op.(state := Interrupted), status := Expired) else ended)
    ensures MayBecome(item, t) && EndsAs(item, t, ok, now) && (Terminal(t) <==> now >= item.expires)
  {
    var written := if head.Some? then item.(head := head.value, partial := partial) else item.(partial := true);
    var ended := written.(op := item.op.(state := if ok then Completed else Failed));
    t := if now >= item.expires then ended.(op := ended.op.(state := Interrupted), status := Expired) else ended;
  }

  /** A run that ends leaves the snapshot it wrote, or a partial session if it wrote none. */
  lemma RunDecides(s: State, item: Session, head: Option<nat>, partial: bool, ok: bool, now: int)
    requires Inv(s) && Own(s, item, Run)
    ensures var o := Effect(s, FinishesRun(item, head, partial, ok, now));
      && (o.Some? <==> item == s.db.sessions[item.id])
      && (o.Some? ==>
        && OneRow(s.db, o.value, item) && o.value.db.versions == s.db.versions && EndsAs(item, o.value.item, ok, now)
        && PointsOnly(s.db.agent, o.value.db.agent, now >= item.expires)
        && var r := o.value.item;
           && r.config == item.config && r.op.prepared == item.op.prepared && r.validation == None
           && r.head == (if head.Some? then head.value else item.head)
           && r.partial == (head.Some? ==> partial)
           && (now < item.expires ==> r.status == Active))
  {
    assert CopyOf(item, s.db);
    if item == s.db.sessions[item.id] {
      var t := RunResult(item, head, partial, ok, now);
      EndIsSaved(s, item, t);
    }
  }

  // ----- closing, publishing, recovering ------------------------------------------------------

  /** A session that is idle is closed exactly if it has expired or its base is no longer the version in use. */
  lemma ReconciliationDecides(s: State, id: nat, admin: nat, now: int)
    requires Inv(s) && id in s.db.sessions && s.db.sessions[id].admin == admin
    ensures var o, a, row := Effect(s, Reconciles(id, admin, now)), s.db.agent, s.db.sessions[id];
      var live := row.status.Active? || row.status.Validating? || row.status.Ready?;
      var outdated := now >= row.expires || !a.enabled || a.active != Some(row.base);
      && (o.None? <==> live && row.op.state == Running)
      && (o.Some? && !(live && outdated) ==> o.value == Outcome(s.db, row))
      && (o.Some? && live && outdated ==>
        && OneRow(s.db, o.value, row) && o.value.db.versions == s.db.versions && PointsOnly(a, o.value.db.agent, true)
        && var r := o.value.item;
           && r.head == row.head && r.config == row.config && r.partial == row.partial && r.op == row.op
           && r.result == row.result && r.validation == None
           && r.status == if now >= row.expires then Expired else Stale)
  {}

  /** Before a version is built the session notes which one; nothing else changes. */
  lemma PreparationDecides(s: State, item: Session, version: nat)
    requires Inv(s) && Own(s, item, Publish)
    ensures var o := Effect(s, Prepares(item, version));
      && (o.Some? <==> item == s.db.sessions[item.id])
      && (o.Some? ==>
        && o.value.db == s.db.(sessions := s.db.sessions[item.id := o.value.item])
        && o.value.item == item.(rowVersion := item.rowVersion + 1, op := item.op.(prepared := Some(version))))
  {
    assert CopyOf(item, s.db);
  }

  /** A publication commits exactly if the copy held still is the row, the version it prepared is new, nothing
      has run out, and the agent is enabled and still on the base the candidate was made from. Then version,
      agent and session change together. */
  lemma PublicationDecides(s: State, item: Session, validUntil: int, now: int)
    requires Inv(s) && Own(s, item, Publish)
    ensures var o, a := Effect(s, Publishes(item, validUntil, now)), s.db.agent;
      && (o.Some? <==>
        && item == s.db.sessions[item.id] && item.op.prepared.Some? && item.op.prepared.value !in s.db.versions
        && now < item.expires && now < validUntil && a.enabled && a.active == Some(item.base))
      && (o.Some? ==>
        && OneRow(s.db, o.value, item)
        && o.value.db.versions == s.db.versions[item.op.prepared.value := Some(item.id)]
        && o.value.db.agent == a.(active := item.op.prepared, pointer := None, rowVersion := a.rowVersion + 1)
        && var r := o.value.item;
           && r.status == Published && r.result == item.op.prepared && r.op == item.op.(state := Completed)
           && r.head == item.head && r.config == item.config && !r.partial
           && r.validation == Some(Evidence(item.head, item.config)))
  {
    assert CopyOf(item, s.db);
  }

  /** After a crash a running operation is interrupted exactly if the copy held still is the row; the session
      goes on without evidence. */
  lemma InterruptionDecides(s: State, item: Session)
    requires Inv(s) && item in s.copies
    ensures var o := Effect(s, Interrupts(item));
      && (o.Some? <==> item == s.db.sessions[item.id] && item.op.state == Running)
      && (o.Some? ==>
        && o.value.db == s.db.(sessions := s.db.sessions[item.id := o.value.item])
        && o.value.item == item.(rowVersion := item.rowVersion + 1, status := Active, validation := None,
                                 op := item.op.(state := Interrupted, prepared := None)))
  {
    assert CopyOf(item, s.db);
  }

  // ----- over every run -----------------------------------------------------------------------

  /** In this history a validation of session `id` that passed was committed in time, and it looked at this
      candidate. */
  predicate Passed(s: State, h: History, id: nat, head: nat, config: nat) {
    h.And? && (Passed(s, h.before, id, head, config) || PassesNow(After(s, h.before), h.event, id, head, config))
  }

  predicate PassesNow(s: State, e: Event, id: nat, head: nat, config: nat) {
    && e.Finishes? && e.change == Validated(true) && Effect(s, e).Some? && e.now < e.item.expires
    && e.item.id == id && e.item.head == head && e.item.config == config
  }

  predicate MayPublish(r: Session) { r.status.Ready? || r.status.Published? }

  /** The row had this candidate, ready, before the event, or the event is a validation that it passed. */
  predicate Earns(s: State, e: Event, r: Session) {
    || PassesNow(s, e, r.id, r.head, r.config)
    || (r.id in s.db.sessions && var row := s.db.sessions[r.id];
        MayPublish(row) && row.head == r.head && row.config == r.config)
  }

  lemma FinishEarns(s: State, e: Event)
    requires Inv(s) && e.Finishes? && Effect(s, e).Some? && MayPublish(Effect(s, e).value.item)
    ensures Earns(s, e, Effect(s, e).value.item)
  {
    var r := Effect(s, e).value.item;
    FinishDecides(s, e.item, e.change, e.ok, e.now);
    if e.change.Validated? {
      ValidationDecides(s, e.item, e.change.passed, e.ok, e.now);
    } else {
      ChangesDecide(s, e.item, e.change, e.ok, e.now);
      assert Leaves(e.item, e.change, e.now, r);
    }
  }

  lemma ReplacementEarns(s: State, e: Event)
    requires Inv(s) && Effect(s, e).Some? && !e.Finishes? && MayPublish(Effect(s, e).value.item)
    ensures Earns(s, e, Effect(s, e).value.item)
  {
    match e
    case Creates(n, expected) => CreationDecides(s, n, expected);
    case Reads(_) =>
    case Admits(i, admin, kind, q, now) => AdmissionDecides(s, i, admin, kind, q, now);
    case FinishesRun(item, head, partial, ok, now) => RunDecides(s, item, head, partial, ok, now);
    case Reconciles(i, admin, now) => ReconciliationDecides(s, i, admin, now);
    case Prepares(item, version) => PreparationDecides(s, item, version);
    case Publishes(item, validUntil, now) => PublicationDecides(s, item, validUntil, now);
    case Interrupts(item) => InterruptionDecides(s, item);
    case Recovers(item) => RecoveryFindsNothing(s, item);
  }

  /** What an event left, if it committed. */
  lemma Left(s: State, e: Event) returns (o: Option<Outcome>)
    requires Inv(s)
    ensures o.None? ==> Step(s, e).db.sessions == s.db.sessions
    ensures o.Some? ==> Step(s, e).db == o.value.db && Touches(s.db, o.value)
    ensures o.Some? && MayPublish(o.value.item) ==> Earns(s, e, o.value.item)
  {
    o := Effect(s, e);
    if o.Some? {
      StepKeeps(s, e);
      if MayPublish(o.value.item) {
        if e.Finishes? { FinishEarns(s, e); } else { ReplacementEarns(s, e); }
      }
    }
  }

  /** Whatever may be published after a step could be before it with the same candidate, or passed a validation
      just now. */
  lemma ReadyOnlyBy(s: State, e: Event, t: State, id: nat)
    requires Inv(s) && t == Step(s, e) && id in t.db.sessions && MayPublish(t.db.sessions[id])
    ensures Earns(s, e, t.db.sessions[id])
  {
    var o := Left(s, e);
    StepKeeps(s, e);
    assert AgreesAt(t.db, id);
    assert id in s.db.sessions ==> AgreesAt(s.db, id);
  }

  /** Over every run: a session that is ready or published has passed a validation of its candidate as it is. */
  lemma {:induction false} EvidenceWasEarned(db: DB, h: History, id: nat)
    requires Untrained(db) && id in After(State(db, {}), h).db.sessions
    requires MayPublish(After(State(db, {}), h).db.sessions[id])
    ensures var r := After(State(db, {}), h).db.sessions[id]; Passed(State(db, {}), h, id, r.head, r.config)
  {
    var s0 := State(db, {});
    assert h.And?;
    var s := After(s0, h.before);
    EveryRunKeeps(s0, h.before);
    ReadyOnlyBy(s, h.event, Step(s, h.event), id);
    EveryRunKeeps(s0, h);
    assert AgreesAt(Step(s, h.event).db, id);
    var r := Step(s, h.event).db.sessions[id];
    if !PassesNow(s, h.event, id, r.head, r.config) { EvidenceWasEarned(db, h.before, id); }
  }
}
