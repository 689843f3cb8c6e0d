/** The repository's transactions and the service's use of them, row by row
    (infrastructure/persistence/agenttraining, application/service/agenttraining). */
module TrainingStore {
  import opened Common
  import T = Training

  /** Rows read and written inside one transaction. */
  class Transaction {
    var agent: T.Agent
    var sessions: map<nat, T.Session>
    var versions: map<nat, Option<nat>>
    var changed: map<nat, T.Session>

    ghost function View(): T.Tx
      reads this
    {
      T.Tx(T.DB(agent, sessions, versions), changed)
    }

    constructor (db: T.DB)
      ensures View() == T.Begin(db)
    {
      agent, sessions, versions, changed := db.agent, db.sessions, db.versions, map[];
    }

    /** A primitive either does what it says or changes nothing. */
    twostate predicate Did(new spec: Option<T.Tx>, ok: bool)
      reads this
    {
      if spec.Some? then ok && View() == spec.value else !ok && View() == old(View())
    }

    method SessionForUpdate(id: nat, admin: nat) returns (s: Option<T.Session>)
      ensures s == T.Load(View().db, id, admin)
    {
      if id !in sessions || sessions[id].admin != admin { return None; }
      s := Some(sessions[id]);
    }

    method CountLive() returns (count: nat)
      ensures count > 0 <==> T.AnyLive(View().db)
    {
      count := 0;
      var rest := sessions.Keys;
      while rest != {}
        invariant rest <= sessions.Keys
        invariant count > 0 <==> exists id :: id in sessions && id !in rest && T.Live(sessions[id])
        decreases |rest|
      {
        var id :| id in rest;
        if T.Live(sessions[id]) { count := count + 1; }
        rest := rest - {id};
      }
    }

    method CreateSession(s: T.Session) returns (ok: bool)
      modifies this
      ensures Did(T.CreateSession(old(View()), s), ok)
    {
      if !s.status.Active? || s.rowVersion != 0 { return false; }
      if !agent.enabled || agent.pointer.Some? || agent.active != Some(s.base) { return false; }
      var count := CountLive();
      if count != 0 || s.id in sessions { return false; }
      sessions := sessions[s.id := s];
      changed := changed[s.id := s];
      ok := true;
    }

    method SaveSession(s: T.Session, expected: nat) returns (ok: bool)
      modifies this
      ensures Did(T.SaveSession(old(View()), s, expected), ok)
    {
      var row := SessionForUpdate(s.id, s.admin);
      if row.None? { return false; }
      var current := row.value;
      if current.rowVersion != expected || current.expires != s.expires || current.base != s.base || T.Terminal(current) {
        return false;
      }
      var check := current;
      check := check.(op := s.op);
      check := check.(validation := s.validation);
      check := check.(partial := s.partial);
      if s.status != current.status && T.Transition(check, s.status).None? { return false; }
      sessions := sessions[s.id := s.(rowVersion := expected + 1)];
      changed := changed[s.id := s];
      ok := true;
    }

    method SetTrainingPointer(expected: Option<nat>, next: Option<nat>, version: nat) returns (ok: bool)
      modifies this
      ensures Did(T.SetTrainingPointer(old(View()), expected, next, version), ok)
    {
      if next.Some? {
        if next.value !in sessions || !T.Live(sessions[next.value]) { return false; }
      }
      if agent.rowVersion != version || agent.pointer != expected { return false; }
      agent := agent.(pointer := next, rowVersion := agent.rowVersion + 1);
      ok := true;
    }

    method CommitPublication(version: nat, source: nat, expected: nat) returns (ok: bool)
      modifies this
      ensures Did(T.CommitPublication(old(View()), version, source, expected), ok)
    {
      if source !in sessions || !sessions[source].status.Ready? || version in versions { return false; }
      if agent.rowVersion != expected || !agent.enabled || agent.pointer != Some(source) { return false; }
      versions := versions[version := Some(source)];
      agent := agent.(active := Some(version), pointer := None, rowVersion := agent.rowVersion + 1);
      ok := true;
    }
  }

  class Repository {
    var db: T.DB

    constructor (db: T.DB)
      ensures this.db == db
    {
      this.db := db;
    }

    /** The guard over every saved session, then all rows at once; otherwise none. */
    method Commit(tx: Transaction) returns (ok: bool)
      modifies this
      ensures if T.Commit(tx.View()).Some? then ok && db == T.Commit(tx.View()).value else !ok && db == old(db)
    {
      var rest := tx.changed.Keys;
      while rest != {}
        invariant rest <= tx.changed.Keys && db == old(db)
        invariant forall id :: id in tx.changed && id !in rest ==>
          (T.Terminal(tx.changed[id]) <==> tx.agent.pointer != Some(id))
        decreases |rest|
      {
        var id :| id in rest;
        var matches := tx.agent.pointer == Some(id);
        if T.Terminal(tx.changed[id]) == matches { return false; }
        rest := rest - {id};
      }
      db := T.DB(tx.agent, tx.sessions, tx.versions);
      ok := true;
    }
  }

  class Service {
    const repository: Repository

    constructor (repository: Repository)
      ensures this.repository == repository
    {
      this.repository := repository;
    }

    /** The transaction committed as specified, or failed and left every row as it was. */
    twostate predicate Done(new spec: Option<T.Outcome>, new item: Option<T.Session>)
      reads repository
    {
      if spec.Some? then repository.db == spec.value.db && item == Some(spec.value.item)
      else repository.db == old(repository.db) && item == None
    }

    method Create(n: T.NewSession, expected: nat) returns (created: Option<T.Session>)
      modifies repository
      ensures Done(T.Create(old(repository.db), n, expected), created)
    {
      var tx := new Transaction(repository.db);
      var a := tx.agent;
      if a.rowVersion != expected || !a.enabled || a.active.None? || a.pointer.Some? { return None; }
      var item := T.Session(n.id, n.admin, a.active.value, n.head, n.config, false, T.Active, 0, n.expires, None,
                            T.Operation(n.id, T.Initialize, n.digest, T.Running, None), None);
      var ok := tx.CreateSession(item);
      if !ok { return None; }
      ok := tx.SetTrainingPointer(None, Some(n.id), a.rowVersion);
      if !ok { return None; }
      ok := repository.Commit(tx);
      if !ok { return None; }
      created := Some(item);
    }

    /** Claims the session for an operation; a replayed request gets the session as it is. */
    method Admit(id: nat, admin: nat, kind: T.Kind, q: T.Request, now: int) returns (admitted: Option<T.Session>)
      modifies repository
      ensures Done(T.Admit(old(repository.db), id, admin, kind, q, now), admitted)
    {
      var tx := new Transaction(repository.db);
      var current := tx.SessionForUpdate(id, admin);
      if current.None? { return None; }
      var item := current.value;
      if item.op.id == q.id {
        if item.op.kind != kind || item.op.digest != q.digest { return None; }
        return Some(item);
      }
      if T.Terminal(item) || T.IsRunning(item) || item.rowVersion != q.expected { return None; }
      if T.IsExpired(item, now) { return None; }
      var a := tx.agent;
      if !a.enabled || a.active != Some(item.base) || a.pointer != Some(item.id) { return None; }
      if kind.Publish? {
        if !item.status.Ready? || item.partial { return None; }
      } else {
        if kind.Validate? && item.partial { return None; }
        item := item.(validation := None);
        item := item.(status := if kind.Validate? then T.Validating else T.Active);
      }
      item := item.(op := T.Operation(q.id, kind, q.digest, T.Running, None));
      assert item == T.Claimed(current.value, kind, q);
      var ok := tx.SaveSession(item, item.rowVersion);
      if !ok { return None; }
      ok := repository.Commit(tx);
      if !ok { return None; }
      admitted := Some(item.(rowVersion := item.rowVersion + 1));
    }

    /** Whether the row still is what the caller holds, with its operation running. */
    method CheckHeld(tx: Transaction, item: T.Session) returns (held: bool)
      ensures held == T.StillHeld(tx.View().db, item)
    {
      var current := tx.SessionForUpdate(item.id, item.admin);
      held := current.Some? && current.value.rowVersion == item.rowVersion
        && current.value.op.id == item.op.id && T.IsRunning(current.value);
    }

    method Finish(held: T.Session, succeeded: bool, now: int) returns (finished: Option<T.Session>)
      modifies repository
      ensures Done(T.Finish(old(repository.db), held, succeeded, now), finished)
    {
      var tx := new Transaction(repository.db);
      var current := CheckHeld(tx, held);
      if !current { return None; }
      var item := held.(op := held.op.(state := if succeeded then T.Completed else T.Failed));
      if T.IsExpired(held, now) {
        item := item.(op := item.op.(state := T.Interrupted), status := T.Expired, validation := None);
      }
      assert item == T.Finished(held, succeeded, now);
      var ok;
      if T.Terminal(item) {
        ok := tx.SetTrainingPointer(Some(item.id), None, tx.agent.rowVersion);
        if !ok { return None; }
      }
      ok := tx.SaveSession(item, item.rowVersion);
      if !ok { return None; }
      ok := repository.Commit(tx);
      if !ok { return None; }
      finished := Some(item.(rowVersion := item.rowVersion + 1));
    }

    method FinishRun(held: T.Session, head: Option<nat>, partial: bool, succeeded: bool, now: int)
      returns (finished: Option<T.Session>)
      modifies repository
      ensures Done(T.FinishRun(old(repository.db), held, head, partial, succeeded, now), finished)
    {
      var item := held;
      if head.Some? {
        item := item.(head := head.value);
        item := item.(partial := partial);
      } else {
        item := item.(partial := true);
      }
      var tx := new Transaction(repository.db);
      var current := CheckHeld(tx, held);
      if !current { return None; }
      item := item.(op := item.op.(state := if succeeded then T.Completed else T.Failed));
      var ok;
      if T.IsExpired(held, now) {
        item := item.(op := item.op.(state := T.Interrupted), status := T.Expired);
        ok := tx.SetTrainingPointer(Some(item.id), None, tx.agent.rowVersion);
        if !ok { return None; }
      }
      ok := tx.SaveSession(item, item.rowVersion);
      if !ok { return None; }
      ok := repository.Commit(tx);
      if !ok { return None; }
      finished := Some(item.(rowVersion := item.rowVersion + 1));
    }

    method Reconcile(id: nat, admin: nat, now: int) returns (closed: Option<T.Session>)
      modifies repository
      ensures Done(T.Reconcile(old(repository.db), id, admin, now), closed)
    {
      var tx := new Transaction(repository.db);
      var current := tx.SessionForUpdate(id, admin);
      if current.None? { return None; }
      var item := current.value;
      if T.Terminal(item) { return Some(item); }
      if T.IsRunning(item) { return None; }
      var a := tx.agent;
      var target := T.Stale;
      if T.IsExpired(item, now) {
        target := T.Expired;
      } else if a.enabled && a.active == Some(item.base) {
        return Some(item);
      }
      var next := T.Transition(item, target);
      if next.None? { return None; }
      item := next.value;
      var ok := tx.SaveSession(item, item.rowVersion);
      if !ok { return None; }
      ok := tx.SetTrainingPointer(Some(id), None, a.rowVersion);
      if !ok { return None; }
      ok := repository.Commit(tx);
      if !ok { return None; }
      closed := Some(item.(rowVersion := item.rowVersion + 1));
    }

    /** The new version and the session's end, in one transaction. */
    method CommitPublish(held: T.Session, validUntil: int, now: int) returns (published: Option<T.Session>)
      modifies repository
      ensures Done(T.CommitPublish(old(repository.db), held, validUntil, now), published)
    {
      if held.op.prepared.None? { return None; }
      var tx := new Transaction(repository.db);
      var current := CheckHeld(tx, held);
      if !current || !tx.sessions[held.id].status.Ready? { return None; }
      if T.IsExpired(held, now) || now >= validUntil || tx.agent.active != Some(held.base) { return None; }
      var version := held.op.prepared.value;
      var ok := tx.CommitPublication(version, held.id, tx.agent.rowVersion);
      if !ok { return None; }
      var item := held.(validation := Some(T.Evidence(held.head, held.config)));
      item := item.(op := item.op.(state := T.Completed));
      var ended := T.PublishSession(item, version);
      if ended.None? { return None; }
      item := ended.value;
      ok := tx.SaveSession(item, item.rowVersion);
      if !ok { return None; }
      ok := repository.Commit(tx);
      if !ok { return None; }
      published := Some(item.(rowVersion := item.rowVersion + 1));
    }

    method Interrupt(held: T.Session) returns (stopped: Option<T.Session>)
      modifies repository
      ensures Done(T.Interrupt(old(repository.db), held), stopped)
    {
      if T.Terminal(held) || !T.IsRunning(held) { return None; }
      var tx := new Transaction(repository.db);
      var current := tx.SessionForUpdate(held.id, held.admin);
      if current.None? || current.value.rowVersion != held.rowVersion { return None; }
      var item := held.(op := held.op.(state := T.Interrupted, prepared := None));
      item := item.(status := T.Active, validation := None);
      var ok := tx.SaveSession(item, item.rowVersion);
      if !ok { return None; }
      ok := repository.Commit(tx);
      if !ok { return None; }
      stopped := Some(item.(rowVersion := item.rowVersion + 1));
    }
  }
}
