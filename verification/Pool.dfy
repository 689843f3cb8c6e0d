/** The runtime pool of application/service/agentruntime/manager.go as a state machine: one
    event for every section the manager runs under its mutex, plus the tokens that say which
    goroutines still owe the manager a step. */
module Pool {
  import opened Common

  datatype Kind = Chat | Training | Preview | Validation

  datatype Key = Key(
    kind: Kind, tenant: string, agent: string, conversation: string,
    version: string, operation: string, digest: string)

  datatype Options = Options(
    maxInstances: int, maxPerTenant: int, reserved: int, reservedPerTenant: int, idleTTL: int)
  {
    predicate Valid() {
      && maxInstances >= 2 && maxPerTenant >= 2 && maxPerTenant <= maxInstances
      && 1 <= reserved < maxInstances
      && 1 <= reservedPerTenant < maxPerTenant
      && reservedPerTenant <= reserved
      && idleTTL > 0
    }
  }

  /** A map entry. `id` stands for the identity of the Go pointer. */
  datatype Entry = Entry(
    id: nat, hasRuntime: bool, leased: bool, creating: bool, closing: bool,
    quarantined: bool, stopErr: bool, idleSince: int, timer: bool)
  {
    predicate Reusable() { !leased && !creating && !closing && !quarantined }
    predicate Busy() { leased || creating || closing || quarantined }
  }

  datatype Waiter = Waiter(id: nat, key: Key, reservation: bool)

  /** What the goroutines outside the mutex still hold or owe for one issued entry.
      home:     the key the entry was created for
      held:     it has a lease whose sync.Once has not fired
      creating: its factory call is in flight
      closing:  its Stop call is in flight
      ran:      it has had a runtime
      stops:    how often Stop was called on that runtime
      retired:  it has left the map */
  datatype Ticket = Ticket(
    home: Key, held: bool, creating: bool, closing: bool, ran: bool, stops: nat, retired: bool)

  /** `tickets` is indexed by entry identity, in the order of issue; `asking` names the waiters
      still inside the acquire loop. */
  datatype State = State(
    options: Options, entries: map<Key, Entry>, queue: seq<Waiter>, closed: bool,
    tickets: seq<Ticket>, asking: set<nat>)

  function Init(o: Options): State { State(o, map[], [], false, [], {}) }

  // ----- quotas ---------------------------------------------------------------------------

  function OfTenant(ks: set<Key>, tenant: string): set<Key> { set k | k in ks && k.tenant == tenant }
  function Ordinary(ks: set<Key>): set<Key> { set k | k in ks && k.kind != Validation }
  function Reserving(ks: set<Key>): set<Key> { set k | k in ks && k.kind == Validation }

  predicate OrdinaryRoom(o: Options, ks: set<Key>, tenant: string) {
    && |Ordinary(ks)| < o.maxInstances - o.reserved
    && |Ordinary(OfTenant(ks, tenant))| < o.maxPerTenant - o.reservedPerTenant
  }

  predicate Fits(o: Options, ks: set<Key>, k: Key) {
    && |ks| < o.maxInstances
    && |OfTenant(ks, k.tenant)| < o.maxPerTenant
    && (k.kind == Validation || OrdinaryRoom(o, ks, k.tenant))
  }

  ghost predicate WithinQuota(o: Options, ks: set<Key>) {
    && |ks| <= o.maxInstances
    && |Ordinary(ks)| <= o.maxInstances - o.reserved
    && (forall t :: |OfTenant(ks, t)| <= o.maxPerTenant)
    && (forall t :: |Ordinary(OfTenant(ks, t))| <= o.maxPerTenant - o.reservedPerTenant)
  }

  // ----- choosing -------------------------------------------------------------------------

  predicate SameConversation(a: Key, b: Key) {
    a.tenant == b.tenant && a.conversation == b.conversation && a.kind == b.kind
  }

  predicate Occupied(es: map<Key, Entry>, k: Key) {
    exists j :: j in es && SameConversation(j, k) && es[j].Busy()
  }

  predicate OwnOnly(o: Options, ks: set<Key>, k: Key) {
    || |OfTenant(ks, k.tenant)| >= o.maxPerTenant
    || (k.kind != Validation && |Ordinary(OfTenant(ks, k.tenant))| >= o.maxPerTenant - o.reservedPerTenant)
  }

  predicate Candidate(o: Options, es: map<Key, Entry>, k: Key, v: Key) {
    v in es && es[v].Reusable() && (OwnOnly(o, es.Keys, k) ==> v.tenant == k.tenant)
  }

  /** The entry `evictable` may return: a candidate idle for longest. */
  predicate Victim(o: Options, es: map<Key, Entry>, k: Key, v: Key) {
    && Candidate(o, es, k, v)
    && forall u :: u in es && Candidate(o, es, k, u) ==> es[v].idleSince <= es[u].idleSince
  }

  predicate SomeCandidate(o: Options, es: map<Key, Entry>, k: Key) {
    exists v :: v in es && Candidate(o, es, k, v)
  }

  predicate Admissible(o: Options, es: map<Key, Entry>, k: Key) {
    && !Occupied(es, k)
    && ((k in es && es[k].Reusable()) || Fits(o, es.Keys, k) || SomeCandidate(o, es, k))
  }

  /** The waiter whose turn it is: the earliest admissible one. */
  function Turn(o: Options, es: map<Key, Entry>, queue: seq<Waiter>): Option<Waiter> {
    if queue == [] then None
    else if Admissible(o, es, queue[0].key) then Some(queue[0])
    else Turn(o, es, queue[1..])
  }

  // ----- events ---------------------------------------------------------------------------

  datatype Event =
    | Enqueue(w: Waiter)
    | Leave(w: Waiter)
    | Reuse(w: Waiter, now: int)
    | RetireStale(w: Waiter, now: int)
    | Reserve(w: Waiter)
    | BeginCreate(w: Waiter)
    | BeginEvict(w: Waiter, victim: Key)
    | CreateOk(id: nat)
    | CreateFailed(id: nat, hasRuntime: bool)
    | Release(id: nat, now: int)
    | StopLease(id: nat)
    | Expire(id: nat, since: int)
    | StopDone(id: nat, ok: bool)
    | Shutdown
    | ShutdownPick(victim: Key)

  predicate Live(s: State, id: nat) {
    id < |s.tickets| && s.tickets[id].home in s.entries && s.entries[s.tickets[id].home].id == id
  }

  predicate MyTurn(s: State, w: Waiter) {
    !s.closed && w.id in s.asking && Turn(s.options, s.entries, s.queue) == Some(w)
  }

  predicate HasIdle(s: State, k: Key) { k in s.entries && s.entries[k].Reusable() }

  predicate Enabled(s: State, e: Event) {
    match e
    case Enqueue(w) => w.id !in s.asking && forall v :: v in s.queue ==> v.id != w.id
    case Leave(w) => w in s.queue
    case Reuse(w, now) => MyTurn(s, w) && HasIdle(s, w.key) && now - s.entries[w.key].idleSince < s.options.idleTTL
    case RetireStale(w, now) => MyTurn(s, w) && HasIdle(s, w.key) && now - s.entries[w.key].idleSince >= s.options.idleTTL
    case Reserve(w) => MyTurn(s, w) && !HasIdle(s, w.key) && Fits(s.options, s.entries.Keys, w.key) && w.reservation
    case BeginCreate(w) => MyTurn(s, w) && !HasIdle(s, w.key) && Fits(s.options, s.entries.Keys, w.key) && !w.reservation
    case BeginEvict(w, v) =>
      && MyTurn(s, w) && !HasIdle(s, w.key) && !Fits(s.options, s.entries.Keys, w.key)
      && Victim(s.options, s.entries, w.key, v)
    case CreateOk(id) => Live(s, id) && s.tickets[id].creating && !s.closed
    case CreateFailed(id, _) => Live(s, id) && s.tickets[id].creating
    case Release(id, _) => Live(s, id) && s.tickets[id].held && s.entries[s.tickets[id].home].hasRuntime
    case StopLease(id) => Live(s, id) && s.tickets[id].held
    case Expire(id, since) =>
      && Live(s, id) && !s.closed
      && s.entries[s.tickets[id].home].Reusable() && s.entries[s.tickets[id].home].idleSince == since
    case StopDone(id, ok) =>
      Live(s, id) && s.tickets[id].closing && (!s.entries[s.tickets[id].home].hasRuntime ==> ok)
    case Shutdown => true
    case ShutdownPick(v) => s.closed && HasIdle(s, v)
  }

  function Remove<T(==)>(q: seq<T>, x: T): seq<T> {
    if q == [] then [] else if q[0] == x then q[1..] else [q[0]] + Remove(q[1..], x)
  }

  /** Entry and ticket of `k` change together. */
  function Change(s: State, k: Key, e: Entry, t: Ticket): State
    requires e.id < |s.tickets|
  {
    s.(entries := s.entries[k := e], tickets := s.tickets[e.id := t])
  }

  /** The goroutine that sets `closing` owes the Stop call. */
  function BeginClose(s: State, k: Key): State
    requires k in s.entries && s.entries[k].id < |s.tickets|
  {
    var e := s.entries[k];
    Change(s, k, e.(leased := false, creating := false, closing := true),
           s.tickets[e.id].(held := false, creating := false, closing := true))
  }

  /** A fresh map entry for waiter `w`: a reservation is held at once, a runtime is created first. */
  function Issue(s: State, w: Waiter): State {
    s.(entries := s.entries[w.key := Entry(|s.tickets|, false, true, !w.reservation, false, false, false, 0, false)],
       tickets := s.tickets + [Ticket(w.key, w.reservation, !w.reservation, false, false, 0, false)],
       asking := s.asking - {w.id})
  }

  function ClearTimers(es: map<Key, Entry>): map<Key, Entry> {
    map k | k in es :: es[k].(timer := false)
  }

  predicate Indexed(s: State) { forall k :: k in s.entries ==> s.entries[k].id < |s.tickets| }

  function Apply(s: State, e: Event): State
    requires Indexed(s) && Enabled(s, e)
  {
    match e
    case Enqueue(w) => s.(queue := s.queue + [w], asking := s.asking + {w.id})
    case Leave(w) => s.(queue := Remove(s.queue, w), asking := s.asking - {w.id})
    case Reuse(w, _) =>
      var x := s.entries[w.key];
      Change(s, w.key, x.(leased := true, timer := false), s.tickets[x.id].(held := true))
        .(asking := s.asking - {w.id})
    case RetireStale(w, _) => BeginClose(s, w.key)
    case Reserve(w) => Issue(s, w)
    case BeginCreate(w) => Issue(s, w)
    case BeginEvict(_, v) => BeginClose(s, v)
    case CreateOk(id) =>
      var t := s.tickets[id];
      Change(s, t.home, s.entries[t.home].(hasRuntime := true, creating := false),
             t.(creating := false, held := true, ran := true))
    case CreateFailed(id, r) =>
      var t := s.tickets[id];
      Change(s, t.home, s.entries[t.home].(hasRuntime := r, creating := false, leased := false, closing := true),
             t.(creating := false, closing := true, ran := r))
    case Release(id, now) =>
      var t := s.tickets[id];
      Change(s, t.home, s.entries[t.home].(leased := false, idleSince := now, timer := !s.closed), t.(held := false))
    case StopLease(id) => BeginClose(s, s.tickets[id].home)
    case Expire(id, _) =>
      var t := s.tickets[id];
      Change(s, t.home, s.entries[t.home].(closing := true, timer := false), t.(closing := true))
    case StopDone(id, ok) =>
      var t := s.tickets[id];
      var x := s.entries[t.home];
      var u := t.(closing := false, stops := t.stops + if x.hasRuntime then 1 else 0);
      if ok then s.(entries := s.entries - {t.home}, tickets := s.tickets[id := u.(retired := true)])
      else Change(s, t.home, x.(closing := false, quarantined := true, stopErr := true), u)
    case Shutdown => s.(closed := true, entries := ClearTimers(s.entries))
    case ShutdownPick(v) => BeginClose(s, v)
  }

  // ----- runs -----------------------------------------------------------------------------

  predicate Runs(s: State, es: seq<Event>)
    decreases |es|
  {
    Indexed(s) && (es == [] || (Enabled(s, es[0]) && Runs(Apply(s, es[0]), es[1..])))
  }

  function After(s: State, es: seq<Event>): State
    requires Runs(s, es)
    decreases |es|
  {
    if es == [] then s else After(Apply(s, es[0]), es[1..])
  }
}
