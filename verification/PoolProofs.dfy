/** What every run of the runtime pool keeps, and what follows from it. */
module PoolProofs {
  import opened Common
  import opened Pool

  // ----- the invariant --------------------------------------------------------------------

  /** The flags of a live entry agree with each other and with its ticket. */
  predicate EntryOK(e: Entry, t: Ticket) {
    && !t.retired
    && (e.creating ==> e.leased && !e.hasRuntime)
    && (e.leased ==> !e.closing && !e.quarantined)
    && (e.closing ==> !e.quarantined)
    && (e.quarantined <==> e.stopErr)
    && (e.Reusable() || e.quarantined ==> e.hasRuntime)
    && e.hasRuntime == t.ran
    && e.creating == t.creating
    && (e.leased && !e.creating) == t.held
    && e.closing == t.closing
    && t.stops == if e.quarantined then 1 else 0
  }

  /** An entry that has left the map owes nothing, and was stopped exactly once if it ever had
      a runtime. */
  predicate GoneOK(t: Ticket) {
    t.retired && !t.held && !t.creating && !t.closing && t.stops == if t.ran then 1 else 0
  }

  predicate EntriesOK(s: State) {
    Indexed(s) && forall k :: k in s.entries ==>
      s.tickets[s.entries[k].id].home == k && EntryOK(s.entries[k], s.tickets[s.entries[k].id])
  }

  predicate TicketsOK(s: State) {
    forall id: nat :: id < |s.tickets| ==> Live(s, id) || GoneOK(s.tickets[id])
  }

  predicate Exclusive(es: map<Key, Entry>) {
    forall j, k :: j in es && k in es && es[j].leased && es[k].leased && SameConversation(j, k) ==> j == k
  }

  predicate Books(s: State) { EntriesOK(s) && TicketsOK(s) && Exclusive(s.entries) }

  ghost predicate Inv(s: State) {
    s.options.Valid() && WithinQuota(s.options, s.entries.Keys) && Books(s)
  }

  // ----- counting -------------------------------------------------------------------------

  lemma SubsetSize<T>(a: set<T>, b: set<T>)
    requires a <= b
    ensures |a| <= |b|
  {
    assert b == a + (b - a);
  }

  lemma Split(ks: set<Key>)
    ensures |ks| == |Ordinary(ks)| + |Reserving(ks)|
  {
    assert ks == Ordinary(ks) + Reserving(ks);
    assert Ordinary(ks) !! Reserving(ks);
  }

  lemma FewerWithinQuota(o: Options, ks: set<Key>, fewer: set<Key>)
    requires WithinQuota(o, ks) && fewer <= ks
    ensures WithinQuota(o, fewer)
  {
    SubsetSize(fewer, ks);
    SubsetSize(Ordinary(fewer), Ordinary(ks));
    forall t
      ensures |OfTenant(fewer, t)| <= o.maxPerTenant
      ensures |Ordinary(OfTenant(fewer, t))| <= o.maxPerTenant - o.reservedPerTenant
    {
      SubsetSize(OfTenant(fewer, t), OfTenant(ks, t));
      SubsetSize(Ordinary(OfTenant(fewer, t)), Ordinary(OfTenant(ks, t)));
    }
  }

  lemma AddedToTenant(ks: set<Key>, k: Key, t: string)
    requires k !in ks
    ensures OfTenant(ks + {k}, t) == if k.tenant == t then OfTenant(ks, t) + {k} else OfTenant(ks, t)
    ensures |OfTenant(ks + {k}, t)| == |OfTenant(ks, t)| + if k.tenant == t then 1 else 0
  {
    assert OfTenant(ks + {k}, t) == if k.tenant == t then OfTenant(ks, t) + {k} else OfTenant(ks, t);
  }

  lemma AddedToOrdinary(ks: set<Key>, k: Key)
    requires k !in ks
    ensures |Ordinary(ks + {k})| == |Ordinary(ks)| + if k.kind == Validation then 0 else 1
  {
    assert Ordinary(ks + {k}) == if k.kind == Validation then Ordinary(ks) else Ordinary(ks) + {k};
  }

  lemma RemovedFromTenant(ks: set<Key>, k: Key, t: string)
    requires k in ks
    ensures OfTenant(ks - {k}, t) == OfTenant(ks, t) - {k}
    ensures |OfTenant(ks - {k}, t)| == |OfTenant(ks, t)| - if k.tenant == t then 1 else 0
  {
    assert OfTenant(ks - {k}, t) == OfTenant(ks, t) - {k};
    if k.tenant == t { assert k in OfTenant(ks, t); } else { assert k !in OfTenant(ks, t); }
  }

  lemma RemovedFromOrdinary(ks: set<Key>, k: Key)
    ensures |Ordinary(ks - {k})| == |Ordinary(ks)| - if k in ks && k.kind != Validation then 1 else 0
  {
    assert Ordinary(ks - {k}) == Ordinary(ks) - {k};
    if k in ks && k.kind != Validation { assert k in Ordinary(ks); } else { assert k !in Ordinary(ks); }
  }

  lemma FittingTenant(o: Options, ks: set<Key>, k: Key, t: string)
    requires WithinQuota(o, ks) && Fits(o, ks, k) && k !in ks
    ensures |OfTenant(ks + {k}, t)| <= o.maxPerTenant
    ensures |Ordinary(OfTenant(ks + {k}, t))| <= o.maxPerTenant - o.reservedPerTenant
  {
    AddedToTenant(ks, k, t);
    AddedToOrdinary(OfTenant(ks, t), k);
    assert |OfTenant(ks, t)| <= o.maxPerTenant;
    assert |Ordinary(OfTenant(ks, t))| <= o.maxPerTenant - o.reservedPerTenant;
  }

  /** A key that fits may be added without breaking any of the four quotas. */
  lemma FittingWithinQuota(o: Options, ks: set<Key>, k: Key)
    requires WithinQuota(o, ks) && Fits(o, ks, k) && k !in ks
    ensures WithinQuota(o, ks + {k})
  {
    AddedToOrdinary(ks, k);
    assert |ks + {k}| == |ks| + 1;
    forall t
      ensures |OfTenant(ks + {k}, t)| <= o.maxPerTenant
      ensures |Ordinary(OfTenant(ks + {k}, t))| <= o.maxPerTenant - o.reservedPerTenant
    {
      FittingTenant(o, ks, k, t);
    }
  }

  // ----- the reserve and eviction ---------------------------------------------------------

  /** Reserved capacity is real: a validation request fits while fewer than the reserved number
      of validation instances are live, globally and for its tenant. */
  lemma ReservedCapacityIsReal(s: State, k: Key)
    requires Inv(s) && k.kind == Validation
    requires |Reserving(s.entries.Keys)| < s.options.reserved
    requires |Reserving(OfTenant(s.entries.Keys, k.tenant))| < s.options.reservedPerTenant
    ensures Fits(s.options, s.entries.Keys, k)
  {
    Split(s.entries.Keys);
    Split(OfTenant(s.entries.Keys, k.tenant));
  }

  /** What removing one key leaves of the four counters of a tenant. */
  lemma RemovedCounts(ks: set<Key>, v: Key, t: string)
    requires v in ks
    ensures |ks - {v}| == |ks| - 1
    ensures |Ordinary(ks - {v})| == |Ordinary(ks)| - if v.kind == Validation then 0 else 1
    ensures |OfTenant(ks - {v}, t)| == |OfTenant(ks, t)| - if v.tenant == t then 1 else 0
    ensures |Ordinary(OfTenant(ks - {v}, t))| ==
      |Ordinary(OfTenant(ks, t))| - if v.tenant == t && v.kind != Validation then 1 else 0
  {
    RemovedFromOrdinary(ks, v);
    RemovedFromTenant(ks, v, t);
    RemovedFromOrdinary(OfTenant(ks, t), v);
    assert v in OfTenant(ks, t) <==> v.tenant == t;
  }

  /** Removing the entry `evictable` picks makes the refused key fit exactly when the key is a
      validation key, the entry is an ordinary one, or ordinary room was not what was missing. */
  lemma EvictionMakesRoomIff(s: State, k: Key, v: Key)
    requires Inv(s)
    requires !Fits(s.options, s.entries.Keys, k) && Victim(s.options, s.entries, k, v)
    ensures Fits(s.options, s.entries.Keys - {v}, k)
       <==> (k.kind == Validation || v.kind != Validation || OrdinaryRoom(s.options, s.entries.Keys, k.tenant))
  {
    var o, ks, t := s.options, s.entries.Keys, k.tenant;
    RemovedCounts(ks, v, t);
    assert |OfTenant(ks, t)| <= o.maxPerTenant;
    assert |Ordinary(OfTenant(ks, t))| <= o.maxPerTenant - o.reservedPerTenant;
  }

  /** One leased chat and one idle validation runtime, under the smallest valid limits. */
  function Crowded(a: Key, v: Key): State {
    State(Options(2, 2, 1, 1, 1),
          map[a := Entry(0, true, true, false, false, false, false, 0, false),
              v := Entry(1, true, false, false, false, false, false, 0, true)],
          [], false,
          [Ticket(a, true, false, false, true, 0, false), Ticket(v, false, false, false, true, 0, false)], {})
  }

  lemma CrowdedKeys(a: Key, v: Key)
    requires a.kind == Chat && v.kind == Validation && a.tenant == v.tenant
    ensures Crowded(a, v).entries.Keys == {a, v}
    ensures Ordinary({a, v}) == {a} && OfTenant({a, v}, a.tenant) == {a, v}
    ensures Ordinary({a}) == {a} && OfTenant({a}, a.tenant) == {a}
    ensures forall t :: t != a.tenant ==> OfTenant({a, v}, t) == {}
    ensures Ordinary({}) == {}
  {}

  /** An idle validation runtime can be evicted for a chat that still does not fit afterwards. */
  lemma EvictionMayNotMakeRoom(a: Key, v: Key, k: Key)
    requires a.kind == Chat && v.kind == Validation && k.kind == Chat && a.tenant == v.tenant == k.tenant
    ensures var s := Crowded(a, v);
      && Inv(s) && !Fits(s.options, s.entries.Keys, k) && Victim(s.options, s.entries, k, v)
      && !Fits(s.options, s.entries.Keys - {v}, k)
  {
    var s := Crowded(a, v);
    CrowdedKeys(a, v);
    assert |{a, v}| == 2 && |{a}| == 1;
    assert s.entries.Keys - {v} == {a};
    assert WithinQuota(s.options, s.entries.Keys);
    assert Live(s, 0) && Live(s, 1);
  }

  lemma {:induction false} RunCons(s: State, e: Event, es: seq<Event>, t: State)
    requires Indexed(s) && Enabled(s, e) && Apply(s, e) == t && Runs(t, es)
    ensures Runs(s, [e] + es) && After(s, [e] + es) == After(t, es)
  {
    assert ([e] + es)[1..] == es;
  }

  function Queued(s: State, w: Waiter): State { s.(queue := [w], asking := s.asking + {w.id}) }

  lemma {:induction false} QueuedTurn(s: State, w: Waiter)
    requires Indexed(s) && !s.closed && s.queue == [] && w.id !in s.asking && !w.reservation
    requires w.key !in s.entries && !Occupied(s.entries, w.key) && Fits(s.options, s.entries.Keys, w.key)
    ensures Enabled(s, Enqueue(w)) && Apply(s, Enqueue(w)) == Queued(s, w)
    ensures Enabled(Queued(s, w), BeginCreate(w))
  {
    assert s.queue + [w] == [w] && [w][0] == w;
    assert Admissible(s.options, s.entries, w.key);
  }

  lemma {:induction false} CreatedAfter(s: State, w: Waiter)
    requires Indexed(s) && !s.closed && s.queue == [] && w.id !in s.asking && !w.reservation
    ensures var t := Issue(Queued(s, w), w);
      && Indexed(t) && Enabled(t, Leave(w))
      && var u := Apply(t, Leave(w));
      && Indexed(u) && Enabled(u, CreateOk(|s.tickets|)) && Apply(u, CreateOk(|s.tickets|)) == Given(s, w)
  {
    var t := Issue(Queued(s, w), w);
    assert Queued(s, w).asking - {w.id} == s.asking && Remove([w], w) == [];
    assert t.asking - {w.id} == s.asking;
    assert t.tickets[|s.tickets|].home == w.key && Live(Apply(t, Leave(w)), |s.tickets|);
  }

  /** A waiter that finds the queue empty and room for its key gets a runtime of its own. */
  lemma {:induction false} Served(s: State, w: Waiter, es: seq<Event>)
    requires Indexed(s) && !s.closed && s.queue == [] && w.id !in s.asking && !w.reservation
    requires w.key !in s.entries && !Occupied(s.entries, w.key) && Fits(s.options, s.entries.Keys, w.key)
    requires Runs(Given(s, w), es)
    ensures exists fs :: Runs(s, fs) && After(s, fs) == After(Given(s, w), es)
  {
    QueuedTurn(s, w);
    CreatedAfter(s, w);
    var q := Queued(s, w);
    var t := Issue(q, w);
    var u, last := Apply(t, Leave(w)), [CreateOk(|s.tickets|)] + es;
    RunCons(u, CreateOk(|s.tickets|), es, Given(s, w));
    RunCons(t, Leave(w), last, u);
    RunCons(q, BeginCreate(w), [Leave(w)] + last, t);
    RunCons(s, Enqueue(w), [BeginCreate(w)] + ([Leave(w)] + last), q);
  }

  /** A fresh runtime in the hands of waiter `w`. */
  function Given(s: State, w: Waiter): State {
    s.(entries := s.entries[w.key := Entry(|s.tickets|, true, true, false, false, false, false, 0, false)],
       tickets := s.tickets + [Ticket(w.key, true, false, false, true, 0, false)])
  }

  lemma LastRelease(a: Key, v: Key, s: State)
    requires a != v && s == Given(Given(Init(Crowded(a, v).options), Waiter(0, a, false)), Waiter(1, v, false))
    ensures Indexed(s) && Enabled(s, Release(1, 0)) && Apply(s, Release(1, 0)) == Crowded(a, v)
  {
    assert s.tickets[1].home == v && s.entries[v].id == 1 && Live(s, 1);
  }

  /** That pool comes about: a chat is served, then a validation, and the validation ends. */
  lemma {:induction false} CrowdedIsReachable(a: Key, v: Key)
    requires a.kind == Chat && v.kind == Validation && a.tenant == v.tenant
    ensures exists es :: Runs(Init(Crowded(a, v).options), es) && After(Init(Crowded(a, v).options), es) == Crowded(a, v)
  {
    var s0 := Init(Crowded(a, v).options);
    CrowdedKeys(a, v);
    assert s0.entries.Keys == {} && OfTenant({}, a.tenant) == {};
    var w, x := Waiter(0, a, false), Waiter(1, v, false);
    var s1 := Given(s0, w);
    assert s1.entries.Keys == {a};
    var s2 := Given(s1, x);
    LastRelease(a, v, s2);
    assert Indexed(Crowded(a, v)) && Runs(Crowded(a, v), []);
    RunCons(s2, Release(1, 0), [], Crowded(a, v));
    Served(s1, x, [Release(1, 0)] + []);
    var es :| Runs(s1, es) && After(s1, es) == After(s2, [Release(1, 0)] + []);
    Served(s0, w, es);
  }

  // ----- turns ----------------------------------------------------------------------------

  /** None of the first `n` waiters is admissible. */
  predicate NoneBefore(o: Options, es: map<Key, Entry>, q: seq<Waiter>, n: nat)
    requires n <= |q|
  {
    forall j :: 0 <= j < n ==> !Admissible(o, es, q[j].key)
  }

  /** The waiter at `i` is admissible, and nobody before it is. */
  predicate FirstAdmissible(o: Options, es: map<Key, Entry>, q: seq<Waiter>, i: nat)
    requires i < |q|
  {
    Admissible(o, es, q[i].key) && NoneBefore(o, es, q, i)
  }

  lemma Shifted(o: Options, es: map<Key, Entry>, q: seq<Waiter>, n: nat)
    requires q != [] && n <= |q[1..]| && NoneBefore(o, es, q[1..], n) && !Admissible(o, es, q[0].key)
    ensures NoneBefore(o, es, q, n + 1)
  {
    forall j | 0 <= j < n + 1 ensures !Admissible(o, es, q[j].key) {
      if j > 0 { assert q[j] == q[1..][j - 1]; }
    }
  }

  lemma {:induction false} TurnIs(o: Options, es: map<Key, Entry>, q: seq<Waiter>) returns (i: nat)
    ensures Turn(o, es, q) == None ==> NoneBefore(o, es, q, |q|)
    ensures Turn(o, es, q).Some? ==>
      i < |q| && q[i] == Turn(o, es, q).value && Admissible(o, es, q[i].key) && NoneBefore(o, es, q, i)
  {
    i := 0;
    if q != [] && !Admissible(o, es, q[0].key) {
      var rest := q[1..];
      i := TurnIs(o, es, rest);
      if Turn(o, es, rest).Some? {
        Shifted(o, es, q, i);
        i := i + 1;
      } else {
        Shifted(o, es, q, |rest|);
      }
    }
  }

  /** `next` returns the earliest admissible waiter: nobody before it could have been served. */
  lemma {:induction false} TurnIsEarliestAdmissible(o: Options, es: map<Key, Entry>, q: seq<Waiter>)
    ensures Turn(o, es, q) == None <==> NoneBefore(o, es, q, |q|)
    ensures Turn(o, es, q).Some? ==> exists i ::
      0 <= i < |q| && q[i] == Turn(o, es, q).value && FirstAdmissible(o, es, q, i)
  {
    var i := TurnIs(o, es, q);
  }

  lemma OldestExists(o: Options, es: map<Key, Entry>, k: Key, cs: set<Key>) returns (v: Key)
    requires cs != {}
    requires forall c :: c in cs ==> c in es && Candidate(o, es, k, c)
    ensures v in cs && forall u :: u in cs ==> es[v].idleSince <= es[u].idleSince
    decreases cs
  {
    v :| v in cs;
    if cs != {v} {
      var w := OldestExists(o, es, k, cs - {v});
      if es[w].idleSince < es[v].idleSince { v := w; }
    }
  }

  /** The waiter whose turn it is can always take a step of its own: it never has to wait. */
  lemma TurnIsNeverBlocked(s: State, w: Waiter, now: int)
    requires MyTurn(s, w)
    ensures || Enabled(s, Reuse(w, now)) || Enabled(s, RetireStale(w, now))
            || Enabled(s, Reserve(w)) || Enabled(s, BeginCreate(w))
            || exists v :: Enabled(s, BeginEvict(w, v))
  {
    TurnIsEarliestAdmissible(s.options, s.entries, s.queue);
    if !HasIdle(s, w.key) && !Fits(s.options, s.entries.Keys, w.key) {
      var cs := set v | v in s.entries && Candidate(s.options, s.entries, w.key, v);
      var c :| c in s.entries && Candidate(s.options, s.entries, w.key, c);
      assert c in cs;
      var v := OldestExists(s.options, s.entries, w.key, cs);
      assert Enabled(s, BeginEvict(w, v));
    }
  }

  // ----- one step -------------------------------------------------------------------------

  /** A change of one entry and its ticket keeps the books when the two still agree and the
      entry is leased only if nobody else holds its conversation. */
  lemma ChangeKeeps(s: State, k: Key, e: Entry, t: Ticket)
    requires Books(s) && k in s.entries && e.id == s.entries[k].id
    requires t.home == k && EntryOK(e, t)
    requires e.leased ==> forall j :: j in s.entries && j != k && s.entries[j].leased ==> !SameConversation(j, k)
    ensures Books(Change(s, k, e, t)) && Change(s, k, e, t).entries.Keys == s.entries.Keys
  {
    var c := Change(s, k, e, t);
    ChangeEntries(s, k, e, t);
    forall id: nat | id < |c.tickets| ensures Live(c, id) || GoneOK(c.tickets[id]) {
      assert Live(s, id) || GoneOK(s.tickets[id]);
    }
  }

  lemma ChangeEntries(s: State, k: Key, e: Entry, t: Ticket)
    requires Books(s) && k in s.entries && e.id == s.entries[k].id
    requires t.home == k && EntryOK(e, t)
    ensures EntriesOK(Change(s, k, e, t))
  {
    var c := Change(s, k, e, t);
    forall j | j in c.entries
      ensures c.entries[j].id < |c.tickets|
      ensures c.tickets[c.entries[j].id].home == j && EntryOK(c.entries[j], c.tickets[c.entries[j].id])
    {
      assert j != k ==> s.entries[j].id != e.id;
    }
  }

  /** Whoever's turn it is, nobody is active in that conversation. */
  lemma TurnIsQuiet(s: State, w: Waiter)
    requires MyTurn(s, w)
    ensures !Occupied(s.entries, w.key)
  {
    TurnIsEarliestAdmissible(s.options, s.entries, s.queue);
  }

  /** A grant never overwrites a live map entry. */
  lemma GrantOverwritesNothing(s: State, w: Waiter)
    requires MyTurn(s, w) && !HasIdle(s, w.key)
    ensures w.key !in s.entries
  {
    TurnIsQuiet(s, w);
    assert SameConversation(w.key, w.key);
  }

  lemma IssueKeeps(s: State, w: Waiter)
    requires Books(s) && !Occupied(s.entries, w.key) && w.key !in s.entries
    ensures Books(Issue(s, w))
  {
    var c := Issue(s, w);
    forall id: nat | id < |c.tickets| ensures Live(c, id) || GoneOK(c.tickets[id]) {
      assert id < |s.tickets| ==> Live(s, id) || GoneOK(s.tickets[id]);
    }
  }

  lemma RetireKeeps(s: State, id: nat)
    requires Books(s) && Enabled(s, StopDone(id, true))
    ensures Books(Apply(s, StopDone(id, true)))
  {
    var k, c := s.tickets[id].home, Apply(s, StopDone(id, true));
    forall j | j in c.entries
      ensures c.tickets[c.entries[j].id].home == j && EntryOK(c.entries[j], c.tickets[c.entries[j].id])
    {
      assert s.entries[j].id != id;
    }
    forall i: nat | i < |c.tickets| ensures Live(c, i) || GoneOK(c.tickets[i]) {
      assert Live(s, i) || GoneOK(s.tickets[i]);
    }
  }

  lemma ShutdownKeeps(s: State)
    requires Books(s)
    ensures Books(Apply(s, Shutdown)) && Apply(s, Shutdown).entries.Keys == s.entries.Keys
  {
    var c := Apply(s, Shutdown);
    forall j | j in c.entries ensures EntryOK(c.entries[j], c.tickets[c.entries[j].id]) {}
    forall id: nat | id < |c.tickets| ensures Live(c, id) || GoneOK(c.tickets[id]) {
      assert Live(s, id) || GoneOK(s.tickets[id]);
    }
  }

  /** The entry and ticket a step touches, when it touches one that exists. */
  function Target(s: State, e: Event): Key
    requires Indexed(s) && Enabled(s, e) && InPlace(e)
  {
    match e
    case Reuse(w, _) => w.key
    case RetireStale(w, _) => w.key
    case BeginEvict(_, v) => v
    case ShutdownPick(v) => v
    case CreateOk(id) => s.tickets[id].home
    case CreateFailed(id, _) => s.tickets[id].home
    case Release(id, _) => s.tickets[id].home
    case StopLease(id) => s.tickets[id].home
    case Expire(id, _) => s.tickets[id].home
    case StopDone(id, _) => s.tickets[id].home
  }

  predicate InPlace(e: Event) {
    || e.Reuse? || e.RetireStale? || e.BeginEvict? || e.ShutdownPick? || e.CreateOk? || e.CreateFailed?
    || e.Release? || e.StopLease? || e.Expire? || (e.StopDone? && !e.ok)
  }

  lemma InPlaceKeeps(s: State, e: Event)
    requires Books(s) && Enabled(s, e) && InPlace(e)
    ensures Books(Apply(s, e)) && Apply(s, e).entries.Keys == s.entries.Keys
    ensures var i := s.entries[Target(s, e)].id; Apply(s, e).tickets == s.tickets[i := Apply(s, e).tickets[i]]
  {
    var k := Target(s, e);
    var c := Apply(s, e);
    var i := s.entries[k].id;
    if e.Reuse? { TurnIsQuiet(s, e.w); }
    assert EntryOK(s.entries[k], s.tickets[i]);
    assert EntryOK(c.entries[k], c.tickets[i]);
    ChangeKeeps(s, k, c.entries[k], c.tickets[i]);
    assert c == Change(s, k, c.entries[k], c.tickets[i]).(asking := c.asking);
  }

  /** An entry for a waiter whose turn it is, under a key nothing in the map uses. */
  lemma IssueStepKeeps(s: State, w: Waiter)
    requires Inv(s) && MyTurn(s, w) && !HasIdle(s, w.key) && Fits(s.options, s.entries.Keys, w.key)
    ensures Inv(Issue(s, w))
  {
    GrantOverwritesNothing(s, w);
    TurnIsQuiet(s, w);
    IssueKeeps(s, w);
    FittingWithinQuota(s.options, s.entries.Keys, w.key);
    assert Issue(s, w).entries.Keys == s.entries.Keys + {w.key};
  }

  lemma RetireStepKeeps(s: State, id: nat)
    requires Inv(s) && Enabled(s, StopDone(id, true))
    ensures Inv(Apply(s, StopDone(id, true)))
  {
    RetireKeeps(s, id);
    FewerWithinQuota(s.options, s.entries.Keys, Apply(s, StopDone(id, true)).entries.Keys);
  }

  lemma QueueStepKeeps(s: State, e: Event)
    requires Inv(s) && Enabled(s, e) && (e.Enqueue? || e.Leave?)
    ensures Inv(Apply(s, e))
  {
    var c := Apply(s, e);
    assert forall id: nat :: id < |c.tickets| ==> Live(c, id) == Live(s, id);
  }

  lemma StepKeeps(s: State, e: Event)
    requires Inv(s) && Enabled(s, e)
    ensures Inv(Apply(s, e))
  {
    if InPlace(e) {
      InPlaceKeeps(s, e);
    } else if e.StopDone? {
      RetireStepKeeps(s, e.id);
    } else if e.Shutdown? {
      ShutdownKeeps(s);
    } else if e.Reserve? || e.BeginCreate? {
      IssueStepKeeps(s, e.w);
    } else {
      QueueStepKeeps(s, e);
    }
  }

  // ----- every run ------------------------------------------------------------------------

  /** In every state every interleaving can reach, the four quotas hold, the flags agree with
      the tokens and no two leased entries share tenant, conversation and kind. */
  lemma {:induction false} EveryRunKeepsInv(s: State, es: seq<Event>)
    requires Inv(s) && Runs(s, es)
    ensures Inv(After(s, es))
    decreases |es|
  {
    if es != [] {
      StepKeeps(s, es[0]);
      EveryRunKeepsInv(Apply(s, es[0]), es[1..]);
    }
  }

  lemma InitInv(o: Options)
    requires o.Valid()
    ensures Inv(Init(o))
  {
    forall t ensures OfTenant({}, t) == {} && Ordinary(OfTenant({}, t)) == {} {}
    assert Ordinary({}) == {};
  }

  /** Safety of every interleaving from the empty pool: the quotas hold, globally and for every
      tenant, and a conversation has at most one leased entry of a kind. */
  lemma {:induction false} ReachableIsSafe(o: Options, es: seq<Event>)
    requires o.Valid() && Runs(Init(o), es)
    ensures WithinQuota(o, After(Init(o), es).entries.Keys)
    ensures Exclusive(After(Init(o), es).entries)
  {
    InitInv(o);
    EveryRunKeepsInv(Init(o), es);
    OptionsStay(Init(o), es);
  }

  lemma {:induction false} OptionsStay(s: State, es: seq<Event>)
    requires Runs(s, es)
    ensures After(s, es).options == s.options
    decreases |es|
  {
    if es != [] { OptionsStay(Apply(s, es[0]), es[1..]); }
  }

  /** Conservation over every interleaving: each entry ever issued is either in the map or gone;
      its runtime was stopped at most once, and exactly once if it ran and is gone or quarantined. */
  lemma {:induction false} EachRuntimeIsStoppedAtMostOnce(o: Options, es: seq<Event>, id: nat)
    requires o.Valid() && Runs(Init(o), es) && id < |After(Init(o), es).tickets|
    ensures var s := After(Init(o), es); var t := s.tickets[id];
      && Live(s, id) == !t.retired
      && t.stops <= 1
      && (t.stops == 1 <==> t.ran && (t.retired || s.entries[t.home].quarantined))
  {
    InitInv(o);
    EveryRunKeepsInv(Init(o), es);
    var s := After(Init(o), es);
    assert Live(s, id) || GoneOK(s.tickets[id]);
    if Live(s, id) { assert EntryOK(s.entries[s.tickets[id].home], s.tickets[id]); }
  }

  /** An entry disappears in one step only: its Stop returned without error, or it had no runtime. */
  lemma LeavesOnlyAfterStop(s: State, e: Event, k: Key)
    requires Inv(s) && Enabled(s, e) && k in s.entries && k !in Apply(s, e).entries
    ensures e == StopDone(s.entries[k].id, true) && s.entries[k].closing
  {
    if InPlace(e) { InPlaceKeeps(s, e); }
  }

  predicate SameSlot(s: State, t: State, k: Key) {
    k in s.entries && k in t.entries && t.entries[k] == s.entries[k].(timer := t.entries[k].timer)
  }

  lemma QuarantineInPlace(s: State, e: Event, k: Key)
    requires Books(s) && Enabled(s, e) && InPlace(e) && k in s.entries && s.entries[k].quarantined
    ensures SameSlot(s, Apply(s, e), k)
  {
    var j := Target(s, e);
    assert EntryOK(s.entries[j], s.tickets[s.entries[j].id]);
  }

  lemma QuarantineOtherwise(s: State, e: Event, k: Key)
    requires Books(s) && Enabled(s, e) && !InPlace(e) && k in s.entries && s.entries[k].quarantined
    ensures SameSlot(s, Apply(s, e), k)
  {
    assert EntryOK(s.entries[k], s.tickets[s.entries[k].id]);
    if e.Reserve? || e.BeginCreate? {
      GrantOverwritesNothing(s, e.w);
    }
  }

  /** A failed Stop quarantines its slot for good: whatever follows, the entry stays in the map,
      counted, and is never leased again. */
  lemma {:induction false} QuarantineIsForever(s: State, es: seq<Event>, k: Key)
    requires Inv(s) && Runs(s, es) && k in s.entries && s.entries[k].quarantined
    ensures SameSlot(s, After(s, es), k)
    decreases |es|
  {
    if es != [] {
      if InPlace(es[0]) { QuarantineInPlace(s, es[0], k); } else { QuarantineOtherwise(s, es[0], k); }
      StepKeeps(s, es[0]);
      QuarantineIsForever(Apply(s, es[0]), es[1..], k);
    }
  }

  // ----- shutdown -------------------------------------------------------------------------

  /** From `s` to `t` nothing was issued, nobody became a holder and no key entered the map. */
  predicate Shrinks(s: State, t: State) {
    && t.closed && |t.tickets| == |s.tickets| && t.entries.Keys <= s.entries.Keys
    && forall id :: 0 <= id < |t.tickets| && t.tickets[id].held ==> s.tickets[id].held
  }

  /** After shutdown no entry in place becomes held. */
  lemma NotHeld(s: State, e: Event)
    requires Indexed(s) && Enabled(s, e) && InPlace(e) && s.closed
    ensures Target(s, e) in s.entries
    ensures var i, t := s.entries[Target(s, e)].id, Apply(s, e);
      && t.closed && i < |t.tickets|
      && (t.tickets[i].held ==> i < |s.tickets| && s.tickets[i].held)
  {}

  lemma ShrinksInPlace(s: State, e: Event)
    requires Books(s) && Enabled(s, e) && InPlace(e) && s.closed
    ensures Shrinks(s, Apply(s, e))
  {
    NotHeld(s, e);
    InPlaceKeeps(s, e);
  }

  lemma ShrinksOtherwise(s: State, e: Event)
    requires Indexed(s) && Enabled(s, e) && !InPlace(e) && s.closed
    ensures Shrinks(s, Apply(s, e))
  {}

  /** After shutdown nothing is issued, nothing is leased again and nothing enters the map, in
      any continuation. */
  lemma {:induction false} NothingAfterShutdown(s: State, es: seq<Event>)
    requires Inv(s) && Runs(s, es) && s.closed
    ensures Shrinks(s, After(s, es))
    decreases |es|
  {
    if es != [] {
      StepKeeps(s, es[0]);
      if InPlace(es[0]) { ShrinksInPlace(s, es[0]); } else { ShrinksOtherwise(s, es[0]); }
      NothingAfterShutdown(Apply(s, es[0]), es[1..]);
    }
  }

  predicate Active(e: Entry) { e.leased || e.creating || e.closing }

  /** When Close finds nothing reusable and nothing active, the joined Stop errors are nil exactly
      when the map is empty: whatever is left is quarantined and carries its error. */
  lemma CloseReturnsNilIffEmpty(s: State)
    requires Inv(s) && forall k :: k in s.entries ==> !s.entries[k].Reusable() && !Active(s.entries[k])
    ensures (forall k :: k in s.entries ==> !s.entries[k].stopErr) <==> s.entries == map[]
  {
    if s.entries != map[] {
      var k :| k in s.entries;
      assert EntryOK(s.entries[k], s.tickets[s.entries[k].id]);
    }
  }
}
