/** What the pool decides, in terms of its limits, the times and the conversations alone. */
module PoolLaws {
  import opened Common
  import opened Pool
  import opened PoolProofs

  // ----- room ---------------------------------------------------------------------------------

  /** A new key fits exactly if adding it keeps all four quotas. */
  lemma FitsIff(o: Options, ks: set<Key>, k: Key)
    requires WithinQuota(o, ks) && k !in ks
    ensures Fits(o, ks, k) <==> WithinQuota(o, ks + {k})
  {
    if Fits(o, ks, k) {
      FittingWithinQuota(o, ks, k);
    } else {
      AddedToTenant(ks, k, k.tenant);
      AddedToOrdinary(ks, k);
      AddedToOrdinary(OfTenant(ks, k.tenant), k);
      assert |ks + {k}| == |ks| + 1;
    }
  }

  /** Valid options leave room: into an empty pool any key fits, and what was just released may be reused. */
  lemma ValidLeavesRoom(o: Options, k: Key)
    requires o.Valid()
    ensures Fits(o, {}, k) && 0 < o.idleTTL
  {
    assert Ordinary({}) == {} && OfTenant({}, k.tenant) == {};
  }

  /** A tenant may displace only its own entries exactly if its own quota, not the pool's, is what is exceeded. */
  lemma OwnOnlyIff(o: Options, ks: set<Key>, k: Key)
    requires WithinQuota(o, ks) && k !in ks
    ensures OwnOnly(o, ks, k) <==>
      || |OfTenant(ks + {k}, k.tenant)| > o.maxPerTenant
      || |Ordinary(OfTenant(ks + {k}, k.tenant))| > o.maxPerTenant - o.reservedPerTenant
  {
    AddedToTenant(ks, k, k.tenant);
    AddedToOrdinary(OfTenant(ks, k.tenant), k);
    assert |Ordinary(OfTenant(ks, k.tenant))| <= o.maxPerTenant - o.reservedPerTenant;
  }

  /** Somebody is at work in the conversation of `k`. */
  predicate AtWork(es: map<Key, Entry>, k: Key) {
    exists j :: j in es && j.tenant == k.tenant && j.conversation == k.conversation && j.kind == k.kind
      && (es[j].leased || es[j].creating || es[j].closing || es[j].quarantined)
  }

  /** An entry nobody uses, that `k` may displace. */
  predicate Spare(o: Options, es: map<Key, Entry>, k: Key, v: Key) {
    && v in es && !es[v].leased && !es[v].creating && !es[v].closing && !es[v].quarantined
    && (v.tenant == k.tenant || !OwnOnly(o, es.Keys, k))
  }

  /** A waiter is passed over exactly if somebody is at work in its conversation, or it would exceed a quota and
      no idle entry may be displaced for it. */
  lemma PassedOverIff(o: Options, es: map<Key, Entry>, k: Key)
    requires WithinQuota(o, es.Keys)
    ensures !Admissible(o, es, k) <==>
      || AtWork(es, k)
      || (k !in es && !WithinQuota(o, es.Keys + {k}) && forall v :: v in es ==> !Spare(o, es, k, v))
  {
    if k in es {
      if !AtWork(es, k) { assert es[k].Reusable(); }
    } else {
      FitsIff(o, es.Keys, k);
    }
    if AtWork(es, k) {
      var j :| j in es && j.tenant == k.tenant && j.conversation == k.conversation && j.kind == k.kind
        && (es[j].leased || es[j].creating || es[j].closing || es[j].quarantined);
      assert SameConversation(j, k) && es[j].Busy();
    }
    if Occupied(es, k) {
      var j :| j in es && SameConversation(j, k) && es[j].Busy();
    }
    if SomeCandidate(o, es, k) {
      var v :| v in es && Candidate(o, es, k, v);
      assert Spare(o, es, k, v);
    }
    if v :| v in es && Spare(o, es, k, v) { assert Candidate(o, es, k, v); }
  }

  // ----- the idle time ------------------------------------------------------------------------

  /** When entry `id` was last released in these events. */
  function LastRelease(es: seq<Event>, id: nat): Option<int> {
    if es == [] then None
    else
      var later := LastRelease(es[1..], id);
      if later.Some? then later else if es[0].Release? && es[0].id == id then Some(es[0].now) else None
  }

  function StampOf(s: State, id: nat): int
    requires id < |s.tickets| ==> Live(s, id)
  {
    if id < |s.tickets| then s.entries[s.tickets[id].home].idleSince else 0
  }

  predicate IdleIn(s: State, id: nat) { Live(s, id) && s.entries[s.tickets[id].home].Reusable() }

  predicate Releases(e: Event, id: nat) { e.Release? && e.id == id }

  /** Only a release sets the stamp of an entry, and only a release makes it idle. */
  predicate StampFollows(s: State, e: Event, t: State, id: nat)
    requires Live(t, id)
  {
    && (id < |s.tickets| ==> Live(s, id))
    && StampOf(t, id) == (if Releases(e, id) then e.now else if id < |s.tickets| then StampOf(s, id) else 0)
    && (IdleIn(t, id) ==> Releases(e, id) || IdleIn(s, id))
  }

  /** The entry an event changes in place: only a release stamps it, and only a release makes it idle. */
  lemma StampAt(s: State, e: Event, k: Key)
    requires Inv(s) && Enabled(s, e) && InPlace(e) && k == Target(s, e)
    ensures k in s.entries && k in Apply(s, e).entries
    ensures var x, y := s.entries[k], Apply(s, e).entries[k];
      && y.id == x.id && (e.Release? ==> e.id == x.id)
      && y.idleSince == (if e.Release? then e.now else x.idleSince) && (y.Reusable() ==> e.Release?)
  {
    assert EntryOK(s.entries[k], s.tickets[s.entries[k].id]);
  }

  /** Every other entry stays as it is. */
  lemma InPlaceFrame(s: State, e: Event, j: Key)
    requires Inv(s) && Enabled(s, e) && InPlace(e) && j in s.entries && j != Target(s, e)
    ensures j in Apply(s, e).entries && Apply(s, e).entries[j] == s.entries[j]
  {}

  /** What changing the entry under `k` and its ticket means for the stamp of entry `id`. */
  lemma StampFrame(s: State, e: Event, t: State, k: Key, id: nat)
    requires Books(s) && Books(t) && Live(t, id) && k in s.entries && k in t.entries && t.entries.Keys == s.entries.Keys
    requires s.entries[k].id < |s.tickets| == |t.tickets|
    requires var i := s.entries[k].id; t.tickets == s.tickets[i := t.tickets[i]]
    requires var x, y := s.entries[k], t.entries[k];
      && y.id == x.id && (e.Release? ==> e.id == x.id)
      && y.idleSince == (if e.Release? then e.now else x.idleSince) && (y.Reusable() ==> e.Release?)
    requires var j := t.tickets[id].home; j != k && j in s.entries ==> t.entries[j] == s.entries[j]
    ensures StampFollows(s, e, t, id)
  {
    var j := t.tickets[id].home;
    assert EntryOK(t.entries[j], t.tickets[id]);
    assert s.tickets[s.entries[k].id].home == k && t.tickets[t.entries[k].id].home == k;
  }

  lemma StampInPlace(s: State, e: Event, t: State, id: nat)
    requires Inv(s) && Enabled(s, e) && InPlace(e) && t == Apply(s, e) && Live(t, id)
    ensures StampFollows(s, e, t, id)
  {
    InPlaceKeeps(s, e);
    var k, j := Target(s, e), t.tickets[id].home;
    StampAt(s, e, k);
    if j != k { InPlaceFrame(s, e, j); }
    StampFrame(s, e, t, k, id);
  }

  lemma StampIssued(s: State, e: Event, t: State, w: Waiter, id: nat)
    requires Books(s) && t == Issue(s, w) && w.key !in s.entries && Live(t, id) && !e.Release?
    ensures StampFollows(s, e, t, id)
  {
    if id < |s.tickets| { assert t.tickets[id] == s.tickets[id]; }
  }

  lemma StampRetired(s: State, e: Event, id: nat)
    requires Books(s) && e.StopDone? && e.ok && Enabled(s, e) && Live(Apply(s, e), id)
    ensures StampFollows(s, e, Apply(s, e), id)
  {
    var t := Apply(s, e);
    assert |t.tickets| == |s.tickets|;
    assert EntriesOK(t) by { RetireKeeps(s, e.id); }
    assert t.tickets[id].home == s.tickets[id].home;
  }

  lemma StampCleared(s: State, e: Event, t: State, id: nat)
    requires t == s.(closed := true, entries := ClearTimers(s.entries)) && Live(t, id) && !e.Release?
    ensures StampFollows(s, e, t, id)
  {}

  lemma StampOtherwise(s: State, e: Event, id: nat)
    requires Inv(s) && Enabled(s, e) && !InPlace(e) && Live(Apply(s, e), id)
    ensures StampFollows(s, e, Apply(s, e), id)
  {
    match e
    case Reserve(w) => GrantOverwritesNothing(s, w); StampIssued(s, e, Apply(s, e), w, id);
    case BeginCreate(w) => GrantOverwritesNothing(s, w); StampIssued(s, e, Apply(s, e), w, id);
    case StopDone(_, _) => StampRetired(s, e, id);
    case Shutdown => StampCleared(s, e, Apply(s, e), id);
    case _ =>
  }

  lemma StampStep(s: State, e: Event, t: State, id: nat)
    requires Inv(s) && Enabled(s, e) && t == Apply(s, e) && Live(t, id)
    ensures StampFollows(s, e, t, id)
  {
    if InPlace(e) { StampInPlace(s, e, t, id); } else { StampOtherwise(s, e, id); }
  }

  /** Over every run the stamp of an entry is the time of its last release. */
  lemma {:induction false} StampIsLastRelease(s: State, es: seq<Event>, id: nat)
    requires Inv(s) && Runs(s, es) && Live(After(s, es), id)
    ensures id < |s.tickets| ==> Live(s, id)
    ensures var last := LastRelease(es, id);
      && StampOf(After(s, es), id) == (if last.Some? then last.value else if id < |s.tickets| then StampOf(s, id) else 0)
      && (IdleIn(After(s, es), id) ==> last.Some? || IdleIn(s, id))
    decreases |es|
  {
    if es != [] {
      var t := Apply(s, es[0]);
      StepKeeps(s, es[0]);
      StampIsLastRelease(t, es[1..], id);
      if id < |t.tickets| { StampStep(s, es[0], t, id); } else { IssuedTooLate(s, es[0], id); }
    }
  }

  lemma TicketsGrow(s: State, e: Event)
    requires Inv(s) && Enabled(s, e)
    ensures |s.tickets| <= |Apply(s, e).tickets|
  {
    if InPlace(e) { InPlaceKeeps(s, e); }
  }

  lemma IssuedTooLate(s: State, e: Event, id: nat)
    requires Inv(s) && Enabled(s, e) && id >= |Apply(s, e).tickets|
    ensures id >= |s.tickets| && !Releases(e, id)
  {
    TicketsGrow(s, e);
  }

  // ----- what the waiter whose turn it is does ---------------------------------------------------

  /** What waiter `w` can do in one pass of the acquire loop at this time. */
  predicate PassOf(e: Event, w: Waiter, now: int) {
    || e == Reuse(w, now) || e == RetireStale(w, now) || e == Reserve(w) || e == BeginCreate(w)
    || (e.BeginEvict? && e.w == w)
  }

  /** Over every run from the empty pool: when a waiter has the turn and there is an idle entry under its key, that
      entry was last released at some time t, and a pass at time `now` leases it if and only if now - t is below
      the idle time allowed; otherwise its Stop is owed. */
  lemma {:induction false} PassDecides(o: Options, es: seq<Event>, s: State, w: Waiter, now: int, e: Event)
    requires o.Valid() && Runs(Init(o), es)
    requires s == After(Init(o), es) && Indexed(s) && HasIdle(s, w.key) && PassOf(e, w, now) && Enabled(s, e)
    ensures var id, t := s.entries[w.key].id, Apply(s, e);
      && LastRelease(es, id).Some?
      && id < |t.tickets|
      && (t.tickets[id].held <==> now - LastRelease(es, id).value < o.idleTTL)
      && (t.tickets[id].closing <==> now - LastRelease(es, id).value >= o.idleTTL)
      && t.entries.Keys == s.entries.Keys && forall k :: k in s.entries && k != w.key ==> t.entries[k] == s.entries[k]
  {
    InitInv(o);
    EveryRunKeepsInv(Init(o), es);
    OptionsStay(Init(o), es);
    var id := s.entries[w.key].id;
    assert s.tickets[id].home == w.key && EntryOK(s.entries[w.key], s.tickets[id]);
    StampIsLastRelease(Init(o), es, id);
  }

  /** Over every run from the empty pool: the timer of an entry that was armed at its release at time t stops that
      entry if and only if it is idle, was not released again since, and the pool is open. */
  lemma {:induction false} TimerDecides(o: Options, es: seq<Event>, id: nat, since: int)
    requires o.Valid() && Runs(Init(o), es)
    ensures var s := After(Init(o), es);
      Enabled(s, Expire(id, since)) <==>
        !s.closed && Live(s, id) && !s.tickets[id].held && !s.tickets[id].creating && !s.tickets[id].closing
        && !s.entries[s.tickets[id].home].quarantined && LastRelease(es, id) == Some(since)
  {
    var s := After(Init(o), es);
    InitInv(o);
    EveryRunKeepsInv(Init(o), es);
    if Live(s, id) {
      StampIsLastRelease(Init(o), es, id);
      assert EntryOK(s.entries[s.tickets[id].home], s.tickets[id]);
    }
  }

  // ----- timers and shutdown ------------------------------------------------------------------

  /** In an open pool every idle entry has a timer and no leased one has; in a closed pool there are none. */
  predicate TimerFits(closed: bool, e: Entry) {
    if closed then !e.timer else (e.Reusable() ==> e.timer) && (e.leased ==> !e.timer)
  }

  predicate TimersFit(s: State) { forall k :: k in s.entries ==> TimerFits(s.closed, s.entries[k]) }

  lemma TimerAt(s: State, e: Event, k: Key)
    requires Inv(s) && Enabled(s, e) && InPlace(e) && k == Target(s, e)
    requires k in s.entries && TimerFits(s.closed, s.entries[k])
    ensures k in Apply(s, e).entries && TimerFits(s.closed, Apply(s, e).entries[k]) && Apply(s, e).closed == s.closed
  {
    assert EntryOK(s.entries[k], s.tickets[s.entries[k].id]);
  }

  lemma TimersInPlace(s: State, e: Event)
    requires Inv(s) && Enabled(s, e) && InPlace(e) && TimersFit(s)
    ensures TimersFit(Apply(s, e))
  {
    InPlaceKeeps(s, e);
    StampAt(s, e, Target(s, e));
    TimerAt(s, e, Target(s, e));
    forall j | j in Apply(s, e).entries ensures TimerFits(s.closed, Apply(s, e).entries[j]) {
      if j != Target(s, e) { InPlaceFrame(s, e, j); }
    }
  }

  lemma TimersOtherwise(s: State, e: Event)
    requires Indexed(s) && Enabled(s, e) && !InPlace(e) && TimersFit(s)
    ensures TimersFit(Apply(s, e)) && (Apply(s, e).closed <==> s.closed || e == Shutdown)
  {}

  /** Over every run: the pool is closed exactly if it was shut down; until then exactly the idle entries wait
      for their timers, among those in use or idle, and afterwards none does. */
  lemma {:induction false} TimersOverRuns(s: State, es: seq<Event>)
    requires Inv(s) && Runs(s, es) && TimersFit(s)
    ensures TimersFit(After(s, es)) && (After(s, es).closed <==> s.closed || Shutdown in es)
    decreases |es|
  {
    if es != [] {
      StepKeeps(s, es[0]);
      if InPlace(es[0]) {
        TimersInPlace(s, es[0]);
        StampAt(s, es[0], Target(s, es[0]));
        TimerAt(s, es[0], Target(s, es[0]));
      } else {
        TimersOtherwise(s, es[0]);
      }
      TimersOverRuns(Apply(s, es[0]), es[1..]);
      assert Shutdown in es <==> es[0] == Shutdown || Shutdown in es[1..];
    }
  }

  // ----- waiting ------------------------------------------------------------------------------

  predicate Passes(e: Event, w: Waiter) {
    (e.Reuse? || e.RetireStale? || e.Reserve? || e.BeginCreate? || e.BeginEvict?) && e.w == w
  }

  predicate Joins(e: Event, id: nat) { e.Enqueue? && e.w.id == id }

  lemma {:induction false} NotAsking(s: State, es: seq<Event>, id: nat)
    requires Runs(s, es) && id !in s.asking && forall i :: 0 <= i < |es| ==> !Joins(es[i], id)
    ensures id !in After(s, es).asking
    decreases |es|
  {
    if es != [] {
      assert !Joins(es[0], id);
      forall i | 0 <= i < |es[1..]| ensures !Joins(es[1..][i], id) { assert !Joins(es[i + 1], id); }
      NotAsking(Apply(s, es[0]), es[1..], id);
    }
  }

  /** A waiter that was given an entry, or that left, does nothing more until it joins the queue again. */
  lemma {:induction false} ServedOnce(s: State, e: Event, w: Waiter, es: seq<Event>, f: Event)
    requires Indexed(s) && Enabled(s, e) && (e == Leave(w) || ((e.Reuse? || e.Reserve? || e.BeginCreate?) && e.w == w))
    requires Runs(Apply(s, e), es) && forall i :: 0 <= i < |es| ==> !Joins(es[i], w.id)
    requires Enabled(After(Apply(s, e), es), f)
    ensures !Passes(f, w)
  {
    NotAsking(Apply(s, e), es, w.id);
  }

  predicate DistinctWaiters(q: seq<Waiter>) { forall i, j :: 0 <= i < j < |q| ==> q[i].id != q[j].id }

  lemma {:induction false} RemoveKeepsDistinct(q: seq<Waiter>, w: Waiter)
    requires DistinctWaiters(q)
    ensures DistinctWaiters(Remove(q, w)) && forall x :: x in Remove(q, w) ==> x in q
  {
    if q != [] && q[0] != w {
      RemoveKeepsDistinct(q[1..], w);
      var r := Remove(q[1..], w);
      forall j | 0 <= j < |r| ensures r[j].id != q[0].id {
        assert r[j] in q[1..];
        var k :| 0 <= k < |q[1..]| && q[1..][k] == r[j];
        assert q[k + 1] == r[j];
      }
    }
  }

  /** Over every run nobody waits twice under the same identity. */
  lemma {:induction false} QueueIsDistinct(s: State, es: seq<Event>)
    requires Runs(s, es) && DistinctWaiters(s.queue)
    ensures DistinctWaiters(After(s, es).queue)
    decreases |es|
  {
    if es != [] {
      if es[0].Leave? { RemoveKeepsDistinct(s.queue, es[0].w); }
      QueueIsDistinct(Apply(s, es[0]), es[1..]);
    }
  }

  predicate Ahead(q: seq<Waiter>, v: Waiter, w: Waiter) { exists i, j :: 0 <= i < j < |q| && q[i] == v && q[j] == w }

  lemma {:induction false} RemoveKeepsAhead(q: seq<Waiter>, x: Waiter, v: Waiter, w: Waiter)
    requires Ahead(q, v, w) && x != v && x != w
    ensures Ahead(Remove(q, x), v, w)
  {
    var i, j :| 0 <= i < j < |q| && q[i] == v && q[j] == w;
    if q[0] == x {
      assert q[1..][i - 1] == v && q[1..][j - 1] == w;
    } else {
      var r := Remove(q[1..], x);
      if i > 0 {
        assert q[1..][i - 1] == v && q[1..][j - 1] == w;
        RemoveKeepsAhead(q[1..], x, v, w);
        var k, l :| 0 <= k < l < |r| && r[k] == v && r[l] == w;
        assert ([q[0]] + r)[k + 1] == v && ([q[0]] + r)[l + 1] == w;
      } else {
        assert q[1..][j - 1] == w;
        RemoveKeepsOther(q[1..], x, w);
        var l :| 0 <= l < |r| && r[l] == w;
        assert ([q[0]] + r)[0] == v && ([q[0]] + r)[l + 1] == w;
      }
    }
  }

  lemma {:induction false} RemoveKeepsOther(q: seq<Waiter>, x: Waiter, w: Waiter)
    requires w in q && x != w
    ensures w in Remove(q, x)
  {
    if q[0] == w {
      assert ([q[0]] + Remove(q[1..], x))[0] == w;
    } else {
      assert w in q[1..];
      if q[0] != x { RemoveKeepsOther(q[1..], x, w); }
    }
  }

  /** First come, first in line: whoever joins stands behind everybody in the queue, and over every run one waiter
      stays ahead of another as long as neither leaves. */
  lemma JoinsBehind(s: State, v: Waiter, w: Waiter)
    requires Indexed(s) && Enabled(s, Enqueue(w)) && v in s.queue
    ensures Ahead(Apply(s, Enqueue(w)).queue, v, w)
  {
    var i :| 0 <= i < |s.queue| && s.queue[i] == v;
    var q := Apply(s, Enqueue(w)).queue;
    assert q[i] == v && q[|s.queue|] == w;
  }

  lemma {:induction false} StaysAhead(s: State, es: seq<Event>, v: Waiter, w: Waiter)
    requires Runs(s, es) && Ahead(s.queue, v, w)
    requires forall i :: 0 <= i < |es| ==> es[i] != Leave(v) && es[i] != Leave(w)
    ensures Ahead(After(s, es).queue, v, w)
    decreases |es|
  {
    if es != [] {
      var t := Apply(s, es[0]);
      if es[0].Leave? {
        RemoveKeepsAhead(s.queue, es[0].w, v, w);
      } else {
        var i, j :| 0 <= i < j < |s.queue| && s.queue[i] == v && s.queue[j] == w;
        assert t.queue[i] == v && t.queue[j] == w;
      }
      StaysAhead(t, es[1..], v, w);
    }
  }
}
