/** The manager object itself: each method is one section that runs under `m.mu`. */
module PoolManager {
  import opened Common
  import opened Pool
  import P = PoolProofs

  /** How one pass of the acquire loop ends. */
  datatype Outcome =
    | Refused                 // the manager is closed
    | Leased(id: nat)         // a lease is handed out
    | MustCreate(id: nat)     // the caller goes on to the factory
    | MustStop(id: nat)       // the caller stops this entry and tries again
    | MustWait                // not this waiter's turn

  class Manager {
    const options: Options
    var entries: map<Key, Entry>
    var queue: seq<Waiter>
    var closed: bool
    var issued: nat
    ghost var tickets: seq<Ticket>
    ghost var asking: set<nat>

    ghost function View(): State
      reads this
    {
      State(options, entries, queue, closed, tickets, asking)
    }

    ghost predicate Valid()
      reads this
    {
      Indexed(View()) && issued == |tickets|
    }

    /** The new state is exactly what the event makes of the old one; PoolProofs.StepKeeps then
        carries the invariant over. */
    twostate predicate Did(e: Event)
      reads this
    {
      && old(Valid()) && Valid()
      && Enabled(old(View()), e) && View() == Apply(old(View()), e)
    }

    constructor (o: Options)
      requires o.Valid()
      ensures Valid() && View() == Init(o)
    {
      options, entries, queue, closed, issued := o, map[], [], false, 0;
      tickets, asking := [], {};
    }

    // ----- read-only scans of the map ---------------------------------------------------

    method OccupiedConversation(k: Key) returns (occupied: bool)
      ensures occupied == Occupied(entries, k)
    {
      var rest := entries.Keys;
      while rest != {}
        invariant rest <= entries.Keys
        invariant forall j :: j in entries.Keys - rest ==> !(SameConversation(j, k) && entries[j].Busy())
        decreases rest
      {
        var j :| j in rest;
        if SameConversation(j, k) && entries[j].Busy() { return true; }
        rest := rest - {j};
      }
      return false;
    }

    method Room(k: Key) returns (fits: bool)
      ensures fits == Fits(options, entries.Keys, k)
    {
      var total, tenant, ordinary, tenantOrdinary := 0, 0, 0, 0;
      var rest := entries.Keys;
      ghost var seen: set<Key> := {};
      assert OfTenant(seen, k.tenant) == {} && Ordinary(seen) == {} && Ordinary({}) == {};
      while rest != {}
        invariant seen + rest == entries.Keys && seen !! rest
        invariant total == |seen| && tenant == |OfTenant(seen, k.tenant)|
        invariant ordinary == |Ordinary(seen)| && tenantOrdinary == |Ordinary(OfTenant(seen, k.tenant))|
        decreases rest
      {
        var j :| j in rest;
        P.AddedToTenant(seen, j, k.tenant);
        P.AddedToOrdinary(seen, j);
        P.AddedToOrdinary(OfTenant(seen, k.tenant), j);
        total := total + 1;
        if j.tenant == k.tenant { tenant := tenant + 1; }
        if j.kind != Validation {
          ordinary := ordinary + 1;
          if j.tenant == k.tenant { tenantOrdinary := tenantOrdinary + 1; }
        }
        rest := rest - {j};
        seen := seen + {j};
      }
      assert seen == entries.Keys;
      if total >= options.maxInstances || tenant >= options.maxPerTenant { return false; }
      return k.kind == Validation
          || (ordinary < options.maxInstances - options.reserved
              && tenantOrdinary < options.maxPerTenant - options.reservedPerTenant);
    }

    method TenantExhausted(k: Key) returns (ownOnly: bool)
      ensures ownOnly == OwnOnly(options, entries.Keys, k)
    {
      var tenant, ordinary := 0, 0;
      var rest := entries.Keys;
      ghost var seen: set<Key> := {};
      assert OfTenant(seen, k.tenant) == {} && Ordinary({}) == {};
      while rest != {}
        invariant seen + rest == entries.Keys && seen !! rest
        invariant tenant == |OfTenant(seen, k.tenant)| && ordinary == |Ordinary(OfTenant(seen, k.tenant))|
        decreases rest
      {
        var j :| j in rest;
        P.AddedToTenant(seen, j, k.tenant);
        P.AddedToOrdinary(OfTenant(seen, k.tenant), j);
        if j.tenant == k.tenant {
          tenant := tenant + 1;
          if j.kind != Validation { ordinary := ordinary + 1; }
        }
        rest := rest - {j};
        seen := seen + {j};
      }
      assert seen == entries.Keys;
      return tenant >= options.maxPerTenant
          || (k.kind != Validation && ordinary >= options.maxPerTenant - options.reservedPerTenant);
    }

    method Evictable(k: Key) returns (oldest: Option<Key>)
      ensures oldest.None? ==> !SomeCandidate(options, entries, k)
      ensures oldest.Some? ==> Victim(options, entries, k, oldest.value)
    {
      var ownOnly := TenantExhausted(k);
      oldest := None;
      var rest := entries.Keys;
      while rest != {}
        invariant rest <= entries.Keys
        invariant oldest.None? ==> forall u :: u in entries.Keys - rest ==> !Candidate(options, entries, k, u)
        invariant oldest.Some? ==> Candidate(options, entries, k, oldest.value)
        invariant oldest.Some? ==> forall u :: u in entries.Keys - rest && Candidate(options, entries, k, u) ==>
          entries[oldest.value].idleSince <= entries[u].idleSince
        decreases rest
      {
        var j :| j in rest;
        rest := rest - {j};
        if entries[j].Reusable() && (ownOnly ==> j.tenant == k.tenant) {
          if oldest.None? || entries[j].idleSince < entries[oldest.value].idleSince {
            oldest := Some(j);
          }
        }
      }
    }

    method Next() returns (w: Option<Waiter>)
      ensures w == Turn(options, entries, queue)
    {
      var i := 0;
      while i < |queue|
        invariant 0 <= i <= |queue|
        invariant Turn(options, entries, queue) == Turn(options, entries, queue[i..])
      {
        var k := queue[i].key;
        var occupied := OccupiedConversation(k);
        if !occupied {
          var fits := Room(k);
          var victim := Evictable(k);
          if (k in entries && entries[k].Reusable()) || fits || victim.Some? {
            return Some(queue[i]);
          }
        }
        i := i + 1;
      }
      return None;
    }

    // ----- joining and leaving the queue --------------------------------------------------

    method Enqueue(w: Waiter)
      requires Valid() && Pool.Enabled(View(), Event.Enqueue(w))
      modifies this
      ensures Did(Event.Enqueue(w)) && queue == old(queue) + [w]
    {
      queue, asking := queue + [w], asking + {w.id};
    }

    method Leave(w: Waiter)
      requires Valid() && w in queue
      modifies this
      ensures Did(Event.Leave(w))
      ensures exists i :: 0 <= i < |old(queue)| && old(queue)[i] == w && queue == old(queue)[..i] + old(queue)[i + 1..]
    {
      var i := 0;
      while queue[i] != w
        invariant 0 <= i < |queue| && w !in queue[..i]
        decreases |queue| - i
      {
        i := i + 1;
      }
      RemoveFirst(queue, w, i);
      queue := queue[..i] + queue[i + 1..];
      asking := asking - {w.id};
    }

    // ----- one pass of the acquire loop ---------------------------------------------------

    /** Marks an entry closing; the caller now owes its Stop. */
    method BeginClose(k: Key, ghost e: Event)
      requires Valid() && k in entries && Pool.Enabled(View(), e)
      requires Apply(View(), e) == Pool.BeginClose(View(), k)
      modifies this
      ensures Did(e) && View() == Pool.BeginClose(old(View()), k)
    {
      var x := entries[k];
      entries := entries[k := x.(leased := false, creating := false, closing := true)];
      tickets := tickets[x.id := tickets[x.id].(held := false, creating := false, closing := true)];
    }

    method GrantIdle(w: Waiter, now: int)
      requires Valid() && Pool.Enabled(View(), Reuse(w, now))
      modifies this
      ensures Did(Reuse(w, now))
    {
      var e := entries[w.key];
      entries := entries[w.key := e.(leased := true, timer := false)];
      tickets, asking := tickets[e.id := tickets[e.id].(held := true)], asking - {w.id};
    }

    method GrantNew(w: Waiter, ghost e: Event) returns (id: nat)
      requires Valid() && e == (if w.reservation then Reserve(w) else BeginCreate(w)) && Pool.Enabled(View(), e)
      modifies this
      ensures Did(e) && id == |old(tickets)|
    {
      id := issued;
      entries := entries[w.key := Entry(id, false, true, !w.reservation, false, false, false, 0, false)];
      issued := issued + 1;
      tickets := tickets + [Ticket(w.key, w.reservation, !w.reservation, false, false, 0, false)];
      asking := asking - {w.id};
    }

    /** Retires the oldest entry the waiter may displace; there is one, as it is w's turn. */
    method MakeRoom(w: Waiter, ghost now: int) returns (id: nat, ghost v: Key)
      requires Valid() && MyTurn(View(), w) && !HasIdle(View(), w.key) && !Fits(options, entries.Keys, w.key)
      modifies this
      ensures Did(BeginEvict(w, v)) && v in old(entries) && id == old(entries)[v].id
      ensures entries == old(entries)[v := old(entries)[v].(closing := true)]
    {
      var victim := Evictable(w.key);
      P.TurnIsNeverBlocked(View(), w, now);
      v := victim.value;
      id := entries[victim.value].id;
      BeginClose(victim.value, BeginEvict(w, v));
    }

    method ReuseOrRetire(w: Waiter, now: int) returns (id: nat, young: bool)
      requires Valid() && MyTurn(View(), w) && HasIdle(View(), w.key)
      modifies this
      ensures Did(if young then Reuse(w, now) else RetireStale(w, now))
      ensures id == old(entries[w.key].id) && (young <==> now - old(entries[w.key].idleSince) < options.idleTTL)
      ensures entries == old(entries)[w.key :=
        if young then old(entries[w.key]).(leased := true, timer := false) else old(entries[w.key]).(closing := true)]
    {
      id := entries[w.key].id;
      young := now - entries[w.key].idleSince < options.idleTTL;
      if young {
        GrantIdle(w, now);
      } else {
        BeginClose(w.key, RetireStale(w, now));
      }
    }

    /** The event a pass performed, when it performed one. */
    static predicate Explains(w: Waiter, now: int, out: Outcome, e: Event) {
      match out
      case Refused => false
      case MustWait => false
      case Leased(_) => e == Reuse(w, now) || e == Reserve(w)
      case MustCreate(_) => e == BeginCreate(w)
      case MustStop(_) => e == RetireStale(w, now) || (e.BeginEvict? && e.w == w)
    }

    /** An entry is stopped to make room: no entry that may be displaced has been idle for longer. A tenant at
        its own limit displaces only its own entries. */
    static predicate Displaced(o: Options, es: map<Key, Entry>, k: Key, v: Key) {
      && v in es && es[v].Reusable()
      && var own := OwnOnly(o, es.Keys, k);
         && (own ==> v.tenant == k.tenant)
         && forall u :: u in es && es[u].Reusable() && (own ==> u.tenant == k.tenant) ==> es[v].idleSince <= es[u].idleSince
    }

    method TryAcquire(w: Waiter, now: int) returns (out: Outcome, ghost e: Event)
      requires Valid() && w.id in asking
      modifies this
      ensures !out.Refused? && !out.MustWait? ==> Explains(w, now, out, e) && Did(e)
      // Who is served: nobody once the manager is closed, and otherwise whoever has the turn.
      ensures out.Refused? <==> old(closed)
      ensures !old(closed) ==> (out.MustWait? <==> Turn(options, old(entries), old(queue)) != Some(w))
      ensures out.Refused? || out.MustWait? ==> View() == old(View())
      // An idle entry under the waiter's own key is leased while it is young, and stopped once it is not.
      ensures !out.Refused? && !out.MustWait? && w.key in old(entries) && old(entries[w.key]).Reusable() ==>
        && (out.Leased? <==> now - old(entries[w.key]).idleSince < options.idleTTL)
        && (out.MustStop? <==> now - old(entries[w.key]).idleSince >= options.idleTTL)
        && out.id == old(entries[w.key]).id
        && entries == old(entries)[w.key := if out.Leased? then old(entries[w.key]).(leased := true, timer := false)
                                            else old(entries[w.key]).(closing := true)]
      // Without one, a key that fits gets an entry of its own, and any other the room of one that is stopped.
      ensures !out.Refused? && !out.MustWait? && !(w.key in old(entries) && old(entries[w.key]).Reusable()) ==>
        && w.key !in old(entries)
        && (out.MustStop? <==> !Fits(options, old(entries).Keys, w.key))
        && (out.Leased? <==> w.reservation && Fits(options, old(entries).Keys, w.key))
        && (!out.MustStop? ==>
          && out.id == old(issued)
          && entries == old(entries)[w.key := Entry(out.id, false, true, !w.reservation, false, false, false, 0, false)])
        && (out.MustStop? ==> exists v ::
          && Displaced(options, old(entries), w.key, v) && out.id == old(entries)[v].id
          && entries == old(entries)[v := old(entries)[v].(closing := true)])
      ensures out.Leased? ==> out.id < |tickets| && tickets[out.id].held
      ensures out.MustCreate? ==> out.id < |tickets| && tickets[out.id].creating
      ensures out.MustStop? ==> out.id < |tickets| && tickets[out.id].closing
    {
      e := Shutdown;
      if closed { return Refused, e; }
      var turn := Next();
      if turn != Some(w) { return MustWait, e; }
      if w.key in entries && entries[w.key].Reusable() {
        var id, reused := ReuseOrRetire(w, now);
        return if reused then Leased(id) else MustStop(id), if reused then Reuse(w, now) else RetireStale(w, now);
      }
      P.GrantOverwritesNothing(View(), w);
      var fits := Room(w.key);
      if fits {
        e := if w.reservation then Reserve(w) else BeginCreate(w);
        var id := GrantNew(w, e);
        return if w.reservation then Leased(id) else MustCreate(id), e;
      }
      var id, v := MakeRoom(w, now);
      assert Displaced(options, old(entries), w.key, v);
      return MustStop(id), BeginEvict(w, v);
    }

    // ----- leases, timers and the end of slow calls ----------------------------------------

    method ReleaseLease(id: nat, k: Key, now: int)
      requires Valid() && Pool.Enabled(View(), Release(id, now)) && tickets[id].home == k
      modifies this
      ensures Did(Release(id, now))
      ensures entries == old(entries)[k := old(entries[k]).(leased := false, idleSince := now, timer := !closed)]
    {
      entries := entries[k := entries[k].(leased := false, idleSince := now, timer := !closed)];
      tickets := tickets[id := tickets[id].(held := false)];
    }

    method StopLeased(id: nat, k: Key)
      requires Valid() && Pool.Enabled(View(), StopLease(id)) && tickets[id].home == k
      modifies this
      ensures Did(StopLease(id))
      ensures entries == old(entries)[k := old(entries[k]).(leased := false, creating := false, closing := true)]
    {
      BeginClose(k, StopLease(id));
    }

    /** The idle timer of entry `id` fires; it acts only if nothing happened to the entry since. */
    method TimerFired(id: nat, k: Key, since: int) returns (stop: bool)
      requires Valid() && id < |tickets| && tickets[id].home == k
      modifies this
      ensures if stop then Did(Expire(id, since)) else View() == old(View()) && Valid()
      ensures stop <==>
        && !closed && k in old(entries) && old(entries[k]).id == id && old(entries[k]).Reusable()
        && old(entries[k]).idleSince == since
      ensures stop ==> entries == old(entries)[k := old(entries[k]).(closing := true, timer := false)]
    {
      if closed || k !in entries || entries[k].id != id || !entries[k].Reusable() || entries[k].idleSince != since {
        return false;
      }
      entries := entries[k := entries[k].(closing := true, timer := false)];
      tickets := tickets[id := tickets[id].(closing := true)];
      return true;
    }

    method KeepCreated(id: nat, k: Key)
      requires Valid() && Pool.Enabled(View(), CreateOk(id)) && tickets[id].home == k
      modifies this
      ensures Did(CreateOk(id)) && closed == old(closed)
    {
      entries := entries[k := entries[k].(hasRuntime := true, creating := false)];
      tickets := tickets[id := tickets[id].(creating := false, held := true, ran := true)];
    }

    method DropCreated(id: nat, k: Key, hasRuntime: bool)
      requires Valid() && Pool.Enabled(View(), CreateFailed(id, hasRuntime)) && tickets[id].home == k
      modifies this
      ensures Did(CreateFailed(id, hasRuntime)) && closed == old(closed)
    {
      entries := entries[k := entries[k].(hasRuntime := hasRuntime, creating := false, leased := false, closing := true)];
      tickets := tickets[id := tickets[id].(creating := false, closing := true, ran := hasRuntime)];
    }

    /** The factory call returned. A manager closed meanwhile turns success into failure. */
    method Created(id: nat, k: Key, hasRuntime: bool, failed: bool) returns (leased: bool)
      requires Valid() && Live(View(), id) && tickets[id].creating && tickets[id].home == k
      modifies this
      ensures leased <==> hasRuntime && !failed && !old(closed)
      ensures Did(if leased then CreateOk(id) else CreateFailed(id, hasRuntime))
      ensures entries == old(entries)[k :=
        if leased then old(entries[k]).(hasRuntime := true, creating := false)
        else old(entries[k]).(hasRuntime := hasRuntime, creating := false, leased := false, closing := true)]
    {
      leased := hasRuntime && !failed && !closed;
      if leased {
        KeepCreated(id, k);
      } else {
        DropCreated(id, k, hasRuntime);
      }
    }

    /** The Stop call of closeEntry returned. */
    method Stopped(id: nat, k: Key, ok: bool)
      requires Valid() && Pool.Enabled(View(), StopDone(id, ok)) && tickets[id].home == k
      modifies this
      ensures Did(StopDone(id, ok))
      ensures ok ==> entries == old(entries) - {k} && tickets[id].retired
      ensures !ok ==> entries == old(entries)[k := old(entries[k]).(closing := false, quarantined := true, stopErr := true)]
      ensures tickets[id].stops == old(tickets)[id].stops + if old(entries[k]).hasRuntime then 1 else 0
    {
      var x := entries[k];
      if ok {
        entries := entries - {k};
      } else {
        entries := entries[k := x.(closing := false, quarantined := true, stopErr := true)];
      }
      tickets := tickets[id := tickets[id].(closing := false, stops := tickets[id].stops + (if x.hasRuntime then 1 else 0),
                                            retired := tickets[id].retired || ok)];
    }

    // ----- Close ----------------------------------------------------------------------------

    /** Every timer is stopped. */
    method DisarmTimers()
      modifies `entries
      ensures entries == ClearTimers(old(entries))
    {
      var rest := entries.Keys;
      ghost var before := entries;
      while rest != {}
        invariant rest <= before.Keys && entries.Keys == before.Keys
        invariant forall k :: k in before ==>
          entries[k] == if k in rest then before[k] else before[k].(timer := false)
        decreases rest
      {
        var k :| k in rest;
        entries := entries[k := entries[k].(timer := false)];
        rest := rest - {k};
      }
      assert entries == ClearTimers(before);
    }

    method BeginShutdown()
      requires Valid()
      modifies this
      ensures Did(Shutdown) && closed && entries.Keys == old(entries).Keys
      ensures forall k :: k in entries ==> entries[k] == old(entries)[k].(timer := false)
    {
      closed := true;
      DisarmTimers();
    }

    method FindReusable() returns (found: Option<Key>)
      ensures found.Some? ==> found.value in entries && entries[found.value].Reusable()
      ensures found.None? ==> forall k :: k in entries ==> !entries[k].Reusable()
    {
      var rest := entries.Keys;
      while rest != {}
        invariant rest <= entries.Keys
        invariant forall k :: k in entries.Keys - rest ==> !entries[k].Reusable()
        decreases rest
      {
        var k :| k in rest;
        if entries[k].Reusable() { return Some(k); }
        rest := rest - {k};
      }
      found := None;
    }

    /** Whether some entry is still busy, and whether some Stop failed. */
    method Survey() returns (active: bool, failed: bool)
      ensures active <==> exists k :: k in entries && P.Active(entries[k])
      ensures failed <==> exists k :: k in entries && entries[k].stopErr
    {
      active, failed := false, false;
      var rest := entries.Keys;
      while rest != {}
        invariant rest <= entries.Keys
        invariant active <==> exists k :: k in entries.Keys - rest && P.Active(entries[k])
        invariant failed <==> exists k :: k in entries.Keys - rest && entries[k].stopErr
        decreases rest
      {
        var k :| k in rest;
        if entries[k].stopErr { failed := true; }
        if entries[k].leased || entries[k].creating || entries[k].closing { active := true; }
        rest := rest - {k};
      }
    }

    /** One pass of Close's loop: stop one idle entry, keep waiting, or return. A return without
        error means the map is empty. */
    method ClosePass() returns (stop: Option<Key>, active: bool, failed: bool)
      requires Valid() && P.Inv(View()) && closed
      modifies this
      ensures Valid()
      ensures stop.Some? ==> Did(ShutdownPick(stop.value))
      ensures stop.Some? <==> exists k :: k in old(entries) && old(entries)[k].Reusable()
      ensures stop.Some? ==> stop.value in old(entries)
      ensures stop.Some? ==> entries == old(entries)[stop.value := old(entries)[stop.value].(closing := true)]
      ensures stop.None? ==> View() == old(View())
      ensures stop.None? && !active ==> (failed <==> entries != map[])
      ensures stop.None? && active ==> exists k :: k in entries && P.Active(entries[k])
    {
      stop := FindReusable();
      if stop.Some? {
        BeginClose(stop.value, ShutdownPick(stop.value));
        return stop, true, false;
      }
      active, failed := Survey();
      if !active { P.CloseReturnsNilIffEmpty(View()); }
    }
  }

  lemma {:induction false} RemoveFirst(q: seq<Waiter>, w: Waiter, i: nat)
    requires i < |q| && q[i] == w && w !in q[..i]
    ensures Remove(q, w) == q[..i] + q[i + 1..]
  {
    if i > 0 {
      assert q[0] in q[..i];
      assert q[1..][..i - 1] == q[..i][1..];
      RemoveFirst(q[1..], w, i - 1);
    }
  }
}
