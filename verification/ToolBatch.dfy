/** One batch of tool calls: what is rejected, how the rest is scheduled in waves, and how the results
    come back together (pi/loop.go, pi/toolexec). */
module ToolBatch {
  import opened Common
  import opened Messages

  const MAX_SUBAGENT_CALLS: nat := 8

  /** A slot of the result list: still empty, or the end of the call it belongs to. */
  datatype ToolEvent = Missing | Ended(call: Call, content: seq<Block>, isError: bool)

  // ----- planning -----------------------------------------------------------------------------

  /** The tools visible in this turn, and those of them that are subagents. */
  datatype Tools = Tools(available: set<string>, subagents: set<string>)

  predicate IsSubagentCall(t: Tools, c: Call) { c.name in t.available && c.name in t.subagents }

  function SubagentCalls(t: Tools, calls: seq<Call>): nat {
    if calls == [] then 0
    else SubagentCalls(t, calls[..|calls| - 1]) + if IsSubagentCall(t, calls[|calls| - 1]) then 1 else 0
  }

  /** A call goes through if its tool is visible and, for a subagent, the quota is not yet used up. */
  predicate Kept(t: Tools, calls: seq<Call>, i: nat)
    requires i < |calls|
  {
    calls[i].name in t.available && (calls[i].name in t.subagents ==> SubagentCalls(t, calls[..i]) < MAX_SUBAGENT_CALLS)
  }

  /** Of the first `n` calls those that go through, in order. */
  function Runnable(t: Tools, calls: seq<Call>, n: nat): seq<Call>
    requires n <= |calls|
  {
    if n == 0 then [] else Runnable(t, calls, n - 1) + if Kept(t, calls, n - 1) then [calls[n - 1]] else []
  }

  function Rejection(c: Call, text: string): ToolEvent { Ended(c, [Text(text)], true) }

  /** What a call that does not go through is told. */
  function Refusal(t: Tools, c: Call): ToolEvent {
    Rejection(c, if c.name in t.available then "over the batch quota" else "not available")
  }

  datatype Plan = Plan(runnable: seq<Call>, origin: seq<nat>, rejected: map<nat, ToolEvent>, silent: set<nat>)

  predicate Ascending(s: seq<nat>) { forall i, j :: 0 <= i < j < |s| ==> s[i] < s[j] }

  predicate PlannedCall(t: Tools, calls: seq<Call>, p: Plan, i: nat)
    requires i < |calls|
  {
    && (Kept(t, calls, i) <==> i in p.origin)
    && (i in p.rejected <==> !Kept(t, calls, i))
    && (i in p.rejected ==> p.rejected[i] == Refusal(t, calls[i]))
    && (i in p.silent <==> calls[i].name !in t.available)
  }

  /** The first `n` calls are split between the runnable ones and the rejected ones. */
  predicate Planned(t: Tools, calls: seq<Call>, p: Plan, n: nat)
    requires n <= |calls|
  {
    && p.runnable == Runnable(t, calls, n) && |p.runnable| == |p.origin| && Ascending(p.origin)
    && (forall k :: 0 <= k < |p.origin| ==> p.origin[k] < n && p.runnable[k] == calls[p.origin[k]])
    && (forall k :: 0 <= k < |p.origin| ==> |Runnable(t, calls, p.origin[k])| == k)
    && (forall i :: i in p.rejected ==> i < n)
    && (forall i :: i in p.silent ==> i < n)
    && (forall i: nat :: i < n ==> PlannedCall(t, calls, p, i))
  }

  function Reject(p: Plan, n: nat, e: ToolEvent, silent: bool): Plan {
    p.(rejected := p.rejected[n := e], silent := if silent then p.silent + {n} else p.silent)
  }

  function Keep(p: Plan, n: nat, c: Call): Plan { p.(runnable := p.runnable + [c], origin := p.origin + [n]) }

  lemma PlannedReject(t: Tools, calls: seq<Call>, p: Plan, n: nat, silent: bool)
    requires n < |calls| && Planned(t, calls, p, n) && !Kept(t, calls, n)
    requires silent <==> calls[n].name !in t.available
    ensures Planned(t, calls, Reject(p, n, Refusal(t, calls[n]), silent), n + 1)
  {
    var q := Reject(p, n, Refusal(t, calls[n]), silent);
    forall i: nat | i < n + 1 ensures PlannedCall(t, calls, q, i) {
      if i < n { assert PlannedCall(t, calls, p, i); }
    }
  }

  lemma PlannedKeep(t: Tools, calls: seq<Call>, p: Plan, n: nat)
    requires n < |calls| && Planned(t, calls, p, n) && Kept(t, calls, n)
    ensures Planned(t, calls, Keep(p, n, calls[n]), n + 1)
  {
    var q := Keep(p, n, calls[n]);
    assert q.origin[|p.origin|] == n;
    forall i: nat | i < n + 1 ensures PlannedCall(t, calls, q, i) {
      if i < n { assert PlannedCall(t, calls, p, i); }
    }
  }

  method PlanToolBatch(t: Tools, calls: seq<Call>) returns (p: Plan)
    ensures Planned(t, calls, p, |calls|)
    ensures forall i: nat :: i in p.silent <==> i < |calls| && calls[i].name !in t.available
    ensures forall i: nat :: i in p.rejected <==> i < |calls| && !Kept(t, calls, i)
    ensures forall j, k :: 0 <= j < k < |p.origin| ==> p.origin[j] < p.origin[k]
  {
    p := Plan([], [], map[], {});
    var subagentSeen := 0;
    for index := 0 to |calls|
      invariant subagentSeen == SubagentCalls(t, calls[..index])
      invariant Planned(t, calls, p, index)
    {
      var call := calls[index];
      assert calls[..index + 1][..index] == calls[..index];
      if call.name !in t.available {
        PlannedReject(t, calls, p, index, true);
        p := Reject(p, index, Rejection(call, "not available"), true);
        continue;
      }
      if call.name in t.subagents {
        subagentSeen := subagentSeen + 1;
        if subagentSeen > MAX_SUBAGENT_CALLS {
          PlannedReject(t, calls, p, index, false);
          p := Reject(p, index, Rejection(call, "over the batch quota"), false);
          continue;
        }
      }
      PlannedKeep(t, calls, p, index);
      p := Keep(p, index, call);
    }
    forall i: nat | i < |calls|
      ensures (i in p.silent <==> calls[i].name !in t.available) && (i in p.rejected <==> !Kept(t, calls, i))
    {
      assert PlannedCall(t, calls, p, i);
    }
  }

  lemma {:induction false} CountGrows(t: Tools, calls: seq<Call>, i: nat, j: nat)
    requires i <= j <= |calls|
    ensures SubagentCalls(t, calls[..i]) <= SubagentCalls(t, calls[..j])
    ensures i < j && IsSubagentCall(t, calls[i]) ==> SubagentCalls(t, calls[..i]) < SubagentCalls(t, calls[..j])
    decreases j
  {
    if i < j {
      assert calls[..j][..j - 1] == calls[..j - 1];
      CountGrows(t, calls, i, j - 1);
    }
  }

  /** Of the visible subagent calls exactly the first eight go through; every other visible call does. */
  lemma {:induction false} FirstEightAreKept(t: Tools, calls: seq<Call>, i: nat)
    requires i < |calls| && calls[i].name in t.available
    ensures calls[i].name !in t.subagents ==> Kept(t, calls, i)
    ensures Kept(t, calls, i) && IsSubagentCall(t, calls[i]) ==>
      forall j :: 0 <= j < i && IsSubagentCall(t, calls[j]) ==> Kept(t, calls, j)
    ensures !Kept(t, calls, i) ==> SubagentCalls(t, calls[..i]) >= MAX_SUBAGENT_CALLS
  {
    forall j | 0 <= j < i ensures SubagentCalls(t, calls[..j]) <= SubagentCalls(t, calls[..i]) {
      CountGrows(t, calls, j, i);
    }
  }

  // ----- waves --------------------------------------------------------------------------------

  /** Where the wave that starts at `s` ends: a run of parallel-safe calls, or one call alone. */
  function WaveEnd(calls: seq<Call>, safe: set<string>, s: nat): (e: nat)
    requires s < |calls|
    ensures s < e <= |calls|
    decreases |calls| - s
  {
    if calls[s].name in safe && s + 1 < |calls| && calls[s + 1].name in safe then WaveEnd(calls, safe, s + 1) else s + 1
  }

  /** A wave of more than one call holds safe calls only, and is as long as it can be. */
  lemma {:induction false} WaveIs(calls: seq<Call>, safe: set<string>, s: nat)
    requires s < |calls|
    ensures var e := WaveEnd(calls, safe, s);
      && (e > s + 1 ==> forall i :: s <= i < e ==> calls[i].name in safe)
      && (e < |calls| ==> !(calls[e - 1].name in safe && calls[e].name in safe))
    decreases |calls| - s
  {
    if WaveEnd(calls, safe, s) > s + 1 { WaveIs(calls, safe, s + 1); }
  }

  /** What happens to the call in a slot: it is skipped or refused because the batch was cancelled, it runs,
      or it is cut short with an error of its own. */
  datatype Slot = Skipped | Refused | Ran(content: seq<Block>, isError: bool) | Cut(content: seq<Block>, isError: bool)

  /** The outside of a batch: what becomes of each call, and whether the context is cancelled by the time
      the calls before a position have been dealt with. */
  datatype World = World(slot: nat -> Slot, cancelled: nat -> bool)

  /** A call is skipped only under a cancelled context, and a cancelled context stays cancelled. */
  ghost predicate Honest(w: World) {
    && (forall i: nat, e: nat :: w.slot(i).Skipped? && i < e ==> w.cancelled(e))
    && (forall i: nat, j: nat :: i <= j && w.cancelled(i) ==> w.cancelled(j))
  }

  function EventOf(calls: seq<Call>, w: World, i: nat): ToolEvent
    requires i < |calls|
  {
    match w.slot(i)
    case Ran(content, isError) => Ended(calls[i], content, isError)
    case Cut(content, isError) => Ended(calls[i], content, isError)
    case _ => Missing
  }

  predicate Fails(s: Slot) { s.Refused? || s.Cut? }

  predicate Covers(order: seq<nat>, start: nat, end: nat) {
    && (forall k :: 0 <= k < |order| ==> start <= order[k] < end)
    && (forall i: nat :: start <= i < end ==> i in order)
  }

  /** One wave, its calls ending in the given order: the slots it fills do not depend on that order. */
  method ExecuteWave(calls: seq<Call>, results: array<ToolEvent>, w: World, start: nat, end: nat, order: seq<nat>)
    returns (ok: bool)
    requires start < end <= |calls| == results.Length && Covers(order, start, end) && Honest(w)
    modifies results
    ensures forall i :: 0 <= i < |calls| && !(start <= i < end) ==> results[i] == old(results[i])
    ensures forall i :: start <= i < end && !w.slot(i).Skipped? ==> results[i] == EventOf(calls, w, i)
    ensures forall i :: start <= i < end && (w.slot(i).Ran? || w.slot(i).Cut?) ==>
      results[i] == Ended(calls[i], w.slot(i).content, w.slot(i).isError)
    ensures ok <==> (forall i :: start <= i < end ==> w.slot(i).Ran?) && !w.cancelled(end)
  {
    for k := 0 to |order|
      invariant forall i :: 0 <= i < |calls| && !(start <= i < end) ==> results[i] == old(results[i])
      invariant forall i :: start <= i < end && i in order[..k] && !w.slot(i).Skipped? ==> results[i] == EventOf(calls, w, i)
    {
      var index := order[k];
      if !w.slot(index).Skipped? { results[index] := EventOf(calls, w, index); }
    }
    assert order[..|order|] == order;
    for i := start to end
      invariant forall j :: start <= j < i ==> !Fails(w.slot(j))
    {
      if Fails(w.slot(i)) { return false; }
    }
    ok := !w.cancelled(end);
    if ok {
      forall i | start <= i < end ensures w.slot(i).Ran? { assert !Fails(w.slot(i)); }
    }
  }

  /** Every call runs to its end and nothing is cancelled. */
  ghost predicate Completes(calls: seq<Call>, w: World) {
    (forall i :: 0 <= i < |calls| ==> w.slot(i).Ran?) && (calls != [] ==> !w.cancelled(|calls|))
  }

  predicate Scheduled(calls: seq<Call>, w: World, results: seq<ToolEvent>) {
    |results| == |calls| && forall i :: 0 <= i < |calls| ==> w.slot(i).Ran? && results[i] == EventOf(calls, w, i)
  }

  /** All waves, in order. Either every call has its result, in the order of the calls, or there is none. */
  method Schedule(calls: seq<Call>, safe: set<string>, w: World, orders: (nat, nat) -> seq<nat>)
    returns (results: Option<seq<ToolEvent>>)
    requires Honest(w) && forall s: nat, e: nat :: Covers(orders(s, e), s, e)
    ensures results.Some? <==> (forall i :: 0 <= i < |calls| ==> w.slot(i).Ran?) && (calls == [] || !w.cancelled(|calls|))
    ensures results.Some? ==> Scheduled(calls, w, results.value)
    ensures results.Some? ==> forall i :: 0 <= i < |calls| ==>
      results.value[i] == Ended(calls[i], w.slot(i).content, w.slot(i).isError)
  {
    var cells := new ToolEvent[|calls|](_ => Missing);
    var start := 0;
    while start < |calls|
      invariant start <= |calls|
      invariant forall i :: 0 <= i < start ==> w.slot(i).Ran? && cells[i] == EventOf(calls, w, i)
      invariant start > 0 ==> !w.cancelled(start)
      decreases |calls| - start
    {
      if w.cancelled(start) { return None; }
      var end := start + 1;
      if calls[start].name in safe {
        while end < |calls| && calls[end].name in safe
          invariant start < end <= |calls|
          invariant forall i :: start <= i < end ==> calls[i].name in safe
          invariant WaveEnd(calls, safe, end - 1) == WaveEnd(calls, safe, start)
        {
          end := end + 1;
        }
      }
      assert end == WaveEnd(calls, safe, start);
      var ok := ExecuteWave(calls, cells, w, start, end, orders(start, end));
      if !ok { return None; }
      start := end;
    }
    results := Some(cells[..]);
  }

  // ----- merging ------------------------------------------------------------------------------

  predicate ResultsMatchCalls(calls: seq<Call>, events: seq<ToolEvent>) {
    && |calls| == |events|
    && forall i :: 0 <= i < |calls| ==>
      events[i].Ended? && events[i].call.id == calls[i].id && events[i].call.name == calls[i].name
  }

  method CheckAlignment(calls: seq<Call>, events: seq<ToolEvent>) returns (ok: bool)
    ensures ok == ResultsMatchCalls(calls, events)
    ensures ok <==> |calls| == |events| && forall i :: 0 <= i < |calls| ==>
      events[i].Ended? && events[i].call.id == calls[i].id && events[i].call.name == calls[i].name
  {
    if |calls| != |events| { return false; }
    for index := 0 to |calls|
      invariant forall i :: 0 <= i < index ==>
        events[i].Ended? && events[i].call.id == calls[i].id && events[i].call.name == calls[i].name
    {
      if !events[index].Ended? || calls[index].id != events[index].call.id || calls[index].name != events[index].call.name {
        return false;
      }
    }
    ok := true;
  }

  /** Scheduled results at their original places, rejections at theirs. */
  method Merge(calls: seq<Call>, t: Tools, p: Plan, scheduled: seq<ToolEvent>) returns (results: seq<ToolEvent>)
    requires Planned(t, calls, p, |calls|) && |scheduled| == |p.runnable|
    ensures |results| == |calls|
    ensures forall k :: 0 <= k < |p.origin| ==> results[p.origin[k]] == scheduled[k]
    ensures forall i :: i in p.rejected ==> results[i] == p.rejected[i]
  {
    var cells := new ToolEvent[|calls|](_ => Missing);
    for k := 0 to |scheduled|
      invariant forall j :: 0 <= j < k ==> cells[p.origin[j]] == scheduled[j]
    {
      cells[p.origin[k]] := scheduled[k];
    }
    var keys := p.rejected.Keys;
    while keys != {}
      invariant keys <= p.rejected.Keys
      invariant forall k :: 0 <= k < |p.origin| ==> cells[p.origin[k]] == scheduled[k]
      invariant forall i :: i in p.rejected && i !in keys ==> cells[i] == p.rejected[i]
      decreases |keys|
    {
      var i :| i in keys;
      assert PlannedCall(t, calls, p, i);
      cells[i] := p.rejected[i];
      keys := keys - {i};
    }
    results := cells[..];
  }

  /** What becomes of the i-th call: a refusal, or how it ended when it ran. */
  function ResultOf(t: Tools, calls: seq<Call>, w: World, i: nat): ToolEvent
    requires i < |calls|
  {
    var at := |Runnable(t, calls, i)|;
    if !Kept(t, calls, i) then Refusal(t, calls[i])
    else
      match w.slot(at)
      case Ran(content, isError) => Ended(calls[i], content, isError)
      case _ => Missing
  }

  function Results(t: Tools, calls: seq<Call>, w: World): seq<ToolEvent> {
    seq(|calls|, i requires 0 <= i < |calls| => ResultOf(t, calls, w, i))
  }

  lemma {:induction false} RunnableGrows(t: Tools, calls: seq<Call>, i: nat, n: nat)
    requires i <= n <= |calls|
    ensures |Runnable(t, calls, i)| <= |Runnable(t, calls, n)|
    ensures i < n && Kept(t, calls, i) ==> |Runnable(t, calls, i)| < |Runnable(t, calls, n)|
    decreases n
  {
    if i < n { RunnableGrows(t, calls, i, n - 1); }
  }

  /** A batch that completes gives every call a result of its own. */
  lemma {:induction false} ResultsMatch(t: Tools, calls: seq<Call>, w: World)
    requires Completes(Runnable(t, calls, |calls|), w)
    ensures ResultsMatchCalls(calls, Results(t, calls, w))
  {
    forall i | 0 <= i < |calls| ensures ResultOf(t, calls, w, i).Ended? && ResultOf(t, calls, w, i).call == calls[i] {
      RunnableGrows(t, calls, i, |calls|);
    }
  }

  /** Merging what the plan, the schedule and the rejections say comes to exactly these results: every
      call has its own, and the alignment check that follows cannot fail. */
  lemma MergedResultsAre(t: Tools, calls: seq<Call>, p: Plan, w: World, scheduled: seq<ToolEvent>, results: seq<ToolEvent>)
    requires Planned(t, calls, p, |calls|) && Scheduled(p.runnable, w, scheduled) && |results| == |calls|
    requires forall k :: 0 <= k < |p.origin| ==> results[p.origin[k]] == scheduled[k]
    requires forall i :: i in p.rejected ==> results[i] == p.rejected[i]
    ensures results == Results(t, calls, w) && ResultsMatchCalls(calls, results)
  {
    forall i | 0 <= i < |calls|
      ensures results[i] == ResultOf(t, calls, w, i) && results[i].Ended? && results[i].call == calls[i]
    {
      assert PlannedCall(t, calls, p, i);
      if i in p.origin {
        var k :| 0 <= k < |p.origin| && p.origin[k] == i;
        assert results[p.origin[k]] == scheduled[k] == EventOf(p.runnable, w, k);
      }
    }
  }

  // ----- positions ----------------------------------------------------------------------------

  /** Where the visible subagent calls before position `i` stand. */
  function SubagentsBefore(t: Tools, calls: seq<Call>, i: nat): set<nat>
    requires i <= |calls|
  {
    set j: nat | j < i && calls[j].name in t.available && calls[j].name in t.subagents
  }

  lemma {:induction false} CountIs(t: Tools, calls: seq<Call>, i: nat)
    requires i <= |calls|
    ensures SubagentCalls(t, calls[..i]) == |SubagentsBefore(t, calls, i)|
  {
    if i > 0 {
      CountIs(t, calls, i - 1);
      assert calls[..i][..i - 1] == calls[..i - 1];
      var before, after := SubagentsBefore(t, calls, i - 1), SubagentsBefore(t, calls, i);
      if IsSubagentCall(t, calls[i - 1]) { assert after == before + {i - 1}; } else { assert after == before; }
    } else {
      assert SubagentsBefore(t, calls, 0) == {};
    }
  }

  /** A call goes through exactly if its tool is visible and, for a subagent, fewer than eight visible subagent
      calls stand before it. */
  lemma KeptIff(t: Tools, calls: seq<Call>, i: nat)
    requires i < |calls|
    ensures Kept(t, calls, i) <==>
      calls[i].name in t.available && (calls[i].name in t.subagents ==> |SubagentsBefore(t, calls, i)| < 8)
  {
    CountIs(t, calls, i);
  }

  /** Where the calls before position `i` stand that go through, and how many there are. */
  function KeptBefore(t: Tools, calls: seq<Call>, i: nat): set<nat>
    requires i <= |calls|
  {
    set j: nat | j < i && Kept(t, calls, j)
  }

  function Rank(t: Tools, calls: seq<Call>, i: nat): nat
    requires i <= |calls|
  {
    |KeptBefore(t, calls, i)|
  }

  lemma {:induction false} RunnableRanks(t: Tools, calls: seq<Call>, n: nat)
    requires n <= |calls|
    ensures |Runnable(t, calls, n)| == Rank(t, calls, n)
  {
    if n > 0 {
      RunnableRanks(t, calls, n - 1);
      var before, after := KeptBefore(t, calls, n - 1), KeptBefore(t, calls, n);
      if Kept(t, calls, n - 1) { assert after == before + {n - 1}; } else { assert after == before; }
    } else {
      assert KeptBefore(t, calls, 0) == {};
    }
  }

  /** The calls that go through are scheduled in the order in which they were made. */
  lemma {:induction false} RunnableAt(t: Tools, calls: seq<Call>, n: nat, i: nat)
    requires i < n <= |calls| && Kept(t, calls, i)
    ensures Rank(t, calls, i) < |Runnable(t, calls, n)| == Rank(t, calls, n)
    ensures Runnable(t, calls, n)[Rank(t, calls, i)] == calls[i]
    decreases n
  {
    RunnableRanks(t, calls, n);
    RunnableRanks(t, calls, i);
    if i < n - 1 { RunnableAt(t, calls, n - 1, i); }
  }

  /** What a call that goes through is answered is what it returned, at its place among those that do; every
      other call is answered with an error. */
  lemma {:induction false} ResultIs(t: Tools, calls: seq<Call>, w: World, i: nat)
    requires i < |calls| && Completes(Runnable(t, calls, |calls|), w)
    ensures var e := Results(t, calls, w)[i];
      && e.Ended? && e.call == calls[i]
      && (Kept(t, calls, i) ==> w.slot(Rank(t, calls, i)) == Ran(e.content, e.isError))
      && (!Kept(t, calls, i) ==> e.isError)
      && (!Kept(t, calls, i) ==>
            e.content == [Text(if calls[i].name in t.available then "over the batch quota" else "not available")])
  {
    RunnableRanks(t, calls, i);
    if Kept(t, calls, i) { RunnableAt(t, calls, |calls|, i); }
  }
}
