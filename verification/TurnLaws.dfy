/** What a turn answers to the calls of its reply, over every run: in terms of the turn and its tools alone. */
module TurnLaws {
  import opened Common
  import opened Messages
  import opened Turns
  import opened TurnProofs
  import B = ToolBatch
  import D = LoopDetect
  import G = Governor
  import L = Ledger

  // ----- what a closed group says -------------------------------------------------------------

  /** The message behind the i-th call answers it: with what its tool returned, if the call went through, and
      with an error, if it did not. */
  predicate Answered(tools: B.Tools, w: B.World, g: seq<Message>, i: nat)
    requires g != [] && |g| == 1 + |g[0].calls| && i < |g[0].calls|
  {
    var m, calls := g[1 + i], g[0].calls;
    && m.role == Tool && m.calls == [] && m.callId == calls[i].id && m.toolName == calls[i].name
    && (B.Kept(tools, calls, i) ==> w.slot(B.Rank(tools, calls, i)) == B.Ran(m.content, m.isError))
    && (!B.Kept(tools, calls, i) ==> m.isError)
  }

  /** The group of a batch that was executed: every call has its answer, in order. */
  predicate Delivers(tools: B.Tools, w: B.World, g: seq<Message>) {
    g != [] && |g| == 1 + |g[0].calls| && forall i :: 0 <= i < |g[0].calls| ==> Answered(tools, w, g, i)
  }

  /** The group of a batch that was blocked: every call is answered with an error. */
  predicate Refuses(g: seq<Message>) {
    && g != [] && |g| == 1 + |g[0].calls|
    && forall i :: 0 <= i < |g[0].calls| ==>
      var m, c := g[1 + i], g[0].calls[i]; m.role == Tool && m.isError && m.callId == c.id && m.toolName == c.name
  }

  lemma {:induction false} GroupDelivers(tools: B.Tools, w: B.World, head: Message, results: seq<B.ToolEvent>)
    requires B.Completes(B.Runnable(tools, head.calls, |head.calls|), w)
    requires results == B.Results(tools, head.calls, w) && forall i :: 0 <= i < |results| ==> results[i].Ended?
    ensures Delivers(tools, w, [head] + ResultMessages(results))
  {
    var g := [head] + ResultMessages(results);
    forall i | 0 <= i < |head.calls| ensures Answered(tools, w, g, i) {
      B.ResultIs(tools, head.calls, w, i);
      assert g[1 + i] == ResultMessage(results[i]);
    }
  }

  /** A group is its head and, in order, what the events say. */
  lemma GroupIs(head: Message, results: seq<B.ToolEvent>)
    requires forall i :: 0 <= i < |results| ==> results[i].Ended?
    ensures var g := [head] + ResultMessages(results);
      && |g| == 1 + |results| && g[0] == head
      && forall i :: 0 <= i < |results| ==>
           g[1 + i] == Message(Tool, results[i].content, [], results[i].call.id, results[i].call.name, results[i].isError)
  {
    var g := [head] + ResultMessages(results);
    forall i | 0 <= i < |results| ensures g[1 + i] == ResultMessage(results[i]) {}
  }

  /** A batch that completes appends its group, in which every call has its answer. */
  lemma BatchDelivers(s: Setup, v: View, head: Message, t: Turn, w: View)
    requires Sane(v) && Batch(s, v, head, t) == (w, None)
    ensures |w.groups| == |v.groups| + 1 && v.groups <= w.groups && !t.cancelledAfter && !w.account.exhausted
    ensures var g := w.groups[|v.groups|]; g != [] && g[0] == head && Delivers(s.tools, t.tools, g)
  {
    DebitAllSticks(v.account, t.debits);
    B.ResultsMatch(s.tools, head.calls, t.tools);
    GroupDelivers(s.tools, t.tools, head, B.Results(s.tools, head.calls, t.tools));
  }

  /** Whether the loop guard blocks a batch but lets the run go on, and whether it stops the run. */
  function Guard(s: Setup, d: D.State, calls: seq<Call>): D.Decision {
    if s.undetected then D.Allow else D.Admit(d, D.Signatures(s.excluded, calls)).1.decision
  }

  /** A turn that goes on appends one group, headed by its reply. A batch the guard lets through answers every
      call with what its tool returned, or with an error if the call did not go through; and it is only
      appended if every call that went through ended by itself, nothing was cancelled and the budget lasts.
      A batch the guard blocks is answered with errors. */
  lemma TurnDelivers(s: Setup, v: View, t: Turn)
    requires AtHead(v) && Execute(s, v, t).GoesOn?
    ensures var w, head := Execute(s, v, t).view, t.reply.message;
      && t.reply.Replied? && |w.groups| == |v.groups| + 1 && v.groups <= w.groups
      && var g := w.groups[|v.groups|];
         && g != [] && g[0] == head && head.calls != []
         && (if Guard(s, v.detector, head.calls).Recover? then Refuses(g)
             else !t.cancelledAfter && !w.account.exhausted && Delivers(s.tools, t.tools, g))
  {
    TurnKeepsProtocol(s, v, t);
    GenerateSticks(v, t);
    var w, head := Generate(v, t).0, t.reply.message;
    var (d, decision) := Admit(s, w.detector, head.calls);
    if !decision.Recover? { BatchDelivers(s, w.(detector := d), head, t, Execute(s, v, t).view); }
  }

  /** The group stands for this turn. */
  predicate StandsFor(s: Setup, t: Turn, g: seq<Message>) {
    && t.reply.Replied? && g != [] && g[0] == t.reply.message
    && (Delivers(s.tools, t.tools, g) || (!s.undetected && Refuses(g)))
  }

  /** From position `from` on, group after group stands for turn n, n + 1 and so on. */
  predicate StandInOrder(s: Setup, turns: nat -> Turn, n: nat, gs: seq<seq<Message>>, from: nat) {
    forall i :: from <= i < |gs| ==> StandsFor(s, turns(n + i - from), gs[i])
  }

  lemma OneMore(s: Setup, turns: nat -> Turn, n: nat, gs: seq<seq<Message>>, from: nat)
    requires from < |gs| && StandsFor(s, turns(n), gs[from]) && StandInOrder(s, turns, n + 1, gs, from + 1)
    ensures StandInOrder(s, turns, n, gs, from)
  {
    forall i | from <= i < |gs| ensures StandsFor(s, turns(n + i - from), gs[i]) {
      assert n + i - from == n + 1 + i - (from + 1);
    }
  }

  /** A turn that ends the run closes no group. */
  lemma EndAddsNothing(s: Setup, v: View, t: Turn)
    requires AtHead(v) && Execute(s, v, t).Ends?
    ensures Execute(s, v, t).view.groups == v.groups
  {
    GenerateSticks(v, t);
  }

  /** One turn of a run, with what it leads to. */
  lemma NextStands(s: Setup, v: View, turns: nat -> Turn, n: nat) returns (o: Outcome)
    requires AtHead(v) && v.account.limits.maxTurns > 0 && !turns(n).cancelled && TurnLimit(v).None?
    ensures o.view.account.limits == v.account.limits
    ensures v.account.totals.turns < o.view.account.totals.turns <= v.account.limits.maxTurns
    ensures o.Ends? ==> RunFrom(s, v, turns, n) == (o.view, o.err) && o.view.groups == v.groups
    ensures o.GoesOn? ==> AtHead(o.view) && RunFrom(s, v, turns, n) == RunFrom(s, o.view, turns, n + 1)
    ensures o.GoesOn? ==> |o.view.groups| == |v.groups| + 1 && v.groups <= o.view.groups
    ensures o.GoesOn? ==> StandsFor(s, turns(n), o.view.groups[|v.groups|])
  {
    o := Execute(s, Started(v), turns(n));
    NextHead(s, v, turns, n, o);
    if o.GoesOn? {
      TurnKeepsProtocol(s, Started(v), turns(n));
      TurnDelivers(s, Started(v), turns(n));
    } else {
      EndAddsNothing(s, Started(v), turns(n));
    }
  }

  /** Over every run the k-th group added stands for the k-th turn: it is headed by that turn's reply, and answers
      its calls with what that turn's tools returned, or with errors if the guard blocked them. */
  lemma {:induction false} RunDelivers(s: Setup, v: View, turns: nat -> Turn, n: nat) returns (gs: seq<seq<Message>>)
    requires AtHead(v) && v.account.limits.maxTurns > 0
    ensures gs == RunFrom(s, v, turns, n).0.groups
    ensures v.groups <= gs && StandInOrder(s, turns, n, gs, |v.groups|)
    decreases v.account.limits.maxTurns - v.account.totals.turns
  {
    gs := v.groups;
    if !turns(n).cancelled && TurnLimit(v).None? {
      var o := NextStands(s, v, turns, n);
      if o.GoesOn? {
        gs := RunDelivers(s, o.view, turns, n + 1);
        assert gs[|v.groups|] == o.view.groups[|v.groups|];
        OneMore(s, turns, n, gs, |v.groups|);
      }
    }
  }

  // ----- how a turn ends ----------------------------------------------------------------------

  /** Whether this budget, or the one above it, is used up, and the error that says so. */
  function FirstOf(v: View): Option<G.BudgetError> {
    if v.account.exhausted then v.account.firstErr
    else if v.parent.Some? then v.parent.value.firstErr
    else None
  }

  /** A call is refused exactly if afterwards a budget is used up, the run's own first. */
  lemma ChargeDecides(v: View, phase: L.Phase, usage: G.Usage, request: nat)
    requires Sane(v) && !v.account.exhausted
    ensures Charge(v, phase, usage, request).1 == FirstOf(Charge(v, phase, usage, request).0)
  {
    AccumulateSticks(v.account, usage);
  }

  lemma MakeDecides(v: View, phase: L.Phase, usage: G.Usage, skipped: nat)
    requires Sane(v) && FirstOf(v) == None && v.requests <= G.MAX_UINT32
    ensures var (w, c) := Make(v, phase, usage, skipped);
      && Sane(w) && (c.Charged? <==> v.requests + skipped + 1 <= G.MAX_UINT32)
      && (c.Charged? ==> c.err == FirstOf(w) && w.requests == v.requests + skipped + 1)
      && (c.NoIndex? ==> w == v.(requests := G.MAX_UINT32))
  {
    var (requests, index) := Draw(v.requests, skipped);
    if index.Some? {
      ChargeDecides(v.(requests := requests), phase, usage, index.value);
      MakeSticks(v, phase, usage, skipped);
    }
  }

  /** How many indexes a summary asks for. */
  function Asks(s: Summary): nat { if s.Summarised? then s.skipped + 1 else 0 }

  /** An attempt at a summary lets the run go on exactly if it did not end it by itself and no budget is used up
      after it. */
  lemma SummaryDecides(v: View, s: Summary)
    requires Sane(v) && FirstOf(v) == None && v.requests <= G.MAX_UINT32
    ensures var (w, on) := Summarise(v, s);
      && Sane(w) && (on <==> !s.Fatal? && FirstOf(w) == None)
      && w.requests == if v.requests + Asks(s) <= G.MAX_UINT32 then v.requests + Asks(s) else G.MAX_UINT32
  {
    if s.Summarised? { MakeDecides(v, L.Compaction, s.usage, s.skipped); }
  }

  /** The view after the summaries of a turn. */
  function Summed(v: View, t: Turn): View { Summarise(Summarise(v, t.early).0, t.overflow).0 }

  /** A reply is acceptable exactly if it is a well-formed message of the assistant that answers no call and gives
      each of its calls an id of its own. */
  lemma AcceptableIff(r: Reply)
    ensures Acceptable(r) <==>
      && r.Replied? && r.wellFormed && r.message.role == Assistant && r.message.callId == ""
      && (forall i :: 0 <= i < |r.message.calls| ==> |r.message.calls[i].id| > 0)
      && (forall i, j :: 0 <= i < |r.message.calls| && 0 <= j < |r.message.calls| && i != j ==>
            r.message.calls[i].id != r.message.calls[j].id)
  {}

  /** A reply may be acted on exactly if the turn was not cancelled, no summary ended it or used up a budget, an
      index was left for the reply, and the reply is acceptable; the budget it then reports is the first one used
      up, the run's own before its parent's. */
  lemma GenerateDecides(v: View, t: Turn)
    requires Sane(v) && FirstOf(v) == None && v.requests <= G.MAX_UINT32
    ensures var (w, g) := Generate(v, t);
      && (g == Failed(Cancelled) <==> t.cancelledInside) && (t.cancelledInside ==> w == v)
      && (g.Spoken? ==> g.budget == FirstOf(w))
      && (g.Spoken? <==>
        && !t.cancelledInside && !t.early.Fatal? && !t.overflow.Fatal? && FirstOf(Summarise(v, t.early).0) == None
        && FirstOf(Summed(v, t)) == None && Acceptable(t.reply)
        && v.requests + Asks(t.early) + Asks(t.overflow) + t.reply.skipped + 1 <= G.MAX_UINT32)
  {
    SummaryDecides(v, t.early);
    var w := Summarise(v, t.early).0;
    if FirstOf(w) == None {
      SummaryDecides(w, t.overflow);
      var x := Summed(v, t);
      if FirstOf(x) == None && t.reply.Replied? { MakeDecides(x, L.Action, t.reply.usage, t.reply.skipped); }
    }
  }

  predicate IsBudget(err: Option<RunError>, first: Option<G.BudgetError>) {
    err.Some? && err.value.Budget? && first == Some(err.value.error)
  }

  /** How a turn goes on or ends, given what it generated. It answers exactly if the reply makes no calls and no
      budget is used up; it is followed by another turn exactly if the guard blocks the calls without stopping the
      run, or lets them through, all of them end by themselves, nothing is cancelled and the budget lasts. */
  lemma TurnDecides(s: Setup, v: View, t: Turn)
    requires Sane(v)
    ensures var (x, g) := Generate(v, t); var o := Execute(s, v, t);
      && (g.Failed? ==> o == Ends(x, Some(g.error)))
      && (g.Spoken? && g.budget.Some? ==>
            var last := if t.reply.message.calls == [] then x.(tail := [t.reply.message]) else x;
            o == Ends(last, Some(Budget(g.budget.value))))
      && (g == Spoken(None) && t.reply.message.calls == [] ==> o == Ends(x.(tail := [t.reply.message]), None))
      && (o.Ends? && o.err == None <==> g == Spoken(None) && t.reply.message.calls == [])
      && (g == Spoken(None) && t.reply.message.calls != [] ==>
        var calls := t.reply.message.calls;
        var guard, runs := Guard(s, v.detector, calls), B.Runnable(s.tools, calls, |calls|);
        && (guard.Terminate? ==> o.Ends? && o.err == Some(LoopDetected) && o.view.tail == v.tail)
        && (guard.Recover? ==> o.GoesOn?)
        && (!guard.Terminate? && !guard.Recover? ==>
          && (o.GoesOn? <==> !t.cancelledAfter && !o.view.account.exhausted && B.Completes(runs, t.tools))
          && (o.Ends? ==> o.view.tail == [t.reply.message])
          && (o.Ends? && !t.cancelledAfter && o.view.account.exhausted ==> IsBudget(o.err, o.view.account.firstErr))
          && (o.Ends? && !(!t.cancelledAfter && o.view.account.exhausted) ==> o.err == Some(Cancelled))))
  {
    GenerateSticks(v, t);
    if t.reply.Replied? {
      ActSticks(s, Generate(v, t).0, t.reply.message, t);
      DebitAllSticks(Generate(v, t).0.account, t.debits);
    }
  }

  /** Before a turn cancellation is asked first, then the number of turns, then the parent's budget; a run that may
      not take another turn ends as it is. */
  lemma {:induction false} HeadDecides(s: Setup, v: View, turns: nat -> Turn, n: nat)
    requires Sane(v) && v.account.limits.maxTurns > 0
    ensures var full := v.account.totals.turns >= v.account.limits.maxTurns;
      var above := v.parent.Some? && v.parent.value.exhausted;
      && (turns(n).cancelled ==> RunFrom(s, v, turns, n) == (v, Some(Cancelled)))
      && (!turns(n).cancelled && full ==> RunFrom(s, v, turns, n) == (v, Some(Budget(G.OverLimit(G.Turns)))))
      && (!turns(n).cancelled && !full && above ==>
            RunFrom(s, v, turns, n).0 == v && IsBudget(RunFrom(s, v, turns, n).1, v.parent.value.firstErr))
      && (TurnLimit(v).None? <==> !full && !above)
  {}

  // ----- what the detector is told ------------------------------------------------------------

  /** The event tells of this result: its error flag, and its content block by block. */
  predicate TellsOf(e: D.Event, m: Message) {
    && e.outcome.isError == m.isError && |e.outcome.content| == |m.content|
    && forall k :: 0 <= k < |m.content| ==>
      e.outcome.content[k] == (match m.content[k] case Text(text) => text case Image(url) => url)
  }

  lemma ConfirmedTells(results: seq<B.ToolEvent>, i: nat)
    requires i < |results| && forall i :: 0 <= i < |results| ==> results[i].Ended?
    ensures TellsOf(Confirmed(results)[i], ResultMessage(results[i]))
  {}

  lemma BatchTeaches(s: Setup, v: View, head: Message, t: Turn) returns (es: seq<D.Event>)
    requires Sane(v) && Batch(s, v, head, t).1 == None
    ensures var w := Batch(s, v, head, t).0;
      && |es| == |head.calls| && |w.groups| == |v.groups| + 1 && |w.groups[|v.groups|]| == 1 + |head.calls|
      && w.detector == (if s.undetected then v.detector else D.NoteAll(v.detector, s.excluded, head.calls, es))
      && forall i :: 0 <= i < |head.calls| ==> TellsOf(es[i], w.groups[|v.groups|][1 + i])
  {
    var results := B.Results(s.tools, head.calls, t.tools);
    B.ResultsMatch(s.tools, head.calls, t.tools);
    es := Confirmed(results);
    forall i | 0 <= i < |head.calls| ensures TellsOf(es[i], Batch(s, v, head, t).0.groups[|v.groups|][1 + i]) {
      ConfirmedTells(results, i);
    }
  }

  /** After a turn that goes on, the detector has seen the calls of the group added and, if their batch ran, the
      result behind every one of them; a detector that is switched off sees nothing. */
  lemma TurnTeaches(s: Setup, v: View, t: Turn, o: Outcome) returns (es: seq<D.Event>)
    requires AtHead(v) && o == Execute(s, v, t) && o.GoesOn? && |o.view.groups| == |v.groups| + 1
    ensures var d, calls, g := o.view.detector, t.reply.message.calls, o.view.groups[|v.groups|];
      if s.undetected then d == v.detector
      else
        var seen := D.Admit(v.detector, D.Signatures(s.excluded, calls)).0;
        if Guard(s, v.detector, calls).Recover? then d == seen
        else
          && |es| == |calls| && |g| == 1 + |calls| && d == D.NoteAll(seen, s.excluded, calls, es)
          && forall i :: 0 <= i < |calls| ==> TellsOf(es[i], g[1 + i])
  {
    GenerateSticks(v, t);
    var w, head := Generate(v, t).0, t.reply.message;
    es := [];
    if !Guard(s, v.detector, head.calls).Recover? {
      es := BatchTeaches(s, w.(detector := Admit(s, w.detector, head.calls).0), head, t);
    }
  }
}
