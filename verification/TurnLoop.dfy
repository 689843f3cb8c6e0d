/** The loop object: budget, generation, loop guard and tool batch of every turn, in place, compute the
    turns of Turns (pi/loop.go, pi/loop_guard.go). */
module TurnLoop {
  import opened Common
  import opened Messages
  import opened RunAccounting
  import opened Turns
  import B = ToolBatch
  import D = LoopDetect
  import Detector
  import G = Governor
  import L = Ledger
  import TP = TurnProofs
  import TL = TurnLaws

  /** In which order the calls of a wave of some turn end. */
  type Orders = (nat, nat, nat) -> seq<nat>

  ghost predicate Fair(turns: nat -> Turn, orders: Orders) {
    && (forall n: nat :: B.Honest(turns(n).tools))
    && (forall n: nat, s: nat, e: nat :: B.Covers(orders(n, s, e), s, e))
  }

  class Loop {
    const tools: B.Tools
    const safe: set<string>
    const governor: RunGovernor
    const detector: Detector.Detector
    const books: Books
    const sequencer: Sequencer
    var newMessages: seq<Message>
    ghost var groups: seq<seq<Message>>
    ghost var tail: seq<Message>

    ghost function Parents(): set<object> {
      if governor.parent != null then {governor.parent, governor.parent.governor} else {}
    }

    /** The objects a run writes to: its own, and the account of a parent run. */
    ghost function Footprint(): set<object> { {this, governor, detector, books, sequencer} + Parents() }

    ghost function ParentAccount(): Option<G.Account>
      reads Parents()
    {
      if governor.parent != null then Some(governor.parent.governor.View()) else None
    }

    ghost function View(): View
      reads this, governor, detector, books, sequencer, Parents()
    {
      Turns.View(governor.View(), ParentAccount(), books.invocations, sequencer.value, detector.View(), groups, tail)
    }

    ghost function Setup(): Setup { Turns.Setup(tools, detector.disabled, detector.excluded) }

    /** What a caller is handed are the groups and what follows them. */
    ghost predicate Valid()
      reads this, governor, detector, books, sequencer, Parents()
    {
      && (governor.parent != null ==> governor.parent.governor != governor)
      && books.Valid() && detector.Valid() && sequencer.value <= G.MAX_UINT32
      && newMessages == Flatten(groups) + tail && Sane(View())
    }

    constructor (tools: B.Tools, safe: set<string>, governor: RunGovernor, detector: Detector.Detector, books: Books,
                 sequencer: Sequencer)
      requires sequencer.value <= G.MAX_UINT32 && books.Valid() && detector.Valid() && Explained(governor.View())
      requires governor.parent != null ==>
        governor.parent.governor != governor && Explained(governor.parent.governor.View())
      ensures Valid() && View().groups == [] && View().tail == [] && newMessages == []
      ensures this.governor == governor && this.detector == detector && this.books == books && this.sequencer == sequencer
      ensures this.tools == tools && this.safe == safe
    {
      this.tools, this.safe, this.governor, this.detector := tools, safe, governor, detector;
      this.books, this.sequencer := books, sequencer;
      newMessages, groups, tail := [], [], [];
    }

    method AppendAssistant(m: Message)
      requires Valid() && tail == []
      modifies `newMessages, `tail
      ensures Valid() && View() == old(View()).(tail := [m])
    {
      newMessages := newMessages + [m];
      tail := [m];
    }

    method AppendResults(results: seq<B.ToolEvent>)
      requires forall i :: 0 <= i < |results| ==> results[i].Ended?
      modifies `newMessages
      ensures newMessages == old(newMessages) + ResultMessages(results)
    {
      ghost var before := newMessages;
      for i := 0 to |results|
        invariant newMessages == before + ResultMessages(results)[..i]
      {
        newMessages := newMessages + [ResultMessage(results[i])];
      }
      assert ResultMessages(results)[..|results|] == ResultMessages(results);
    }

    /** The results follow the open head. */
    method CloseGroup(results: seq<B.ToolEvent>)
      requires Valid() && |tail| == 1 && forall i :: 0 <= i < |results| ==> results[i].Ended?
      modifies `newMessages, `groups, `tail
      ensures Valid() && View() == Close(old(View()), old(tail[0]), results)
      ensures groups == old(groups) + [[old(tail[0])] + ResultMessages(results)] && tail == []
    {
      AppendResults(results);
      ghost var g := [tail[0]] + ResultMessages(results);
      FlattenAppend(groups, [g]);
      assert Flatten([g]) == g && tail == [tail[0]];
      groups := groups + [g];
      tail := [];
    }

    /** Calls debited by children while the batch runs; the batch is cancelled by the one that exhausts
        the budget. */
    method DebitChildren(account: BatchBudget, debits: seq<G.Usage>)
      requires account.governor == governor && !account.cancelled && !governor.exhausted && Explained(governor.View())
      modifies account, governor
      ensures governor.View() == DebitAll(old(governor.View()), debits)
      ensures Explained(governor.View()) && (account.cancelled <==> governor.exhausted)
    {
      for i := 0 to |debits|
        invariant Explained(governor.View()) && (account.cancelled <==> governor.exhausted)
        invariant governor.View() == DebitAll(old(governor.View()), debits[..i])
      {
        AccumulateSticks(governor.View(), debits[i]);
        assert debits[..i + 1][..i] == debits[..i];
        var first := account.Debit(debits[i]);
      }
      assert debits[..|debits|] == debits;
    }

    method RecordReports(recorder: Recorder, reports: seq<L.Report>)
      requires recorder.reports == []
      modifies recorder
      ensures recorder.reports == Filed(reports)
    {
      for i := 0 to |reports|
        invariant recorder.reports + Filed(reports[i..]) == Filed(reports)
      {
        assert reports[i..][1..] == reports[i + 1..];
        recorder.Record(reports[i]);
      }
    }

    /** Children and scheduled calls of a batch; whatever becomes of it, the reports enter the ledger. */
    method RunBatch(runnable: seq<Call>, turn: Turn, orders: (nat, nat) -> seq<nat>)
      returns (scheduled: Option<seq<B.ToolEvent>>, spent: bool)
      requires Valid() && !governor.exhausted
      requires B.Honest(turn.tools) && forall s: nat, e: nat :: B.Covers(orders(s, e), s, e)
      modifies governor, books, sequencer
      ensures Valid() && View() == Settled(old(View()), turn)
      ensures spent <==> governor.exhausted
      ensures scheduled.Some? <==> B.Completes(runnable, turn.tools)
      ensures scheduled.Some? ==> B.Scheduled(runnable, turn.tools, scheduled.value)
    {
      var account := new BatchBudget(governor);
      var recorder := new Recorder();
      DebitChildren(account, turn.debits);
      RecordReports(recorder, turn.reports);
      Skip(turn.drawn);
      scheduled := B.Schedule(runnable, safe, turn.tools, orders);
      books.SettleReports(recorder);
      spent := account.cancelled;
    }

    /** Results that belong to the calls close the group, and the detector learns of them. */
    method Conclude(head: Message, results: seq<B.ToolEvent>)
      requires Valid() && tail == [head] && B.ResultsMatchCalls(head.calls, results)
      modifies `newMessages, `groups, `tail, detector
      ensures Valid()
      ensures var told := Record(Setup(), old(View()).detector, head.calls, results);
        View() == Close(old(View()).(detector := told), head, results)
    {
      CloseGroup(results);
      var events := Confirmed(results);
      TP.ConfirmedAligned(head.calls, results);
      detector.RecordBatch(head.calls, events);
    }

    /** One batch: the alignment check behind the merge cannot fail. */
    method ExecuteToolBatch(head: Message, turn: Turn, orders: (nat, nat) -> seq<nat>) returns (err: Option<RunError>)
      requires Valid() && tail == [head] && !governor.exhausted
      requires B.Honest(turn.tools) && forall s: nat, e: nat :: B.Covers(orders(s, e), s, e)
      modifies this, governor, detector, books, sequencer
      ensures Valid() && (View(), err) == Batch(Setup(), old(View()).(tail := []), head, turn)
      ensures err.None? ==> |groups| == |old(groups)| + 1 && old(groups) <= groups && groups[|old(groups)|] != []
      ensures err.None? ==> groups[|old(groups)|][0] == head && TL.Delivers(tools, turn.tools, groups[|old(groups)|])
    {
      var calls := head.calls;
      var plan := B.PlanToolBatch(tools, calls);
      var scheduled, spent := RunBatch(plan.runnable, turn, orders);
      if turn.cancelledAfter { return Some(Cancelled); }
      if spent { return Some(Budget(governor.firstErr.value)); }
      if scheduled.None? { return Some(Cancelled); }
      var results := B.Merge(calls, tools, plan, scheduled.value);
      B.MergedResultsAre(tools, calls, plan, turn.tools, scheduled.value, results);
      var aligned := B.CheckAlignment(calls, results);
      if !aligned {
        assert false;
      }
      Conclude(head, results);
      err := None;
      TL.BatchDelivers(Setup(), old(View()).(tail := []), head, turn, View());
    }

    /** A synthetic result for every call closes the group without running anything. */
    method CommitRecovery(calls: seq<Call>)
      requires Valid() && |tail| == 1
      modifies `newMessages, `groups, `tail
      ensures Valid() && View() == Close(old(View()), old(tail[0]), Recovery(calls))
    {
      var results: seq<B.ToolEvent> := [];
      for i := 0 to |calls|
        invariant results == Recovery(calls)[..i]
      {
        results := results + [B.Rejection(calls[i], "loop detected")];
      }
      assert results == Recovery(calls);
      CloseGroup(results);
    }

    /** One metered call: ledger first, then the budgets. */
    method Account(phase: L.Phase, usage: G.Usage, request: nat) returns (err: Option<G.BudgetError>)
      requires Valid()
      modifies books, governor, Parents()
      ensures Valid() && (View(), err) == Charge(old(View()), phase, usage, request)
    {
      ChargeSticks(View(), phase, usage, request);
      var at := books.AddInvocation(phase, usage, request);
      err := governor.Observe(usage);
    }

    /** Indexes handed out to others, or to attempts that fail. */
    method Skip(count: nat)
      requires sequencer.value <= G.MAX_UINT32
      modifies sequencer
      ensures sequencer.value == Advanced(old(sequencer.value), count)
    {
      for i := 0 to count
        invariant sequencer.value == Advanced(old(sequencer.value), i)
      {
        var index := sequencer.Next();
      }
    }

    /** A request index, then the call, then its account. */
    method MakeCall(phase: L.Phase, usage: G.Usage, skipped: nat) returns (c: Called)
      requires Valid()
      modifies books, governor, sequencer, Parents()
      ensures Valid() && (View(), c) == Make(old(View()), phase, usage, skipped)
    {
      Skip(skipped);
      var index := sequencer.Next();
      if index.None? { return NoIndex; }
      var err := Account(phase, usage, index.value);
      c := Charged(err);
    }

    method Summarise(summary: Summary) returns (ok: bool)
      requires Valid()
      modifies books, governor, sequencer, Parents()
      ensures Valid() && (View(), ok) == Turns.Summarise(old(View()), summary)
    {
      match summary
      case NoSummary => ok := true;
      case Fatal => ok := false;
      case Summarised(usage, skipped) =>
        var c := MakeCall(L.Compaction, usage, skipped);
        ok := c.NoIndex? || c.err.None?;
    }

    /** Everything up to an acceptable message: the call is accounted for before it is judged. */
    method Generate(turn: Turn) returns (g: Generated)
      requires Valid()
      modifies governor, books, sequencer, Parents()
      ensures Valid() && (View(), g) == Turns.Generate(old(View()), turn)
    {
      if turn.cancelledInside { return Failed(Cancelled); }
      var ok := Summarise(turn.early);
      if !ok { return Failed(GenerationFailed); }
      ok := Summarise(turn.overflow);
      if !ok || turn.reply.NoReply? { return Failed(GenerationFailed); }
      var c := MakeCall(L.Action, turn.reply.usage, turn.reply.skipped);
      if c.NoIndex? || !Acceptable(turn.reply) { return Failed(GenerationFailed); }
      g := Spoken(c.err);
    }

    /** A message with calls: the loop guard decides whether its batch runs. */
    method Act(message: Message, turn: Turn, orders: (nat, nat) -> seq<nat>) returns (err: Option<RunError>)
      requires Valid() && tail == [] && !governor.exhausted
      requires B.Honest(turn.tools) && forall s: nat, e: nat :: B.Covers(orders(s, e), s, e)
      modifies this, governor, detector, books, sequencer
      ensures Valid() && (View(), err) == Turns.Act(Setup(), old(View()), message, turn)
    {
      var admission := detector.AdmitBatch(message.calls);
      if admission.decision.Terminate? { return Some(LoopDetected); }
      AppendAssistant(message);
      if admission.decision.Recover? {
        CommitRecovery(message.calls);
        return None;
      }
      err := ExecuteToolBatch(message, turn, orders);
    }

    /** One turn. */
    method Execute(turn: Turn, orders: (nat, nat) -> seq<nat>) returns (done: bool, err: Option<RunError>)
      requires Valid() && tail == [] && !governor.exhausted
      requires B.Honest(turn.tools) && forall s: nat, e: nat :: B.Covers(orders(s, e), s, e)
      modifies Footprint()
      ensures Valid()
      ensures Turns.Execute(Setup(), old(View()), turn) == if done then Ends(View(), err) else GoesOn(View())
    {
      GenerateSticks(View(), turn);
      var g := Generate(turn);
      if g.Failed? { return true, Some(g.error); }
      var message := turn.reply.message;
      if g.budget.Some? {
        if |message.calls| == 0 { AppendAssistant(message); }
        return true, Some(Budget(g.budget.value));
      }
      if |message.calls| == 0 {
        AppendAssistant(message);
        return true, None;
      }
      err := Act(message, turn, orders);
      done := err.Some?;
    }

    /** Whether another turn starts, and if not, why. */
    method BeginTurn(turn: Turn) returns (err: Option<RunError>)
      requires Valid()
      modifies governor
      ensures Valid()
      ensures err == if turn.cancelled then Some(Cancelled)
                     else if TurnLimit(old(View())).Some? then Some(Budget(TurnLimit(old(View())).value))
                     else None
      ensures View() == if err.Some? then old(View()) else Started(old(View()))
    {
      if turn.cancelled { return Some(Cancelled); }
      var exit, limitErr := governor.CheckTurnLimit();
      if exit { return Some(Budget(limitErr.value)); }
      governor.StartTurn();
      err := None;
    }

    /** One pass of the loop. */
    method NextTurn(turns: nat -> Turn, orders: Orders, n: nat) returns (done: bool, err: Option<RunError>)
      requires Valid() && AtHead(View()) && governor.limits.maxTurns > 0 && Fair(turns, orders)
      modifies Footprint()
      ensures Valid()
      ensures done ==> (View(), err) == RunFrom(Setup(), old(View()), turns, n)
      ensures !done ==> AtHead(View()) && RunFrom(Setup(), View(), turns, n + 1) == RunFrom(Setup(), old(View()), turns, n)
      ensures !done ==> old(governor.totals.turns) < governor.totals.turns <= governor.limits.maxTurns
    {
      var turn := turns(n);
      err := BeginTurn(turn);
      if err.Some? { return true, err; }
      TP.NextHead(Setup(), old(View()), turns, n, Turns.Execute(Setup(), View(), turn));
      done, err := Execute(turn, (s: nat, e: nat) => orders(n, s, e));
    }

    /** Turn by turn, at most as many as the budget allows. */
    method Run(turns: nat -> Turn, orders: Orders) returns (err: Option<RunError>)
      requires Valid() && AtHead(View()) && governor.limits.maxTurns > 0 && Fair(turns, orders)
      modifies Footprint()
      ensures Valid() && (View(), err) == RunFrom(Setup(), old(View()), turns, 0)
    {
      var n := 0;
      while true
        invariant Valid() && AtHead(View())
        invariant RunFrom(Setup(), View(), turns, n) == RunFrom(Setup(), old(View()), turns, 0)
        decreases governor.limits.maxTurns - governor.totals.turns
      {
        var done;
        done, err := NextTurn(turns, orders, n);
        if done { return; }
        n := n + 1;
      }
    }
  }
}
