/** The objects that keep a run's books: the governor and its parent account, the request sequencer,
    the recorder of child reports and the ledger (pi/governor, pi/run_state.go, pi/loop.go). */
module RunAccounting {
  import opened Common
  import opened Governor
  import opened Ledger

  class RunGovernor {
    const limits: Limits
    const parent: BatchBudget?
    var totals: Totals
    var exhausted: bool
    var firstErr: Option<BudgetError>

    ghost function View(): Account
      reads this
    {
      Account(limits, totals, exhausted, firstErr)
    }

    constructor (limits: Limits, parent: BatchBudget?)
      ensures View() == Open(limits) && this.parent == parent
    {
      this.limits, this.parent := limits.WithDefaults(), parent;
      totals, exhausted, firstErr := Totals(0, 0, 0, 0, 0, 0), false, None;
    }

    method SetFirstErr(e: BudgetError) returns (err: Option<BudgetError>)
      modifies this
      ensures (View(), err) == Fail(old(View()), e)
    {
      if exhausted { return None; }
      exhausted := true;
      firstErr := Some(e);
      err := Some(e);
    }

    /** Adds one call to the totals, field by field, and keeps the first error. */
    method AccumulateLocked(u: Usage) returns (err: Option<BudgetError>)
      modifies this
      ensures (View(), err) == Accumulate(old(View()), u)
    {
      var input := CheckedAdd(totals.input, u.input);
      if input.None? {
        err := SetFirstErr(OutOfRange);
        return;
      }
      var output := CheckedAdd(totals.output, u.output);
      if output.None? {
        err := SetFirstErr(OutOfRange);
        return;
      }
      totals := totals.(input := input.value, output := output.value, tokens := Wrap64(input.value + output.value));
      if totals.invocations == MAX_UINT32 {
        err := SetFirstErr(OutOfRange);
        return;
      }
      totals := totals.(invocations := totals.invocations + 1);
      totals := totals.(cost := totals.cost + u.cost);
      if limits.maxCost > 0 && totals.cost >= limits.maxCost {
        err := SetFirstErr(OverLimit(Cost));
        return;
      }
      if limits.maxTokens > 0 && totals.tokens >= limits.maxTokens {
        err := SetFirstErr(OverLimit(Tokens));
        return;
      }
      err := None;
    }

    /** One metered call: the own account first, then always the parent's. */
    method Observe(u: Usage) returns (err: Option<BudgetError>)
      requires parent != null ==> parent.governor != this
      modifies this
      modifies if parent != null then {parent, parent.governor} else {}
      ensures View() == Accumulate(old(View()), u).0
      ensures parent != null ==> parent.governor.View() == Accumulate(old(parent.governor.View()), u).0
      ensures parent != null ==> parent.Spread(u)
      ensures err ==
        if Accumulate(old(View()), u).1.Some? then Accumulate(old(View()), u).1
        else if parent != null then parent.governor.firstErr
        else None
    {
      var childErr := AccumulateLocked(u);
      var parentErr: Option<BudgetError> := None;
      if parent != null {
        parentErr := parent.Debit(u);
      }
      err := if childErr.Some? then childErr else parentErr;
    }

    /** Whether another turn may start, and if not, why. */
    method CheckTurnLimit() returns (exit: bool, err: Option<BudgetError>)
      ensures exit <==>
        || (limits.maxTurns > 0 && totals.turns >= limits.maxTurns)
        || (parent != null && parent.governor.exhausted)
      ensures err ==
        if limits.maxTurns > 0 && totals.turns >= limits.maxTurns then Some(OverLimit(Turns))
        else if exit then parent.governor.firstErr
        else None
    {
      if limits.maxTurns > 0 && totals.turns >= limits.maxTurns { return true, Some(OverLimit(Turns)); }
      if parent != null && parent.governor.exhausted { return true, parent.governor.firstErr; }
      return false, None;
    }

    method StartTurn()
      modifies this
      ensures View() == old(View()).(totals := old(totals).(turns := old(totals).turns + 1))
    {
      totals := totals.(turns := totals.turns + 1);
    }
  }

  /** The parent account a batch hands to its children, with the batch's own cancellation. */
  class BatchBudget {
    const governor: RunGovernor
    var cancelled: bool

    constructor (governor: RunGovernor)
      ensures this.governor == governor && !cancelled
    {
      this.governor := governor;
      cancelled := false;
    }

    /** The batch is cancelled by the debit that exhausts the account, and stays so. */
    twostate predicate Spread(u: Usage)
      reads this, governor
    {
      cancelled <==> old(cancelled) || Accumulate(old(governor.View()), u).1.Some?
    }

    method Debit(u: Usage) returns (first: Option<BudgetError>)
      modifies this, governor
      ensures governor.View() == Accumulate(old(governor.View()), u).0
      ensures Spread(u) && first == governor.firstErr
      ensures cancelled <==> old(cancelled) || (governor.exhausted && !old(governor.exhausted))
    {
      var err := governor.AccumulateLocked(u);
      if err.Some? {
        cancelled := true;
      }
      first := governor.firstErr;
    }
  }

  /** Hands out request indexes from one on, and none after the last. */
  class Sequencer {
    var value: nat

    constructor ()
      ensures value == 0
    {
      value := 0;
    }

    method Next() returns (index: Option<nat>)
      modifies this
      ensures if old(value) == MAX_UINT32 then index == None && value == old(value)
              else value == old(value) + 1 && index == Some(value)
    {
      if value == MAX_UINT32 { return None; }
      value := value + 1;
      index := Some(value);
    }
  }

  class Recorder {
    var reports: seq<Report>

    constructor ()
      ensures reports == []
    {
      reports := [];
    }

    method Record(report: Report)
      modifies this
      ensures reports == if report.invs == [] then old(reports) else old(reports) + [report]
    {
      if |report.invs| == 0 { return; }
      reports := reports + [report];
    }

    method Drain() returns (drained: seq<Report>)
      modifies this
      ensures drained == old(reports) && reports == []
    {
      drained := reports;
      reports := [];
    }
  }

  function PostAll(ledger: seq<Invocation>, reports: seq<Report>): seq<Invocation>
    decreases |reports|
  {
    if reports == [] then ledger else PostAll(Post(ledger, reports[0].invs), reports[1..])
  }

  class Books {
    var invocations: seq<Invocation>
    var callSequence: nat

    ghost predicate Valid()
      reads this
    {
      callSequence == |invocations|
    }

    constructor ()
      ensures Valid() && invocations == []
    {
      invocations, callSequence := [], 0;
    }

    method AddInvocation(phase: Phase, usage: Usage, requestIndex: nat) returns (at: nat)
      requires Valid()
      modifies this
      ensures Valid() && invocations == Append(old(invocations), phase, usage, requestIndex)
      ensures at == |invocations| - 1
    {
      callSequence := callSequence + 1;
      invocations := invocations + [Invocation(callSequence, phase, usage, requestIndex)];
      at := |invocations| - 1;
    }

    /** After a batch: every child call enters the ledger, without touching the budget again. */
    method SettleReports(recorder: Recorder)
      requires Valid()
      modifies this, recorder
      ensures Valid() && recorder.reports == []
      ensures invocations == PostAll(old(invocations), old(recorder.reports))
    {
      var reports := recorder.Drain();
      assert reports[0..] == reports;
      for r := 0 to |reports|
        invariant Valid() && recorder.reports == []
        invariant PostAll(invocations, reports[r..]) == PostAll(old(invocations), reports)
      {
        var invs := reports[r].invs;
        ghost var before := invocations;
        for i := 0 to |invs|
          invariant Valid() && recorder.reports == []
          invariant invocations == Post(before, invs[..i])
        {
          var at := AddInvocation(Subagent, invs[i].usage, invs[i].index);
          assert invs[..i + 1][..i] == invs[..i];
        }
        assert invs[..|invs|] == invs;
        assert reports[r..][1..] == reports[r + 1..];
      }
      assert reports[|reports|..] == [];
    }
  }

  /** Settling the reports one event at a time posts them all. */
  lemma {:induction false} SettlesAsPosted(l: Limits, s: State)
    requires s.batch && NoneRunning(s.children)
    requires forall r :: 0 <= r < |s.reports| ==> s.reports[r].child < |s.children|
    ensures SettleAll(l, s).ledger == PostAll(s.ledger, s.reports) && SettleAll(l, s).reports == []
    decreases |s.reports|
  {
    if s.reports != [] {
      var t := Apply(l, s, Settle);
      assert forall r :: 0 <= r < |t.reports| ==> t.reports[r] == s.reports[r + 1];
      SettlesAsPosted(l, t);
    }
  }

  function SettleAll(l: Limits, s: State): State
    requires s.batch && NoneRunning(s.children)
    decreases |s.reports|
  {
    if s.reports == [] then s else SettleAll(l, Apply(l, s, Settle))
  }
}
