/** What every run of the turn loop keeps: the message protocol, the books, and the detector's rules. */
module TurnProofs {
  import opened Common
  import opened Messages
  import opened Turns
  import B = ToolBatch
  import D = LoopDetect
  import G = Governor
  import L = Ledger
  import LP = LedgerProofs
  import P = LoopDetectProofs
  import A = RunAccounting
  import ToolGroups

  // ----- the message protocol -----------------------------------------------------------------

  predicate Protocol(v: View, err: Option<RunError>) { AllClosed(v.groups) && TailFits(v.tail, err) }

  /** Matching results close the group of their head. */
  lemma GroupCloses(gs: seq<seq<Message>>, head: Message, results: seq<B.ToolEvent>)
    requires AllClosed(gs) && IsHead(head) && DistinctIds(head.calls) && B.ResultsMatchCalls(head.calls, results)
    ensures AllClosed(gs + [[head] + ResultMessages(results)])
  {
    var g := [head] + ResultMessages(results);
    forall i | 0 <= i < |head.calls| ensures IsResultOf(g[1 + i], head.calls[i]) {
      assert g[1 + i] == ResultMessage(results[i]);
    }
  }

  lemma BatchKeeps(s: Setup, v: View, head: Message, t: Turn)
    requires AtHead(v) && IsHead(head) && DistinctIds(head.calls)
    ensures var (w, err) := Batch(s, v, head, t);
      && v.groups <= w.groups && Sane(w)
      && (err.None? ==> AtHead(w)) && (err.Some? ==> Protocol(w, err))
  {
    DebitAllSticks(v.account, t.debits);
    if B.Completes(B.Runnable(s.tools, head.calls, |head.calls|), t.tools) {
      B.ResultsMatch(s.tools, head.calls, t.tools);
      GroupCloses(v.groups, head, B.Results(s.tools, head.calls, t.tools));
    }
  }

  /** A turn that goes on closes its group and leaves a budget; a turn that ends the run leaves what the
      protocol allows for its error. Nothing said before is touched. */
  lemma TurnKeepsProtocol(s: Setup, v: View, t: Turn)
    requires AtHead(v)
    ensures var o := Execute(s, v, t);
      && v.groups <= o.view.groups
      && (o.GoesOn? ==> AtHead(o.view) && |o.view.groups| == |v.groups| + 1)
      && (o.Ends? ==> Protocol(o.view, o.err) && (o.err.None? ==> !o.view.account.exhausted))
  {
    GenerateSticks(v, t);
    var (w, g) := Generate(v, t);
    if g == Spoken(None) && t.reply.message.calls != [] {
      var head := t.reply.message;
      var (d, decision) := Admit(s, w.detector, head.calls);
      match decision
      case Terminate =>
      case Recover => GroupCloses(w.groups, head, Recovery(head.calls));
      case _ => BatchKeeps(s, w.(detector := d), head, t);
    }
  }

  /** How a run that may take another turn goes on, and that it stays within the protocol. */
  lemma NextHead(s: Setup, v: View, turns: nat -> Turn, n: nat, o: Outcome)
    requires AtHead(v) && v.account.limits.maxTurns > 0 && !turns(n).cancelled && TurnLimit(v).None?
    requires o == Execute(s, Started(v), turns(n))
    ensures o.view.account.limits == v.account.limits && v.groups <= o.view.groups
    ensures v.account.totals.turns < o.view.account.totals.turns <= v.account.limits.maxTurns
    ensures o.Ends? ==> RunFrom(s, v, turns, n) == (o.view, o.err)
    ensures o.Ends? ==> Protocol(o.view, o.err) && (o.err.None? ==> !o.view.account.exhausted)
    ensures o.GoesOn? ==> AtHead(o.view) && RunFrom(s, v, turns, n) == RunFrom(s, o.view, turns, n + 1)
  {
    TurnKeepsProtocol(s, Started(v), turns(n));
    RunStep(s, v, turns, n, o);
  }

  lemma {:induction false} RunGrows(s: Setup, v: View, turns: nat -> Turn, n: nat)
    requires AtHead(v) && v.account.limits.maxTurns > 0
    ensures v.groups <= RunFrom(s, v, turns, n).0.groups
    decreases v.account.limits.maxTurns - v.account.totals.turns
  {
    if !turns(n).cancelled && TurnLimit(v).None? {
      var o := Execute(s, Started(v), turns(n));
      NextHead(s, v, turns, n, o);
      if o.GoesOn? { RunGrows(s, o.view, turns, n + 1); }
    }
  }

  /** Every run, from any turn on: its messages are closed groups and what its error allows behind them;
      a run without an error ends with its one answer, and with budget left; the turns never exceed their
      maximum. */
  lemma {:induction false} RunKeepsProtocol(s: Setup, v: View, turns: nat -> Turn, n: nat)
    requires AtHead(v) && v.account.limits.maxTurns > 0
    requires v.account.totals.turns <= v.account.limits.maxTurns
    ensures var (w, err) := RunFrom(s, v, turns, n);
      && Protocol(w, err) && v.groups <= w.groups && (err.None? ==> !w.account.exhausted)
      && w.account.totals.turns <= w.account.limits.maxTurns
    decreases v.account.limits.maxTurns - v.account.totals.turns
  {
    if !turns(n).cancelled && TurnLimit(v).None? {
      var o := Execute(s, Started(v), turns(n));
      NextHead(s, v, turns, n, o);
      if o.GoesOn? { RunKeepsProtocol(s, o.view, turns, n + 1); }
    }
  }

  /** A closed group is one complete unit: what a turn appends is what compaction and pruning expect. */
  lemma {:induction false} ClosedGroupIsComplete(g: seq<Message>)
    requires ClosedGroup(g)
    ensures Chunks(g) == [g] && Complete(g) && ToolGroups.ClosedBatch(g)
  {
    var ids, calls := ResultIds(g[1..]), g[0].calls;
    forall i | 0 <= i < |calls| ensures g[1..][i].role == Tool && ids[i] == calls[i].id {
      assert IsResultOf(g[1 + i], calls[i]);
    }
    assert g[1..] + [] == g[1..];
    ToolPrefixOf(g[1..], []);
    assert UnitLength(g) == |g|;
    assert g[..|g|] == g && Chunks(g[|g|..]) == [];
    assert Distinct(ids);
    forall x ensures x in ids <==> x in CallIds(calls) {
      if x in CallIds(calls) {
        var c :| c in calls && c.id == x;
        var i :| 0 <= i < |calls| && calls[i] == c;
        assert ids[i] == x;
      }
    }
  }

  /** The groups of a run and what follows them. */
  function Parts(gs: seq<seq<Message>>, tail: seq<Message>): seq<seq<Message>> { if tail == [] then gs else gs + [tail] }

  lemma PartsTile(gs: seq<seq<Message>>, tail: seq<Message>)
    requires AllClosed(gs) && |tail| <= 1 && (tail != [] ==> tail[0].role != Tool)
    ensures Tiled(Parts(gs, tail))
  {
    forall k | 0 <= k < |gs| ensures IsUnit(gs[k]) && gs[k][0].role != Tool {
      assert ClosedGroup(gs[k]);
      forall i | 1 <= i < |gs[k]| ensures gs[k][i].role == Tool {
        assert IsResultOf(gs[k][1 + (i - 1)], gs[k][0].calls[i - 1]);
      }
    }
  }

  lemma {:induction false} PartsFlatten(gs: seq<seq<Message>>, tail: seq<Message>)
    ensures Flatten(Parts(gs, tail)) == Flatten(gs) + tail
  {
    FlattenAppend(gs, [tail]);
    assert Flatten([tail]) == tail + Flatten([]);
  }

  /** The messages a run hands to its caller. */
  function Said(v: View): seq<Message> { Flatten(v.groups) + v.tail }

  /** Cut into units, the messages of a run are its groups, every one complete, and at the end what
      follows them. */
  lemma ProtocolUnits(v: View, err: Option<RunError>)
    requires Protocol(v, err)
    ensures Chunks(Said(v)) == Parts(v.groups, v.tail)
    ensures forall k :: 0 <= k < |v.groups| ==> Complete(v.groups[k]) && !OpenGroup(v.groups[k])
  {
    PartsTile(v.groups, v.tail);
    PartsFlatten(v.groups, v.tail);
    TilingIsUnique(Parts(v.groups, v.tail));
    forall k | 0 <= k < |v.groups| ensures Complete(v.groups[k]) {
      assert ClosedGroup(v.groups[k]);
      ClosedGroupIsComplete(v.groups[k]);
    }
  }

  /** No group but the last can be open, and none is after a run without an error: what is handed on is
      what compaction and pruning expect. */
  lemma OnlyTheLastIsOpen(v: View, err: Option<RunError>)
    requires Protocol(v, err)
    ensures ToolGroups.ClosedBatch(Said(v)) <==> !(v.tail != [] && OpenGroup(v.tail))
    ensures err.None? ==> ToolGroups.ClosedBatch(Said(v))
  {
    ProtocolUnits(v, err);
    forall k | 0 <= k < |v.groups| ensures v.groups[k] != [] && ToolGroups.Regular(v.groups[k]) {
      assert ClosedGroup(v.groups[k]);
    }
    if v.tail != [] { assert Parts(v.groups, v.tail)[|v.groups|] == v.tail; }
  }

  // ----- the books ----------------------------------------------------------------------------

  function TotalOf(usages: seq<G.Usage>): G.Sums {
    if usages == [] then G.Zero() else TotalOf(usages[..|usages| - 1]).Plus(usages[|usages| - 1])
  }

  predicate MeteredSummary(s: Summary) { s.Summarised? ==> G.Metered(s.usage) }

  predicate MeteredTurn(t: Turn) {
    && MeteredSummary(t.early) && MeteredSummary(t.overflow) && (t.reply.Replied? ==> G.Metered(t.reply.usage))
    && forall i :: 0 <= i < |t.debits| ==> G.Metered(t.debits[i])
  }

  /** What the children of a turn debited is what they report. */
  predicate Reported(t: Turn) { TotalOf(t.debits) == L.SpentBy(t.reports) }

  predicate Regular(t: Turn) { MeteredTurn(t) && Reported(t) }

  function WithTurns(a: G.Account, k: int): G.Account { a.(totals := a.totals.(turns := k)) }

  /** `h` lists the debits of the run's account; they add up to the ledger. */
  predicate Balanced(l: G.Limits, v: View, h: G.History) {
    && G.AllMetered(h) && G.SumOf(h) == L.Spent(v.ledger)
    && v.account == WithTurns(G.Balance(l, h), v.account.totals.turns)
  }

  lemma AccumulateAnyTurn(a: G.Account, u: G.Usage, k: int)
    ensures G.Accumulate(WithTurns(a, k), u) == (WithTurns(G.Accumulate(a, u).0, k), G.Accumulate(a, u).1)
  {}

  lemma ChargeBalances(l: G.Limits, v: View, h: G.History, phase: L.Phase, u: G.Usage, request: nat)
    requires Balanced(l, v, h) && G.Metered(u)
    ensures Balanced(l, Charge(v, phase, u, request).0, G.After(h, u))
  {
    AccumulateAnyTurn(G.Balance(l, h), u, v.account.totals.turns);
    L.SpentSnoc(v.ledger, L.Invocation(|v.ledger| + 1, phase, u, request));
  }

  ghost predicate Accounted(l: G.Limits, v: View) { exists h :: Balanced(l, v, h) }

  lemma ChargeAccounts(l: G.Limits, v: View, phase: L.Phase, u: G.Usage, request: nat)
    requires Accounted(l, v) && G.Metered(u)
    ensures Accounted(l, Charge(v, phase, u, request).0)
  {
    var h :| Balanced(l, v, h);
    ChargeBalances(l, v, h, phase, u, request);
  }

  lemma SkippedAccounts(l: G.Limits, v: View, requests: nat)
    requires Accounted(l, v)
    ensures Accounted(l, v.(requests := requests))
  {
    var h :| Balanced(l, v, h);
    assert Balanced(l, v.(requests := requests), h);
  }

  lemma MakeAccounts(l: G.Limits, v: View, phase: L.Phase, u: G.Usage, skipped: nat)
    requires Accounted(l, v) && G.Metered(u)
    ensures Accounted(l, Make(v, phase, u, skipped).0)
  {
    var (requests, index) := Draw(v.requests, skipped);
    var w := v.(requests := requests);
    SkippedAccounts(l, v, requests);
    if index.Some? {
      var x := Charge(w, phase, u, index.value).0;
      ChargeAccounts(l, w, phase, u, index.value);
      var h :| Balanced(l, x, h);
      assert Make(v, phase, u, skipped).0 == x;
    }
  }

  lemma GenerateAccounts(l: G.Limits, v: View, t: Turn)
    requires Accounted(l, v) && MeteredTurn(t)
    ensures Accounted(l, Generate(v, t).0)
  {
    if t.early.Summarised? { MakeAccounts(l, v, L.Compaction, t.early.usage, t.early.skipped); }
    var w := Summarise(v, t.early).0;
    if t.overflow.Summarised? { MakeAccounts(l, w, L.Compaction, t.overflow.usage, t.overflow.skipped); }
    var x := Summarise(w, t.overflow).0;
    if t.reply.Replied? { MakeAccounts(l, x, L.Action, t.reply.usage, t.reply.skipped); }
  }

  function Debits(h: G.History, usages: seq<G.Usage>): G.History {
    if usages == [] then h else G.After(Debits(h, usages[..|usages| - 1]), usages[|usages| - 1])
  }

  lemma {:induction false} DebitsSum(h: G.History, usages: seq<G.Usage>)
    ensures G.SumOf(Debits(h, usages)) == G.SumOf(h).And(TotalOf(usages))
    decreases |usages|
  {
    if usages == [] {
      L.AndZero(G.SumOf(h));
    } else {
      var n := |usages| - 1;
      DebitsSum(h, usages[..n]);
      L.AndPlus(G.SumOf(h), TotalOf(usages[..n]), usages[n]);
    }
  }

  lemma {:induction false} DebitsMetered(h: G.History, usages: seq<G.Usage>)
    requires G.AllMetered(h) && forall i :: 0 <= i < |usages| ==> G.Metered(usages[i])
    ensures G.AllMetered(Debits(h, usages))
    decreases |usages|
  {
    if usages != [] { DebitsMetered(h, usages[..|usages| - 1]); }
  }

  lemma {:induction false} DebitsBalance(l: G.Limits, h: G.History, usages: seq<G.Usage>, k: int)
    ensures DebitAll(WithTurns(G.Balance(l, h), k), usages) == WithTurns(G.Balance(l, Debits(h, usages)), k)
    decreases |usages|
  {
    if usages != [] {
      var n := |usages| - 1;
      DebitsBalance(l, h, usages[..n], k);
      AccumulateAnyTurn(G.Balance(l, Debits(h, usages[..n])), usages[n], k);
    }
  }

  lemma {:induction false} EmptyReportSpends(reports: seq<L.Report>)
    requires reports != [] && reports[0].invs == []
    ensures L.SpentBy(reports) == L.SpentBy(reports[1..])
  {
    assert L.Spent(reports[0].invs) == G.Zero();
  }

  lemma {:induction false} SameHeadSpends(reports: seq<L.Report>, kept: seq<L.Report>)
    requires reports != [] && kept != [] && kept[0] == reports[0]
    requires L.SpentBy(kept[1..]) == L.SpentBy(reports[1..])
    ensures L.SpentBy(kept) == L.SpentBy(reports)
  {}

  lemma {:induction false} FiledSpend(reports: seq<L.Report>)
    ensures L.SpentBy(Filed(reports)) == L.SpentBy(reports)
    decreases |reports|
  {
    if reports != [] {
      FiledSpend(reports[1..]);
      if reports[0].invs == [] {
        EmptyReportSpends(reports);
      } else {
        assert Filed(reports)[1..] == Filed(reports[1..]);
        SameHeadSpends(reports, Filed(reports));
      }
    }
  }

  lemma AndIsAssociative(a: G.Sums, b: G.Sums, c: G.Sums)
    ensures a.And(b).And(c) == a.And(b.And(c))
  {}

  lemma {:induction false} PostAllSpends(ledger: seq<L.Invocation>, reports: seq<L.Report>)
    ensures L.Spent(A.PostAll(ledger, reports)) == L.Spent(ledger).And(L.SpentBy(reports))
    decreases |reports|
  {
    if reports == [] {
      L.AndZero(L.Spent(ledger));
    } else {
      L.SpentPost(ledger, reports[0].invs);
      PostAllSpends(L.Post(ledger, reports[0].invs), reports[1..]);
      AndIsAssociative(L.Spent(ledger), L.Spent(reports[0].invs), L.SpentBy(reports[1..]));
    }
  }

  lemma {:induction false} SettledBalances(l: G.Limits, v: View, h: G.History, t: Turn)
    requires Balanced(l, v, h) && Regular(t)
    ensures Balanced(l, Settled(v, t), Debits(h, t.debits))
  {
    DebitsSum(h, t.debits);
    DebitsMetered(h, t.debits);
    DebitsBalance(l, h, t.debits, v.account.totals.turns);
    DebitAllSticks(v.account, t.debits);
    FiledSpend(t.reports);
    PostAllSpends(v.ledger, Filed(t.reports));
  }

  lemma ActAccounts(s: Setup, l: G.Limits, v: View, head: Message, t: Turn)
    requires Sane(v) && Accounted(l, v) && Regular(t)
    ensures Accounted(l, Act(s, v, head, t).0)
  {
    var x := v.(detector := Admit(s, v.detector, head.calls).0);
    var w := Act(s, v, head, t).0;
    SettledAccounts(l, v, t);
    if w.account == v.account && w.ledger == v.ledger {
      SameBooks(l, v, w);
    } else {
      assert w.account == Settled(x, t).account && w.ledger == Settled(x, t).ledger;
      SameBooks(l, Settled(v, t), w);
    }
  }

  lemma SettledAccounts(l: G.Limits, v: View, t: Turn)
    requires Accounted(l, v) && Regular(t)
    ensures Accounted(l, Settled(v, t))
  {
    var h :| Balanced(l, v, h);
    SettledBalances(l, v, h, t);
  }

  lemma SameBooks(l: G.Limits, v: View, w: View)
    requires Accounted(l, v) && w.account == v.account && w.ledger == v.ledger
    ensures Accounted(l, w)
  {
    var h :| Balanced(l, v, h);
    assert Balanced(l, w, h);
  }

  lemma TailAccounts(l: G.Limits, v: View, tail: seq<Message>)
    requires Accounted(l, v)
    ensures Accounted(l, v.(tail := tail))
  {
    var h :| Balanced(l, v, h);
    assert Balanced(l, v.(tail := tail), h);
  }

  /** Whatever becomes of a turn, its ledger and its budget still tell of the same calls. */
  lemma TurnAccounts(s: Setup, l: G.Limits, v: View, t: Turn)
    requires Sane(v) && Accounted(l, v) && Regular(t)
    ensures Accounted(l, Execute(s, v, t).view)
  {
    GenerateSticks(v, t);
    GenerateAccounts(l, v, t);
    if t.reply.Replied? {
      TailAccounts(l, Generate(v, t).0, [t.reply.message]);
      ActAccounts(s, l, Generate(v, t).0, t.reply.message, t);
    }
  }

  lemma StartedAccounts(l: G.Limits, v: View)
    requires Accounted(l, v)
    ensures Accounted(l, Started(v))
  {
    var h :| Balanced(l, v, h);
    assert Balanced(l, Started(v), h);
  }

  ghost predicate AllRegular(turns: nat -> Turn) { forall k :: Regular(turns(k)) }

  /** One turn of a run, with what it leads to. */
  lemma NextAccounts(s: Setup, l: G.Limits, v: View, turns: nat -> Turn, n: nat) returns (o: Outcome)
    requires Sane(v) && Accounted(l, v) && v.account.limits.maxTurns > 0 && Regular(turns(n))
    requires !turns(n).cancelled && TurnLimit(v).None?
    ensures Accounted(l, o.view) && Sane(o.view) && o.view.account.limits == v.account.limits
    ensures o.view.account.totals.turns == v.account.totals.turns + 1 <= v.account.limits.maxTurns
    ensures RunFrom(s, v, turns, n) == if o.Ends? then (o.view, o.err) else RunFrom(s, o.view, turns, n + 1)
  {
    o := Execute(s, Started(v), turns(n));
    StartedAccounts(l, v);
    TurnAccounts(s, l, Started(v), turns(n));
    RunStep(s, v, turns, n, o);
  }

  lemma {:induction false} RunAccounts(s: Setup, l: G.Limits, v: View, turns: nat -> Turn, n: nat)
    requires Sane(v) && Accounted(l, v) && v.account.limits.maxTurns > 0 && AllRegular(turns)
    ensures Accounted(l, RunFrom(s, v, turns, n).0)
    decreases v.account.limits.maxTurns - v.account.totals.turns
  {
    if !turns(n).cancelled && TurnLimit(v).None? {
      var o := NextAccounts(s, l, v, turns, n);
      if o.GoesOn? { RunAccounts(s, l, o.view, turns, n + 1); }
    }
  }

  /** A run begins with an open account and empty books. */
  predicate AtStart(l: G.Limits, v: View) { AtHead(v) && v.account == G.Open(l) && v.ledger == [] && v.groups == [] }

  /** Every run whose children report what they debited: its totals are the sums over its ledger; its
      budget is exhausted exactly if those sums reach a limit; and it ends without an error only below
      both limits. */
  lemma {:induction false} RunIsAccounted(s: Setup, l: G.Limits, v: View, turns: nat -> Turn)
    requires AtStart(l, v) && l.Valid() && AllRegular(turns)
    ensures var (w, err) := RunFrom(s, v, turns, 0);
      G.InRange(L.Spent(w.ledger)) ==>
        && LP.Matches(w.account.totals, L.Spent(w.ledger))
        && (w.account.exhausted <==> G.Reached(l, L.Spent(w.ledger)).Some?)
        && (err.None? ==> G.Reached(l, L.Spent(w.ledger)) == None)
  {
    assert Balanced(l, v, G.Empty);
    RunAccounts(s, l, v, turns, 0);
    RunKeepsProtocol(s, v, turns, 0);
    var (w, err) := RunFrom(s, v, turns, 0);
    if G.InRange(L.Spent(w.ledger)) {
      var h :| Balanced(l, w, h);
      G.TotalsAreSums(l, h);
      G.ExhaustedIffReached(l, h);
    }
  }

  predicate Holds(ledger: seq<L.Invocation>, phase: L.Phase, usage: G.Usage, index: nat) {
    exists k :: 0 <= k < |ledger| && ledger[k] == L.Invocation(k + 1, phase, usage, index)
  }

  lemma {:induction false} PostHolds(ledger: seq<L.Invocation>, invs: seq<L.Invocation>)
    requires L.Numbered(ledger)
    ensures ledger <= L.Post(ledger, invs) && L.Numbered(L.Post(ledger, invs))
    ensures forall x :: x in invs ==> Holds(L.Post(ledger, invs), L.Subagent, x.usage, x.index)
    decreases |invs|
  {
    if invs != [] {
      var n := |invs| - 1;
      PostHolds(ledger, invs[..n]);
      var before, after := L.Post(ledger, invs[..n]), L.Post(ledger, invs);
      forall x | x in invs ensures Holds(after, L.Subagent, x.usage, x.index) {
        if x in invs[..n] {
          var k :| 0 <= k < |before| && before[k] == L.Invocation(k + 1, L.Subagent, x.usage, x.index);
          assert after[k] == before[k];
        } else {
          assert after[|before|] == L.Invocation(|before| + 1, L.Subagent, x.usage, x.index);
        }
      }
    }
  }

  lemma HoldsOn(a: seq<L.Invocation>, b: seq<L.Invocation>, phase: L.Phase, usage: G.Usage, index: nat)
    requires a <= b && Holds(a, phase, usage, index)
    ensures Holds(b, phase, usage, index)
  {
    var k :| 0 <= k < |a| && a[k] == L.Invocation(k + 1, phase, usage, index);
    assert b[k] == a[k];
  }

  /** Every call of every report is in the ledger once it is settled. */
  lemma {:induction false} SettledHolds(ledger: seq<L.Invocation>, reports: seq<L.Report>)
    requires L.Numbered(ledger)
    ensures var after := A.PostAll(ledger, Filed(reports));
      && ledger <= after && L.Numbered(after)
      && forall r, x :: r in reports && x in r.invs ==> Holds(after, L.Subagent, x.usage, x.index)
    decreases |reports|
  {
    if reports != [] {
      var head, rest := reports[0], reports[1..];
      var next := L.Post(ledger, head.invs);
      PostHolds(ledger, head.invs);
      SettledHolds(next, rest);
      assert Filed(reports) == if head.invs == [] then Filed(rest) else [head] + Filed(rest);
      assert ([head] + Filed(rest))[1..] == Filed(rest);
      var after := A.PostAll(ledger, Filed(reports));
      assert after == A.PostAll(next, Filed(rest));
      forall r, x | r in reports && x in r.invs ensures Holds(after, L.Subagent, x.usage, x.index) {
        if r == head { HoldsOn(next, after, L.Subagent, x.usage, x.index); }
      }
    }
  }

  lemma ChargeHolds(v: View, phase: L.Phase, usage: G.Usage, request: nat)
    requires L.Numbered(v.ledger)
    ensures var w := Charge(v, phase, usage, request).0;
      v.ledger <= w.ledger && L.Numbered(w.ledger) && Holds(w.ledger, phase, usage, request)
  {
    var w := Charge(v, phase, usage, request).0;
    assert w.ledger[|v.ledger|] == L.Invocation(|v.ledger| + 1, phase, usage, request);
  }

  /** A call of the run itself: in the ledger, under an index it was given. */
  predicate HoldsOwn(ledger: seq<L.Invocation>, phase: L.Phase, usage: G.Usage) {
    exists k :: 0 <= k < |ledger| && ledger[k] == L.Invocation(k + 1, phase, usage, ledger[k].index)
  }

  lemma HoldsOwnOn(a: seq<L.Invocation>, b: seq<L.Invocation>, phase: L.Phase, usage: G.Usage)
    requires a <= b && HoldsOwn(a, phase, usage)
    ensures HoldsOwn(b, phase, usage)
  {
    var k :| 0 <= k < |a| && a[k] == L.Invocation(k + 1, phase, usage, a[k].index);
    assert b[k] == a[k];
  }

  /** The call was made and is in the ledger, or no index was left, and then none will be. */
  lemma MakeHolds(v: View, phase: L.Phase, usage: G.Usage, skipped: nat)
    requires L.Numbered(v.ledger) && v.requests <= G.MAX_UINT32
    ensures var (w, c) := Make(v, phase, usage, skipped);
      && v.ledger <= w.ledger && L.Numbered(w.ledger) && v.requests <= w.requests <= G.MAX_UINT32
      && (c.Charged? ==> HoldsOwn(w.ledger, phase, usage)) && (c.NoIndex? ==> w.requests == G.MAX_UINT32)
  {
    var (requests, index) := Draw(v.requests, skipped);
    if index.Some? {
      var w := Charge(v.(requests := requests), phase, usage, index.value).0;
      ChargeHolds(v.(requests := requests), phase, usage, index.value);
      var k :| 0 <= k < |w.ledger| && w.ledger[k] == L.Invocation(k + 1, phase, usage, index.value);
      assert w.ledger[k] == L.Invocation(k + 1, phase, usage, w.ledger[k].index);
    }
  }

  predicate SummaryHolds(v: View, s: Summary) {
    s.Summarised? ==> HoldsOwn(v.ledger, L.Compaction, s.usage) || v.requests >= G.MAX_UINT32
  }

  lemma SummariseHolds(v: View, s: Summary)
    requires L.Numbered(v.ledger) && v.requests <= G.MAX_UINT32
    ensures var w := Summarise(v, s).0;
      && v.ledger <= w.ledger && L.Numbered(w.ledger) && v.requests <= w.requests <= G.MAX_UINT32
      && SummaryHolds(w, s)
  {
    if s.Summarised? { MakeHolds(v, L.Compaction, s.usage, s.skipped); }
  }

  lemma SummaryHoldsOn(v: View, w: View, s: Summary)
    requires v.ledger <= w.ledger && v.requests <= w.requests && SummaryHolds(v, s)
    ensures SummaryHolds(w, s)
  {
    if s.Summarised? && HoldsOwn(v.ledger, L.Compaction, s.usage) {
      HoldsOwnOn(v.ledger, w.ledger, L.Compaction, s.usage);
    }
  }

  /** No summary and no reply that could be acted on is left out of the ledger. */
  lemma GenerateHolds(v: View, t: Turn)
    requires L.Numbered(v.ledger) && v.requests <= G.MAX_UINT32
    ensures var (w, g) := Generate(v, t);
      && v.ledger <= w.ledger && L.Numbered(w.ledger)
      && (g.Spoken? ==> HoldsOwn(w.ledger, L.Action, t.reply.usage))
      && (g.Spoken? && t.early.Summarised? ==> HoldsOwn(w.ledger, L.Compaction, t.early.usage))
      && (g.Spoken? && t.overflow.Summarised? ==> HoldsOwn(w.ledger, L.Compaction, t.overflow.usage))
  {
    if !t.cancelledInside {
      var (w, early) := Summarise(v, t.early);
      SummariseHolds(v, t.early);
      if early {
        var (x, late) := Summarise(w, t.overflow);
        SummariseHolds(w, t.overflow);
        SummaryHoldsOn(w, x, t.early);
        if late && t.reply.Replied? { ReplyHolds(x, t); }
      }
    }
  }

  /** A reply that was given an index finds the summaries before it in the ledger. */
  lemma ReplyHolds(x: View, t: Turn)
    requires L.Numbered(x.ledger) && x.requests <= G.MAX_UINT32 && t.reply.Replied?
    requires SummaryHolds(x, t.early) && SummaryHolds(x, t.overflow)
    ensures var (y, c) := Make(x, L.Action, t.reply.usage, t.reply.skipped);
      && x.ledger <= y.ledger && L.Numbered(y.ledger)
      && (c.Charged? ==> HoldsOwn(y.ledger, L.Action, t.reply.usage))
      && (c.Charged? && t.early.Summarised? ==> HoldsOwn(y.ledger, L.Compaction, t.early.usage))
      && (c.Charged? && t.overflow.Summarised? ==> HoldsOwn(y.ledger, L.Compaction, t.overflow.usage))
  {
    var (y, c) := Make(x, L.Action, t.reply.usage, t.reply.skipped);
    MakeHolds(x, L.Action, t.reply.usage, t.reply.skipped);
    if c.Charged? {
      if t.early.Summarised? { HoldsOwnOn(x.ledger, y.ledger, L.Compaction, t.early.usage); }
      if t.overflow.Summarised? { HoldsOwnOn(x.ledger, y.ledger, L.Compaction, t.overflow.usage); }
    }
  }

  /** Every call the children of a turn report is in the ledger. */
  ghost predicate Posted(ledger: seq<L.Invocation>, reports: seq<L.Report>) {
    forall r, x :: r in reports && x in r.invs ==> Holds(ledger, L.Subagent, x.usage, x.index)
  }

  lemma ActHolds(s: Setup, v: View, head: Message, t: Turn)
    requires Sane(v) && L.Numbered(v.ledger)
    ensures var w := Act(s, v, head, t).0;
      && v.ledger <= w.ledger && L.Numbered(w.ledger)
      && (Admit(s, v.detector, head.calls).1 in {D.Allow, D.Warn} ==> Posted(w.ledger, t.reports))
  {
    SettledHolds(v.ledger, t.reports);
  }

  /** However a turn ends: the ledger only grows, in order, and holds its reply and, once a batch was
      started, every call its children reported. */
  lemma TurnIsEntered(s: Setup, v: View, t: Turn)
    requires AtHead(v) && L.Numbered(v.ledger) && v.requests <= G.MAX_UINT32
    ensures var (o, g, m) := (Execute(s, v, t), Generate(v, t).1, t.reply);
      && v.ledger <= o.view.ledger && L.Numbered(o.view.ledger)
      && (g.Spoken? ==> HoldsOwn(o.view.ledger, L.Action, m.usage))
      && (g == Spoken(None) && m.message.calls != [] && Admit(s, v.detector, m.message.calls).1 in {D.Allow, D.Warn} ==>
            Posted(o.view.ledger, t.reports))
  {
    GenerateSticks(v, t);
    GenerateHolds(v, t);
    var (w, g) := Generate(v, t);
    if g == Spoken(None) && t.reply.message.calls != [] { ActHolds(s, w, t.reply.message, t); }
    if g.Spoken? { HoldsOwnOn(w.ledger, Execute(s, v, t).view.ledger, L.Action, t.reply.usage); }
  }

  // ----- request indexes ----------------------------------------------------------------------

  /** The entries carry indexes handed out behind `from`, and no two the same. */
  predicate Indexed(ledger: seq<L.Invocation>, from: nat, to: nat) {
    LP.Apart(ledger) && forall i :: 0 <= i < |ledger| ==> from < ledger[i].index <= to
  }

  /** The run's ledger, of a run that began when `from` indexes were handed out. */
  predicate Sequenced(v: View, from: nat) { from <= v.requests <= G.MAX_UINT32 && Indexed(v.ledger, from, v.requests) }

  lemma ChargeSequenced(v: View, from: nat, phase: L.Phase, usage: G.Usage, index: nat)
    requires from <= v.requests < index <= G.MAX_UINT32 && Indexed(v.ledger, from, v.requests)
    ensures Sequenced(Charge(v.(requests := index), phase, usage, index).0, from)
  {}

  lemma MakeSequenced(v: View, from: nat, phase: L.Phase, usage: G.Usage, skipped: nat)
    requires Sequenced(v, from)
    ensures var w := Make(v, phase, usage, skipped).0; Sequenced(w, from) && v.requests <= w.requests
  {
    var (requests, index) := Draw(v.requests, skipped);
    if index.Some? { ChargeSequenced(v, from, phase, usage, index.value); }
  }

  lemma GenerateSequenced(v: View, from: nat, t: Turn)
    requires Sequenced(v, from)
    ensures Sequenced(Generate(v, t).0, from)
  {
    if t.early.Summarised? { MakeSequenced(v, from, L.Compaction, t.early.usage, t.early.skipped); }
    var w := Summarise(v, t.early).0;
    if t.overflow.Summarised? { MakeSequenced(w, from, L.Compaction, t.overflow.usage, t.overflow.skipped); }
    var x := Summarise(w, t.overflow).0;
    if t.reply.Replied? { MakeSequenced(x, from, L.Action, t.reply.usage, t.reply.skipped); }
  }

  /** Reports whose calls got their indexes behind `from`: what a batch's children draw from the one sequencer
      they share. */
  predicate DrawnBehind(reports: seq<L.Report>, from: nat, to: nat) {
    && (forall r :: 0 <= r < |reports| ==> Indexed(reports[r].invs, from, to))
    && (forall r, q :: 0 <= r < q < |reports| ==> Disjoint(reports[r].invs, reports[q].invs))
  }

  predicate Disjoint(a: seq<L.Invocation>, b: seq<L.Invocation>) {
    forall i, j :: 0 <= i < |a| && 0 <= j < |b| ==> a[i].index != b[j].index
  }

  lemma {:induction false} PostDisjoint(ledger: seq<L.Invocation>, invs: seq<L.Invocation>, other: seq<L.Invocation>)
    requires Disjoint(ledger, other) && Disjoint(invs, other)
    ensures Disjoint(L.Post(ledger, invs), other)
  {
    var p := L.Post(ledger, invs);
    LP.PostIs(ledger, invs, 0);
    forall i, j | 0 <= i < |p| && 0 <= j < |other| ensures p[i].index != other[j].index {
      LP.PostedIndex(ledger, invs, i);
    }
  }

  lemma {:induction false} PostIndexed(ledger: seq<L.Invocation>, invs: seq<L.Invocation>, from: nat, to: nat)
    requires Indexed(ledger, from, to) && Indexed(invs, from, to) && Disjoint(ledger, invs)
    ensures Indexed(L.Post(ledger, invs), from, to)
  {
    var p := L.Post(ledger, invs);
    LP.PostApart(ledger, invs);
    LP.PostIs(ledger, invs, 0);
    forall i | 0 <= i < |p| ensures from < p[i].index <= to { LP.PostedIndex(ledger, invs, i); }
  }

  /** Reports with pairwise different indexes enter a ledger that has none of them. */
  lemma {:induction false} PostAllIndexed(ledger: seq<L.Invocation>, reports: seq<L.Report>, from: nat, to: nat)
    requires Indexed(ledger, from, to) && DrawnBehind(reports, from, to)
    requires forall r :: 0 <= r < |reports| ==> Disjoint(ledger, reports[r].invs)
    ensures Indexed(A.PostAll(ledger, reports), from, to)
    decreases |reports|
  {
    if reports != [] {
      var head, rest := reports[0].invs, reports[1..];
      assert Disjoint(ledger, reports[0].invs) && Indexed(reports[0].invs, from, to);
      PostIndexed(ledger, head, from, to);
      forall r | 0 <= r < |rest| ensures Disjoint(L.Post(ledger, head), rest[r].invs) && Indexed(rest[r].invs, from, to) {
        assert Disjoint(ledger, reports[r + 1].invs) && Disjoint(reports[0].invs, reports[r + 1].invs);
        PostDisjoint(ledger, head, rest[r].invs);
      }
      forall r, q | 0 <= r < q < |rest| ensures Disjoint(rest[r].invs, rest[q].invs) {
        assert Disjoint(reports[r + 1].invs, reports[q + 1].invs);
      }
      PostAllIndexed(L.Post(ledger, head), rest, from, to);
    }
  }

  lemma {:induction false} PostAllFiled(ledger: seq<L.Invocation>, reports: seq<L.Report>)
    ensures A.PostAll(ledger, Filed(reports)) == A.PostAll(ledger, reports)
    decreases |reports|
  {
    if reports != [] {
      PostAllFiled(L.Post(ledger, reports[0].invs), reports[1..]);
      assert ([reports[0]] + Filed(reports[1..]))[1..] == Filed(reports[1..]);
    }
  }

  /** The children of this turn drew the indexes of their calls while its batch ran. */
  predicate DrawsInBatch(v: View, t: Turn) { DrawnBehind(t.reports, v.requests, Advanced(v.requests, t.drawn)) }

  lemma SettledSequenced(v: View, from: nat, t: Turn)
    requires Sequenced(v, from) && DrawsInBatch(v, t)
    ensures Sequenced(Settled(v, t), from)
  {
    var to := Advanced(v.requests, t.drawn);
    forall r | 0 <= r < |t.reports|
      ensures Disjoint(v.ledger, t.reports[r].invs) && Indexed(t.reports[r].invs, from, to)
    {
      assert Indexed(t.reports[r].invs, v.requests, to);
    }
    PostAllIndexed(v.ledger, t.reports, from, to);
    PostAllFiled(v.ledger, t.reports);
  }

  lemma ActSequenced(s: Setup, v: View, from: nat, head: Message, t: Turn)
    requires Sane(v) && Sequenced(v, from) && DrawsInBatch(v, t)
    ensures Sequenced(Act(s, v, head, t).0, from)
  {
    var w := Act(s, v, head, t).0;
    SettledSequenced(v, from, t);
    assert (w.ledger == v.ledger && w.requests == v.requests)
        || (w.ledger == Settled(v, t).ledger && w.requests == Settled(v, t).requests);
  }

  lemma TurnSequenced(s: Setup, v: View, from: nat, t: Turn)
    requires Sane(v) && Sequenced(v, from) && DrawsInBatch(Generate(v, t).0, t)
    ensures Sequenced(Execute(s, v, t).view, from)
  {
    GenerateSticks(v, t);
    GenerateSequenced(v, from, t);
    if t.reply.Replied? { ActSequenced(s, Generate(v, t).0, from, t.reply.message, t); }
  }

  /** In every turn this run comes to, children draw their indexes while the batch runs. */
  ghost predicate DrawsInOrder(s: Setup, v: View, turns: nat -> Turn, n: nat)
    requires Sane(v) && v.account.limits.maxTurns > 0
    decreases v.account.limits.maxTurns - v.account.totals.turns
  {
    !turns(n).cancelled && TurnLimit(v).None? ==>
      && DrawsInBatch(Generate(Started(v), turns(n)).0, turns(n))
      && (ExecuteSticks(s, Started(v), turns(n));
          var o := Execute(s, Started(v), turns(n));
          o.GoesOn? ==> DrawsInOrder(s, o.view, turns, n + 1))
  }

  /** Over every run the indexes in its ledger, those of its children included, are pairwise different and were
      handed out during the run: behind the one the run began with, up to the last one. */
  lemma {:induction false} RunIsSequenced(s: Setup, v: View, from: nat, turns: nat -> Turn, n: nat)
    requires Sane(v) && v.account.limits.maxTurns > 0 && Sequenced(v, from) && DrawsInOrder(s, v, turns, n)
    ensures Sequenced(RunFrom(s, v, turns, n).0, from)
    decreases v.account.limits.maxTurns - v.account.totals.turns
  {
    if !turns(n).cancelled && TurnLimit(v).None? {
      var o := Execute(s, Started(v), turns(n));
      TurnSequenced(s, Started(v), from, turns(n));
      RunStep(s, v, turns, n, o);
      if o.GoesOn? { RunIsSequenced(s, o.view, from, turns, n + 1); }
    }
  }

  /** The report of a child run that used the sequencer while `from` to `to` were handed out is what its parent's
      batch expects. */
  lemma {:induction false} ChildDrawsBehind(s: Setup, v: View, turns: nat -> Turn)
    requires Sane(v) && v.account.limits.maxTurns > 0 && v.ledger == [] && v.requests <= G.MAX_UINT32
    requires DrawsInOrder(s, v, turns, 0)
    ensures var w := RunFrom(s, v, turns, 0).0; Indexed(w.ledger, v.requests, w.requests)
  {
    RunIsSequenced(s, v, v.requests, turns, 0);
  }

  /** The run's own calls, without those of its children. */
  function OwnUsages(ledger: seq<L.Invocation>): seq<G.Usage> {
    if ledger == [] then []
    else
      var last := ledger[|ledger| - 1];
      OwnUsages(ledger[..|ledger| - 1]) + if last.phase == L.Subagent then [] else [last.usage]
  }

  /** The parent's account, beginning with `p`, has taken every own call of this run, once and in order. */
  predicate ParentPaid(p: G.Account, v: View) { v.parent == Some(DebitAll(p, OwnUsages(v.ledger))) }

  lemma {:induction false} OwnUsagesSnoc(ledger: seq<L.Invocation>, i: L.Invocation)
    ensures OwnUsages(ledger + [i]) == OwnUsages(ledger) + if i.phase == L.Subagent then [] else [i.usage]
  {
    assert (ledger + [i])[..|ledger|] == ledger;
  }

  lemma {:induction false} DebitAllSnoc(a: G.Account, usages: seq<G.Usage>, u: G.Usage)
    ensures DebitAll(a, usages + [u]) == G.Accumulate(DebitAll(a, usages), u).0
  {
    assert (usages + [u])[..|usages|] == usages;
  }

  lemma ChargePays(p: G.Account, v: View, phase: L.Phase, u: G.Usage, request: nat)
    requires ParentPaid(p, v) && phase != L.Subagent
    ensures ParentPaid(p, Charge(v, phase, u, request).0)
  {
    OwnUsagesSnoc(v.ledger, L.Invocation(|v.ledger| + 1, phase, u, request));
    DebitAllSnoc(p, OwnUsages(v.ledger), u);
  }

  lemma MakePays(p: G.Account, v: View, phase: L.Phase, u: G.Usage, skipped: nat)
    requires ParentPaid(p, v) && phase != L.Subagent
    ensures ParentPaid(p, Make(v, phase, u, skipped).0)
  {
    var (requests, index) := Draw(v.requests, skipped);
    if index.Some? { ChargePays(p, v.(requests := requests), phase, u, index.value); }
  }

  lemma GeneratePays(p: G.Account, v: View, t: Turn)
    requires ParentPaid(p, v)
    ensures ParentPaid(p, Generate(v, t).0)
  {
    if t.early.Summarised? { MakePays(p, v, L.Compaction, t.early.usage, t.early.skipped); }
    var w := Summarise(v, t.early).0;
    if t.overflow.Summarised? { MakePays(p, w, L.Compaction, t.overflow.usage, t.overflow.skipped); }
    var x := Summarise(w, t.overflow).0;
    if t.reply.Replied? { MakePays(p, x, L.Action, t.reply.usage, t.reply.skipped); }
  }

  lemma {:induction false} PostIsNotOwn(ledger: seq<L.Invocation>, invs: seq<L.Invocation>)
    ensures OwnUsages(L.Post(ledger, invs)) == OwnUsages(ledger)
    decreases |invs|
  {
    if invs != [] {
      var n := |invs| - 1;
      PostIsNotOwn(ledger, invs[..n]);
      var before := L.Post(ledger, invs[..n]);
      OwnUsagesSnoc(before, L.Invocation(|before| + 1, L.Subagent, invs[n].usage, invs[n].index));
    }
  }

  lemma {:induction false} PostAllIsNotOwn(ledger: seq<L.Invocation>, reports: seq<L.Report>)
    ensures OwnUsages(A.PostAll(ledger, reports)) == OwnUsages(ledger)
    decreases |reports|
  {
    if reports != [] {
      PostIsNotOwn(ledger, reports[0].invs);
      PostAllIsNotOwn(L.Post(ledger, reports[0].invs), reports[1..]);
    }
  }

  lemma SettledPays(p: G.Account, v: View, t: Turn)
    requires ParentPaid(p, v)
    ensures ParentPaid(p, Settled(v, t))
  {
    PostAllIsNotOwn(v.ledger, Filed(t.reports));
  }

  lemma ActPays(s: Setup, p: G.Account, v: View, head: Message, t: Turn)
    requires Sane(v) && ParentPaid(p, v)
    ensures ParentPaid(p, Act(s, v, head, t).0)
  {
    var w := Act(s, v, head, t).0;
    var x := v.(detector := Admit(s, v.detector, head.calls).0);
    SettledPays(p, x, t);
    assert w.parent == v.parent && (w.ledger == v.ledger || w.ledger == Settled(x, t).ledger);
  }

  lemma TurnPays(s: Setup, p: G.Account, v: View, t: Turn)
    requires Sane(v) && ParentPaid(p, v)
    ensures ParentPaid(p, Execute(s, v, t).view)
  {
    GenerateSticks(v, t);
    GeneratePays(p, v, t);
    if t.reply.Replied? { ActPays(s, p, Generate(v, t).0, t.reply.message, t); }
  }

  /** A child's calls reach its parent's budget one by one, in order, whatever becomes of the child, and the
      calls of the child's own children do not. */
  lemma {:induction false} ParentPaysForEveryCall(s: Setup, p: G.Account, v: View, turns: nat -> Turn, n: nat)
    requires Sane(v) && ParentPaid(p, v) && v.account.limits.maxTurns > 0
    ensures ParentPaid(p, RunFrom(s, v, turns, n).0)
    decreases v.account.limits.maxTurns - v.account.totals.turns
  {
    if !turns(n).cancelled && TurnLimit(v).None? {
      var o := Execute(s, Started(v), turns(n));
      TurnPays(s, p, Started(v), turns(n));
      RunStep(s, v, turns, n, o);
      if o.GoesOn? { ParentPaysForEveryCall(s, p, o.view, turns, n + 1); }
    }
  }

  // ----- the detector -------------------------------------------------------------------------

  /** The detector after turns none of which is terminated. */
  function After(d: D.State, excluded: set<string>, xs: seq<P.Turn>): D.State
    requires P.Proper(xs)
    decreases |xs|
  {
    if xs == [] then d else After(P.Step(d, excluded, xs[0]), excluded, xs[1..])
  }

  lemma {:induction false} PlayIsAfter(p: P.Traced, excluded: set<string>, xs: seq<P.Turn>)
    requires P.Proper(xs) && D.Terminate !in P.Decisions(p.d, excluded, xs)
    ensures P.Play(p, excluded, xs).d == After(p.d, excluded, xs)
    decreases |xs|
  {
    if xs != [] {
      assert P.Decisions(p.d, excluded, xs)[0] != D.Terminate;
      PlayIsAfter(P.Advance(p, excluded, xs[0]), excluded, xs[1..]);
    }
  }

  lemma {:induction false} PlaySnoc(d: D.State, excluded: set<string>, xs: seq<P.Turn>, x: P.Turn)
    requires P.Proper(xs) && P.Proper(xs + [x]) && |x.calls| == |x.events| && D.Terminate !in P.Decisions(d, excluded, xs)
    ensures After(d, excluded, xs + [x]) == P.Step(After(d, excluded, xs), excluded, x)
    ensures P.Decisions(d, excluded, xs + [x])
         == P.Decisions(d, excluded, xs) + [P.DecisionOf(After(d, excluded, xs), excluded, x)]
    decreases |xs|
  {
    if xs == [] {
      assert xs + [x] == [x] && [x][1..] == [];
    } else {
      assert (xs + [x])[1..] == xs[1..] + [x];
      var e, ds := P.Step(d, excluded, xs[0]), P.Decisions(d, excluded, xs);
      assert ds[0] == P.DecisionOf(d, excluded, xs[0]) != D.Terminate;
      assert ds == [ds[0]] + P.Decisions(e, excluded, xs[1..]);
      PlaySnoc(e, excluded, xs[1..], x);
    }
  }

  /** The turn of the detector a closed group stands for. */
  predicate Stands(g: seq<Message>, x: P.Turn) {
    && g != [] && x.calls == g[0].calls && D.Aligned(x.calls, x.events)
  }

  predicate IsRecovery(g: seq<Message>) { g != [] && g[1..] == ResultMessages(Recovery(g[0].calls)) }

  /** `xs` is the detector's own account of the run: one turn for every group, none of them terminated, a
      recovery for every recovered one. */
  predicate Played(s: Setup, v: View, xs: seq<P.Turn>) {
    && P.Proper(xs) && |xs| == |v.groups| && (forall k :: 0 <= k < |xs| ==> Stands(v.groups[k], xs[k]))
    && var ds := P.Decisions(D.FRESH, s.excluded, xs);
    && D.Terminate !in ds && |ds| == |xs| && v.detector == After(D.FRESH, s.excluded, xs)
    && forall k :: 0 <= k < |ds| && ds[k] == D.Recover ==> IsRecovery(v.groups[k])
  }

  /** The run was stopped by the guard: the last decision is its only termination. */
  predicate Stopped(s: Setup, v: View, xs: seq<P.Turn>) {
    && P.Proper(xs) && |xs| == |v.groups| + 1
    && var ds := P.Decisions(D.FRESH, s.excluded, xs);
    && |ds| == |xs| && ds[|ds| - 1] == D.Terminate && D.Terminate !in ds[..|ds| - 1]
    && forall k :: 0 <= k < |ds| && ds[k] == D.Recover ==> k < |v.groups| && IsRecovery(v.groups[k])
  }

  lemma ConfirmedAligned(calls: seq<Call>, results: seq<B.ToolEvent>)
    requires B.ResultsMatchCalls(calls, results)
    ensures D.Aligned(calls, Confirmed(results))
  {}

  /** One more closed group is one more turn of the detector. */
  lemma GroupPlays(s: Setup, v: View, xs: seq<P.Turn>, head: Message, results: seq<B.ToolEvent>, w: View)
    requires Played(s, v, xs) && B.ResultsMatchCalls(head.calls, results)
    requires var x := P.Turn(head.calls, Confirmed(results));
      && P.DecisionOf(v.detector, s.excluded, x) != D.Terminate
      && (P.DecisionOf(v.detector, s.excluded, x) == D.Recover ==> results == Recovery(head.calls))
      && w.detector == P.Step(v.detector, s.excluded, x)
    requires w.groups == v.groups + [[head] + ResultMessages(results)]
    ensures Played(s, w, xs + [P.Turn(head.calls, Confirmed(results))])
  {
    ConfirmedAligned(head.calls, results);
    var x := P.Turn(head.calls, Confirmed(results));
    assert P.Proper(xs + [x]);
    PlaySnoc(D.FRESH, s.excluded, xs, x);
    var g := [head] + ResultMessages(results);
    assert g[1..] == ResultMessages(results);
    var ds := P.Decisions(D.FRESH, s.excluded, xs + [x]);
    forall k | 0 <= k < |ds| && ds[k] == D.Recover ensures IsRecovery(w.groups[k]) {
      if k < |xs| { assert w.groups[k] == v.groups[k]; }
    }
  }

  lemma TerminationStops(s: Setup, v: View, calls: seq<Call>, xs: seq<P.Turn>) returns (ys: seq<P.Turn>)
    requires Played(s, v, xs) && D.Admit(v.detector, D.Signatures(s.excluded, calls)).1.decision == D.Terminate
    ensures forall d :: Stopped(s, v.(detector := d), ys)
  {
    var refused := P.Turn(calls, Confirmed(Recovery(calls)));
    ConfirmedAligned(calls, Recovery(calls));
    assert P.Proper(xs + [refused]);
    PlaySnoc(D.FRESH, s.excluded, xs, refused);
    ys := xs + [refused];
    var ds := P.Decisions(D.FRESH, s.excluded, xs);
    assert P.Decisions(D.FRESH, s.excluded, ys)[..|ds|] == ds;
  }

  lemma ActPlays(s: Setup, v: View, head: Message, t: Turn, xs: seq<P.Turn>) returns (ys: seq<P.Turn>)
    requires Sane(v) && !s.undetected && Played(s, v, xs)
    ensures var (w, err) := Act(s, v, head, t);
      && (err.None? ==> Played(s, w, ys)) && (err == Some(LoopDetected) ==> Stopped(s, w, ys))
  {
    var (w, err) := Act(s, v, head, t);
    var (d, decision) := Admit(s, v.detector, head.calls);
    DebitAllSticks(v.account, t.debits);
    ys := xs;
    if decision == D.Terminate {
      ys := TerminationStops(s, v, head.calls, xs);
      assert w == v.(detector := d);
    } else if decision == D.Recover {
      GroupPlays(s, v, xs, head, Recovery(head.calls), w);
      ys := xs + [P.Turn(head.calls, Confirmed(Recovery(head.calls)))];
    } else if err.None? {
      var results := B.Results(s.tools, head.calls, t.tools);
      B.ResultsMatch(s.tools, head.calls, t.tools);
      GroupPlays(s, v, xs, head, results, w);
      ys := xs + [P.Turn(head.calls, Confirmed(results))];
    }
  }

  /** The loop uses the detector as its own proofs assume. */
  lemma TurnPlays(s: Setup, v: View, t: Turn, xs: seq<P.Turn>) returns (ys: seq<P.Turn>)
    requires AtHead(v) && !s.undetected && Played(s, v, xs)
    ensures var o := Execute(s, v, t);
      && (o.GoesOn? || o.err.None? ==> Played(s, o.view, ys))
      && (o.Ends? && o.err == Some(LoopDetected) ==> Stopped(s, o.view, ys))
  {
    GenerateSticks(v, t);
    ys := xs;
    var (w, g) := Generate(v, t);
    if g == Spoken(None) && t.reply.message.calls != [] {
      ys := ActPlays(s, w, t.reply.message, t, xs);
    }
  }

  lemma {:induction false} RunPlays(s: Setup, v: View, turns: nat -> Turn, n: nat, xs: seq<P.Turn>) returns (ys: seq<P.Turn>)
    requires AtHead(v) && v.account.limits.maxTurns > 0 && !s.undetected && Played(s, v, xs)
    ensures var (w, err) := RunFrom(s, v, turns, n);
      && (err.None? ==> Played(s, w, ys)) && (err == Some(LoopDetected) ==> Stopped(s, w, ys))
    decreases v.account.limits.maxTurns - v.account.totals.turns
  {
    ys := xs;
    if !turns(n).cancelled && TurnLimit(v).None? {
      var o := Execute(s, Started(v), turns(n));
      NextHead(s, v, turns, n, o);
      ys := TurnPlays(s, Started(v), turns(n), xs);
      if o.GoesOn? { ys := RunPlays(s, o.view, turns, n + 1, ys); }
    }
  }

  /** No run is stopped by the guard without a warning shot: one of its groups was recovered before. */
  lemma {:induction false} StoppedOnlyAfterRecovery(s: Setup, l: G.Limits, v: View, turns: nat -> Turn)
    requires AtStart(l, v) && v.account.limits.maxTurns > 0 && !s.undetected && v.detector == D.FRESH
    ensures var (w, err) := RunFrom(s, v, turns, 0);
      err == Some(LoopDetected) ==> exists k :: 0 <= k < |w.groups| && IsRecovery(w.groups[k])
  {
    var (w, err) := RunFrom(s, v, turns, 0);
    assert Played(s, v, []);
    var xs := RunPlays(s, v, turns, 0, []);
    if err == Some(LoopDetected) {
      P.RecoversOnceThenTerminates(D.FRESH, s.excluded, xs);
      var ds := P.Decisions(D.FRESH, s.excluded, xs);
      var i :| 0 <= i < |ds| && P.RecoversAt(ds, i);
      assert IsRecovery(w.groups[i]);
    }
  }

  // ----- streaks ------------------------------------------------------------------------------

  /** At most `m` copies of a signature in the calls of a group. */
  predicate GroupAtMost(s: Setup, g: seq<Message>, m: nat) {
    g != [] && P.AtMost(s.excluded, P.Turn(g[0].calls, []), m)
  }

  /** Recording the results of an admitted batch. */
  lemma RecordStreak(s: Setup, d: D.State, calls: seq<Call>, results: seq<B.ToolEvent>, m: nat, sig: D.Signature)
    requires !s.undetected && B.ResultsMatchCalls(calls, results) && Admit(s, d, calls).1 in {D.Allow, D.Warn}
    requires P.CountOf(d, sig) <= D.CRITICAL_THRESHOLD - 1 + m && P.AtMost(s.excluded, P.Turn(calls, []), m)
    ensures P.CountOf(Record(s, Admit(s, d, calls).0, calls, results), sig) <= D.CRITICAL_THRESHOLD - 1 + m
  {
    P.StepBound(d, s.excluded, P.Turn(calls, Confirmed(results)), m, sig);
  }

  /** Nothing the loop does with a batch raises a streak above the bound, whatever becomes of the batch. */
  lemma ActStreak(s: Setup, v: View, head: Message, t: Turn, m: nat, sig: D.Signature)
    requires Sane(v) && P.CountOf(v.detector, sig) <= D.CRITICAL_THRESHOLD - 1 + m
    requires Act(s, v, head, t).1.None? ==> P.AtMost(s.excluded, P.Turn(head.calls, []), m)
    ensures P.CountOf(Act(s, v, head, t).0.detector, sig) <= D.CRITICAL_THRESHOLD - 1 + m
  {
    var w, err := Act(s, v, head, t).0, Act(s, v, head, t).1;
    var decision := Admit(s, v.detector, head.calls).1;
    DebitAllSticks(v.account, t.debits);
    if !s.undetected {
      P.AdmitBound(v.detector, D.Signatures(s.excluded, head.calls), sig);
      if err.None? && decision != D.Recover {
        B.ResultsMatch(s.tools, head.calls, t.tools);
        var results := B.Results(s.tools, head.calls, t.tools);
        RecordStreak(s, v.detector, head.calls, results, m, sig);
      }
    }
  }

  lemma TurnStreak(s: Setup, v: View, t: Turn, m: nat, sig: D.Signature)
    requires AtHead(v) && P.CountOf(v.detector, sig) <= D.CRITICAL_THRESHOLD - 1 + m
    requires var o := Execute(s, v, t); o.GoesOn? ==> GroupAtMost(s, o.view.groups[|o.view.groups| - 1], m)
    ensures P.CountOf(Execute(s, v, t).view.detector, sig) <= D.CRITICAL_THRESHOLD - 1 + m
  {
    GenerateSticks(v, t);
    var (w, g) := Generate(v, t);
    if g == Spoken(None) && t.reply.message.calls != [] { ActStreak(s, w, t.reply.message, t, m, sig); }
  }

  /** The groups added from `from` on hold at most `m` copies each. */
  predicate AddedAtMost(s: Setup, gs: seq<seq<Message>>, from: nat, m: nat) {
    forall k :: from <= k < |gs| ==> GroupAtMost(s, gs[k], m)
  }

  /** One turn of a run, with what it leads to. */
  lemma NextStreak(s: Setup, v: View, turns: nat -> Turn, n: nat, m: nat, sig: D.Signature) returns (o: Outcome)
    requires AtHead(v) && v.account.limits.maxTurns > 0 && !turns(n).cancelled && TurnLimit(v).None?
    requires P.CountOf(v.detector, sig) <= D.CRITICAL_THRESHOLD - 1 + m
    requires AddedAtMost(s, RunFrom(s, v, turns, n).0.groups, |v.groups|, m)
    ensures P.CountOf(o.view.detector, sig) <= D.CRITICAL_THRESHOLD - 1 + m
    ensures v.groups <= o.view.groups && o.view.account.limits == v.account.limits
    ensures v.account.totals.turns < o.view.account.totals.turns <= v.account.limits.maxTurns
    ensures o.GoesOn? ==> AtHead(o.view)
    ensures RunFrom(s, v, turns, n) == if o.Ends? then (o.view, o.err) else RunFrom(s, o.view, turns, n + 1)
  {
    o := Execute(s, Started(v), turns(n));
    NextHead(s, v, turns, n, o);
    if o.GoesOn? {
      RunGrows(s, o.view, turns, n + 1);
      var k := |o.view.groups| - 1;
      TurnKeepsProtocol(s, Started(v), turns(n));
      assert RunFrom(s, v, turns, n).0.groups[k] == o.view.groups[k];
    }
    TurnStreak(s, Started(v), turns(n), m, sig);
  }

  /** However a run ends, and from whatever turn on: with at most `m` copies of a signature in every group it
      adds, no streak the detector knows of exceeds four plus `m`. */
  lemma {:induction false} StreaksInARun(s: Setup, v: View, turns: nat -> Turn, n: nat, m: nat, sig: D.Signature)
    requires AtHead(v) && v.account.limits.maxTurns > 0
    requires P.CountOf(v.detector, sig) <= D.CRITICAL_THRESHOLD - 1 + m
    requires AddedAtMost(s, RunFrom(s, v, turns, n).0.groups, |v.groups|, m)
    ensures P.CountOf(RunFrom(s, v, turns, n).0.detector, sig) <= D.CRITICAL_THRESHOLD - 1 + m
    decreases v.account.limits.maxTurns - v.account.totals.turns
  {
    if !turns(n).cancelled && TurnLimit(v).None? {
      var o := NextStreak(s, v, turns, n, m, sig);
      if o.GoesOn? { StreaksInARun(s, o.view, turns, n + 1, m, sig); }
    }
  }
}
