/** A batch of concurrent children, event by event, comes to what the turn loop settles in one step. */
module BatchProofs {
  import opened Common
  import opened Governor
  import opened Ledger
  import opened LedgerProofs
  import A = RunAccounting
  import T = Turns
  import P = TurnProofs

  /** Budget, ledger and losses of a run, and how many requests it had issued, when its current batch began. */
  datatype Mark = Mark(history: History, ledger: seq<Invocation>, lost: Sums, issued: nat)

  /** What happened in the current batch: where it began, its debits and its reports, in order. */
  datatype Batch = Batch(begin: Mark, debits: seq<Usage>, reports: seq<Report>)

  function MarkOf(s: State): Mark { Mark(s.history, s.ledger, s.lost, |s.owners|) }

  function After(b: Batch, s: State, e: Event): Batch
    requires Enabled(s, e)
  {
    match e
    case BeginBatch => Batch(MarkOf(s), [], [])
    case ChildDebit(c) => b.(debits := b.debits + [s.children[c].invs[|s.children[c].invs| - 1].usage])
    case ChildReport(c) => if s.children[c].invs == [] then b else b.(reports := b.reports + [Report(c, s.children[c].invs)])
    case _ => b
  }

  /** The batch a run has come to. */
  function BatchOf(l: Limits, r: Run): Batch {
    match r
    case Start => Batch(MarkOf(START), [], [])
    case Then(before, e) =>
      var s := Reach(l, before);
      if Enabled(s, e) then After(BatchOf(l, before), s, e) else BatchOf(l, before)
  }

  // ----- budget and ledger ----------------------------------------------------------------------

  /** The account has taken the debits; the ledger will have taken the reports once those pending are in. */
  predicate Tracks(s: State, b: Batch) {
    && s.history == P.Debits(b.begin.history, b.debits)
    && A.PostAll(s.ledger, s.reports) == A.PostAll(b.begin.ledger, b.reports)
  }

  lemma {:induction false} PostAllSnoc(ledger: seq<Invocation>, reports: seq<Report>, r: Report)
    ensures A.PostAll(ledger, reports + [r]) == Post(A.PostAll(ledger, reports), r.invs)
    decreases |reports|
  {
    if reports == [] {
      assert ([r])[1..] == [];
    } else {
      assert (reports + [r])[1..] == reports[1..] + [r];
      PostAllSnoc(Post(ledger, reports[0].invs), reports[1..], r);
    }
  }

  lemma {:induction false} DebitsSnoc(h: History, usages: seq<Usage>, u: Usage)
    ensures P.Debits(h, usages + [u]) == Governor.After(P.Debits(h, usages), u)
  {
    assert (usages + [u])[..|usages|] == usages;
  }

  /** An event that neither debits, nor reports, nor settles. */
  predicate Silent(e: Event) { !e.ChildDebit? && !e.ChildReport? && !e.Settle? && !e.BeginBatch? }

  lemma SilentStep(l: Limits, s: State, e: Event)
    requires s.batch && Enabled(s, e) && Silent(e)
    ensures var t := Apply(l, s, e); t.history == s.history && t.ledger == s.ledger && t.reports == s.reports
  {}

  lemma {:induction false} OneMoreReport(s: State, t: State, b: Batch, d: Batch, r: Report)
    requires Tracks(s, b) && t.history == s.history && t.ledger == s.ledger && t.reports == s.reports + [r]
    requires d.begin == b.begin && d.debits == b.debits && d.reports == b.reports + [r]
    ensures Tracks(t, d)
  {
    PostAllSnoc(s.ledger, s.reports, r);
    PostAllSnoc(b.begin.ledger, b.reports, r);
  }

  lemma {:induction false} ReportTracks(s: State, c: nat, b: Batch)
    requires Tracks(s, b) && Alive(s, c) && !s.children[c].debiting
    ensures Tracks(DoChildReport(s, c), After(b, s, ChildReport(c)))
  {
    if s.children[c].invs != [] {
      OneMoreReport(s, DoChildReport(s, c), b, After(b, s, ChildReport(c)), Report(c, s.children[c].invs));
    }
  }

  lemma {:induction false} DebitTracks(l: Limits, s: State, c: nat, b: Batch)
    requires Tracks(s, b) && Alive(s, c) && s.children[c].debiting && s.children[c].invs != []
    ensures Tracks(DoChildDebit(l, s, c), After(b, s, ChildDebit(c)))
  {
    DebitsSnoc(b.begin.history, b.debits, s.children[c].invs[|s.children[c].invs| - 1].usage);
  }

  lemma {:induction false} SettleTracks(s: State, t: State, b: Batch)
    requires Tracks(s, b) && s.reports != [] && t.history == s.history
    requires t.ledger == Post(s.ledger, s.reports[0].invs) && t.reports == s.reports[1..]
    ensures Tracks(t, b)
  {}

  lemma {:induction false} StepTracks(l: Limits, s: State, e: Event, b: Batch)
    requires Sound(s) && s.batch && Tracks(s, b) && Enabled(s, e)
    ensures Tracks(Apply(l, s, e), After(b, s, e))
  {
    match e
    case ChildDebit(c) => DebitTracks(l, s, c, b);
    case ChildReport(c) => ReportTracks(s, c, b);
    case Settle => SettleTracks(s, DoSettle(s), b);
    case _ => SilentStep(l, s, e);
  }

  // ----- debits and reports ---------------------------------------------------------------------

  /** Outside of a batch the debits are the ledger and what was lost. */
  lemma BoundarySums(s: State)
    requires Conserved(s) && s.reports == [] && NoneRunning(s.children)
    ensures SumOf(s.history) == Spent(s.ledger).And(s.lost)
  {
    NoneRunningSpends(s.children);
    AndZeros(Spent(s.ledger), s.lost);
  }

  /** Nothing lost is ever found again. */
  predicate Accumulates(m: Mark, s: State) {
    && SumOf(m.history) == Spent(m.ledger).And(m.lost)
    && 0 <= m.lost.count <= s.lost.count && (m.lost.count == 0 ==> Blank(m.lost))
  }

  lemma StepAccumulates(l: Limits, s: State, e: Event, m: Mark)
    requires Accumulates(m, s) && Enabled(s, e)
    ensures Accumulates(m, Apply(l, s, e))
  {
    if e.ChildVanish? {
      SpentCounts(Debited(s.children[e.child]));
      MoreThanBefore(s.lost, Spent(Debited(s.children[e.child])));
    }
  }

  lemma Cancel(a: Sums, b: Sums, t: Sums, r: Sums)
    requires a == b && a.And(t) == b.And(r)
    ensures t == r
  {}

  // ----- request indexes ------------------------------------------------------------------------

  /** A list of calls whose requests were issued behind the first `issued` ones. */
  predicate Behind(invs: seq<Invocation>, issued: nat) { forall i :: 0 <= i < |invs| ==> issued < invs[i].index }

  predicate ChildDrawn(c: Child, issued: nat) { Behind(c.invs, issued) && (c.pending == 0 || issued < c.pending) }

  /** Running children drew all their indexes during the batch. */
  predicate ChildrenDrawn(s: State, issued: nat) {
    issued <= |s.owners|
    && forall c :: 0 <= c < |s.children| && s.children[c].status == Running ==> ChildDrawn(s.children[c], issued)
  }

  predicate ReportDrawn(s: State, r: Report, issued: nat) {
    && Behind(r.invs, issued) && Piece(r.invs, s.owners, r.child + 1, 0)
    && r.child < |s.children| && s.children[r.child].status != Running
  }

  /** So did the children that reported, each of them once. */
  predicate ReportsDrawn(s: State, reports: seq<Report>, issued: nat) {
    && (forall r :: 0 <= r < |reports| ==> ReportDrawn(s, reports[r], issued))
    && (forall r, q :: 0 <= r < q < |reports| ==> reports[r].child != reports[q].child)
  }

  lemma StepChildrenDrawn(l: Limits, s: State, e: Event, issued: nat)
    requires ChildrenDrawn(s, issued) && s.batch && Enabled(s, e)
    ensures ChildrenDrawn(Apply(l, s, e), issued)
  {
    var t := Apply(l, s, e);
    forall c | 0 <= c < |t.children| && t.children[c].status == Running ensures ChildDrawn(t.children[c], issued) {
      if c < |s.children| { assert ChildDrawn(s.children[c], issued); }
    }
  }

  /** Only running children change, and more requests are issued. */
  predicate MovesOn(s: State, t: State) {
    && s.owners <= t.owners && |s.children| <= |t.children|
    && forall c :: 0 <= c < |s.children| && s.children[c].status != Running ==> t.children[c].status != Running
  }

  lemma StepMovesOn(l: Limits, s: State, e: Event)
    requires Sound(s) && s.batch && Enabled(s, e)
    ensures MovesOn(s, Apply(l, s, e))
  {
    if e.Settle? { assert Filed(s, s.reports[0].child); }
  }

  lemma ReportsStayDrawn(s: State, t: State, reports: seq<Report>, issued: nat)
    requires ReportsDrawn(s, reports, issued) && MovesOn(s, t)
    ensures ReportsDrawn(t, reports, issued)
  {
    forall r | 0 <= r < |reports| ensures ReportDrawn(t, reports[r], issued) {
      assert ReportDrawn(s, reports[r], issued);
    }
  }

  lemma StepReportsDrawn(l: Limits, s: State, e: Event, b: Batch)
    requires ReportsDrawn(s, b.reports, b.begin.issued) && ChildrenDrawn(s, b.begin.issued)
    requires Sound(s) && ChildIndexes(s) && s.batch && Enabled(s, e)
    ensures ReportsDrawn(Apply(l, s, e), After(b, s, e).reports, b.begin.issued)
  {
    var t := Apply(l, s, e);
    StepMovesOn(l, s, e);
    ReportsStayDrawn(s, t, b.reports, b.begin.issued);
    if e.ChildReport? && s.children[e.child].invs != [] {
      var c := e.child;
      assert Piece(s.children[c].invs, s.owners, c + 1, s.children[c].pending);
      assert ChildDrawn(s.children[c], b.begin.issued);
      forall r | 0 <= r < |b.reports| ensures b.reports[r].child != c {
        assert ReportDrawn(s, b.reports[r], b.begin.issued);
      }
      assert ReportDrawn(t, Report(c, s.children[c].invs), b.begin.issued);
    }
  }

  // ----- every run ------------------------------------------------------------------------------

  /** What is kept of a batch while it runs. */
  predicate Kept(s: State, b: Batch) {
    s.batch ==>
      && Tracks(s, b) && Accumulates(b.begin, s)
      && ChildrenDrawn(s, b.begin.issued) && ReportsDrawn(s, b.reports, b.begin.issued)
  }

  lemma BeginKept(s: State, t: State, b: Batch)
    requires Inv(s) && LostIff(s) && !s.batch && t == s.(batch := true, cancelled := false)
    requires b.begin == MarkOf(s) && b.debits == [] && b.reports == []
    ensures Kept(t, b)
  {
    BoundarySums(s);
  }

  lemma StepKept(l: Limits, s: State, e: Event, b: Batch)
    requires Inv(s) && LostIff(s) && Kept(s, b) && Enabled(s, e)
    ensures Kept(Apply(l, s, e), After(b, s, e))
  {
    if e.BeginBatch? {
      BeginKept(s, Apply(l, s, e), After(b, s, e));
    } else if s.batch {
      StepTracks(l, s, e, b);
      StepAccumulates(l, s, e, b.begin);
      StepChildrenDrawn(l, s, e, b.begin.issued);
      StepReportsDrawn(l, s, e, b);
    }
  }

  lemma {:induction false} EveryBatchKept(l: Limits, r: Run)
    ensures Kept(Reach(l, r), BatchOf(l, r))
  {
    if r.Then? {
      var s := Reach(l, r.before);
      EveryBatchKept(l, r.before);
      EveryRunKeeps(l, r.before);
      EveryRunLoses(l, r.before);
      if Enabled(s, r.event) {
        StepKept(l, s, r.event, BatchOf(l, r.before));
        assert Reach(l, r) == Apply(l, s, r.event);
      } else {
        assert Reach(l, r) == s;
      }
    }
  }

  // ----- the results ----------------------------------------------------------------------------

  /** At the end of a batch, whatever the interleaving of its children: the budget is the one it began with,
      debited in order, and the ledger the one it began with, with every report posted. */
  lemma {:induction false} BatchIsSettled(l: Limits, r: Run)
    requires Enabled(Reach(l, r), EndBatch)
    ensures var s, b := Reach(l, r), BatchOf(l, r);
      && Balance(l, s.history) == T.DebitAll(Balance(l, b.begin.history), b.debits)
      && s.ledger == A.PostAll(b.begin.ledger, b.reports)
  {
    EveryBatchKept(l, r);
    var b := BatchOf(l, r);
    BalanceOfDebits(l, b.begin.history, b.debits);
  }

  lemma {:induction false} BalanceOfDebits(l: Limits, h: History, usages: seq<Usage>)
    ensures T.DebitAll(Balance(l, h), usages) == Balance(l, P.Debits(h, usages))
    decreases |usages|
  {
    if usages != [] { BalanceOfDebits(l, h, usages[..|usages| - 1]); }
  }

  /** A turn of the loop whose children behave as those of this batch. */
  predicate TakesFrom(t: T.Turn, b: Batch, s: State) {
    t.debits == b.debits && t.reports == b.reports && b.begin.issued <= |s.owners| && t.drawn == |s.owners| - b.begin.issued
  }

  /** In such a turn what is debited is what is reported, unless a child vanished with debits. */
  lemma {:induction false} BatchIsReported(l: Limits, r: Run, t: T.Turn)
    requires Enabled(Reach(l, r), EndBatch) && TakesFrom(t, BatchOf(l, r), Reach(l, r))
    requires VanishedEmpty(Reach(l, r).children)
    ensures P.Reported(t)
  {
    var s, b := Reach(l, r), BatchOf(l, r);
    EveryBatchKept(l, r);
    EveryRunKeeps(l, r);
    EveryRunLoses(l, r);
    ReportsMakeDebits(s, b);
  }

  /** The debits of a batch are the debits at its end less those at its beginning, and so are its reports. */
  lemma ReportsMakeDebits(s: State, b: Batch)
    requires Kept(s, b) && Inv(s) && LostIff(s) && Enabled(s, EndBatch) && VanishedEmpty(s.children)
    ensures P.TotalOf(b.debits) == SpentBy(b.reports)
  {
    AtEnd(s, b);
    SumsAtEnd(s, b);
  }

  lemma AtEnd(s: State, b: Batch)
    requires Kept(s, b) && Inv(s) && LostIff(s) && Enabled(s, EndBatch) && VanishedEmpty(s.children)
    ensures s.history == P.Debits(b.begin.history, b.debits) && s.ledger == A.PostAll(b.begin.ledger, b.reports)
    ensures SumOf(s.history) == Spent(s.ledger).And(s.lost) && Blank(s.lost)
    ensures SumOf(b.begin.history) == Spent(b.begin.ledger).And(b.begin.lost) && Blank(b.begin.lost)
  {
    BoundarySums(s);
  }

  lemma SumsAtEnd(s: State, b: Batch)
    requires s.history == P.Debits(b.begin.history, b.debits) && s.ledger == A.PostAll(b.begin.ledger, b.reports)
    requires SumOf(s.history) == Spent(s.ledger).And(s.lost) && Blank(s.lost)
    requires SumOf(b.begin.history) == Spent(b.begin.ledger).And(b.begin.lost) && Blank(b.begin.lost)
    ensures P.TotalOf(b.debits) == SpentBy(b.reports)
  {
    NothingLost(s.lost, Spent(s.ledger));
    NothingLost(b.begin.lost, Spent(b.begin.ledger));
    P.DebitsSum(b.begin.history, b.debits);
    P.PostAllSpends(b.begin.ledger, b.reports);
    Cancel(SumOf(b.begin.history), Spent(b.begin.ledger), P.TotalOf(b.debits), SpentBy(b.reports));
  }

  lemma NothingLost(lost: Sums, x: Sums)
    requires Blank(lost)
    ensures x.And(lost) == x
  {
    BlankIsZero(lost);
    AndZero(x);
  }

  lemma {:induction false} IssuedInRange(l: Limits, r: Run)
    ensures |Reach(l, r).owners| <= MAX_UINT32
  {
    if r.Then? { IssuedInRange(l, r.before); }
  }

  /** And its children drew the indexes of their calls while the batch ran. */
  lemma {:induction false} BatchDraws(l: Limits, r: Run, t: T.Turn, v: T.View)
    requires Enabled(Reach(l, r), EndBatch) && TakesFrom(t, BatchOf(l, r), Reach(l, r))
    requires v.requests == BatchOf(l, r).begin.issued
    ensures P.DrawsInBatch(v, t)
  {
    var s, b := Reach(l, r), BatchOf(l, r);
    IssuedInRange(l, r);
    EveryBatchKept(l, r);
    forall k | 0 <= k < |t.reports| ensures P.Indexed(t.reports[k].invs, v.requests, |s.owners|) {
      assert ReportDrawn(s, b.reports[k], b.begin.issued);
    }
    forall k, q | 0 <= k < q < |t.reports| ensures P.Disjoint(t.reports[k].invs, t.reports[q].invs) {
      assert ReportDrawn(s, b.reports[k], b.begin.issued) && ReportDrawn(s, b.reports[q], b.begin.issued);
    }
  }
}
