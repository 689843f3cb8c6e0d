/** The totals agree with the ledger over every interleaving of a run and its subagents. */
module LedgerProofs {
  import opened Common
  import opened Governor
  import opened Ledger

  // ----- conservation -------------------------------------------------------------------------

  predicate Filed(s: State, c: nat) { c < |s.children| && s.children[c].status == Reported }

  /** Children that are still debiting have an entry to debit. */
  predicate Sound(s: State) {
    && (forall c :: 0 <= c < |s.children| && s.children[c].debiting ==> s.children[c].invs != [])
    && (forall r :: 0 <= r < |s.reports| ==> Filed(s, s.reports[r].child))
    && (!s.batch ==> s.reports == [] && NoneRunning(s.children))
  }

  lemma RunningOnly(s: State, c: nat, child: Child)
    requires c < |s.children|
    ensures Shifted(SpentRunning(s.children[c := child]), SpentRunning(s.children),
                    RunningShare(child), RunningShare(s.children[c]))
  {
    SpentRunningUpdate(s.children, c, child);
  }

  // Moving an amount between the parts, as arithmetic on the parts alone.

  lemma AddCall(w: Sums, a: Sums, b: Sums, r: Sums, x: Sums, u: Usage)
    requires AddUp(w, a, b, r, x)
    ensures AddUp(w.Plus(u), a.Plus(u), b, r, x)
  {}

  lemma AddDebit(w: Sums, a: Sums, b: Sums, r: Sums, r': Sums, x: Sums, d: Sums, u: Usage)
    requires AddUp(w, a, b, r, x) && Shifted(r', r, d.Plus(u), d)
    ensures AddUp(w.Plus(u), a, b, r', x)
  {}

  lemma MoveToReport(w: Sums, a: Sums, b: Sums, r: Sums, r': Sums, x: Sums, d: Sums)
    requires AddUp(w, a, b, r, x) && Shifted(r', r, Zero(), d)
    ensures AddUp(w, a, b.And(d), r', x)
    ensures AddUp(w, a, b, r', x.And(d))
  {}

  lemma MoveToLedger(w: Sums, a: Sums, b: Sums, r: Sums, r': Sums, x: Sums, d: Sums)
    requires AddUp(w, a, d.And(b), r, x) && Shifted(r', r, Zero(), Zero())
    ensures AddUp(w, a.And(d), b, r', x)
  {}

  lemma SameShare(r: Sums, r': Sums, d: Sums)
    requires Shifted(r', r, d, d)
    ensures r' == r
  {}

  lemma CallConserves(s: State, phase: Phase, u: Usage, ended: bool)
    requires Conserved(s)
    ensures Conserved(DoCall(s, phase, u, ended))
  {
    SpentSnoc(s.ledger, Invocation(|s.ledger| + 1, phase, u, s.pending));
    AddCall(SumOf(s.history), Spent(s.ledger), SpentBy(s.reports), SpentRunning(s.children), s.lost, u);
  }

  lemma ChildRequestConserves(s: State, c: nat)
    requires Conserved(s) && Alive(s, c)
    ensures Conserved(DoChildRequest(s, c))
  {
    var child := s.children[c].(pending := |s.owners| + 1);
    RunningOnly(s, c, child);
    assert Debited(child) == Debited(s.children[c]);
    SameShare(SpentRunning(s.children), SpentRunning(s.children[c := child]), RunningShare(child));
  }

  lemma ChildCallConserves(s: State, c: nat, u: Usage)
    requires Conserved(s) && Alive(s, c) && !s.children[c].debiting
    ensures Conserved(DoChildCall(s, c, u))
  {
    var child := s.children[c];
    var next := child.(invs := Append(child.invs, Action, u, child.pending), debiting := true, pending := 0);
    assert Debited(next) == child.invs;
    RunningOnly(s, c, next);
    SameShare(SpentRunning(s.children), SpentRunning(s.children[c := next]), Spent(child.invs));
  }

  lemma ChildDebitConserves(l: Limits, s: State, c: nat)
    requires Conserved(s) && Alive(s, c) && s.children[c].debiting && s.children[c].invs != []
    ensures Conserved(DoChildDebit(l, s, c))
  {
    var child := s.children[c];
    var next := child.(debiting := false);
    var u := child.invs[|child.invs| - 1].usage;
    RunningOnly(s, c, next);
    assert RunningShare(next) == Spent(Debited(child)).Plus(u);
    AddDebit(SumOf(s.history), Spent(s.ledger), SpentBy(s.reports), SpentRunning(s.children),
             SpentRunning(s.children[c := next]), s.lost, Spent(Debited(child)), u);
  }

  /** A child that stops running takes its share out of the running ones. */
  lemma StopsRunning(s: State, c: nat, status: Status)
    requires Conserved(s) && Alive(s, c) && status != Running
    ensures var d, r' := Spent(Debited(s.children[c])), SpentRunning(s.children[c := s.children[c].(status := status)]);
      && AddUp(SumOf(s.history), Spent(s.ledger), SpentBy(s.reports).And(d), r', s.lost)
      && AddUp(SumOf(s.history), Spent(s.ledger), SpentBy(s.reports), r', s.lost.And(d))
  {
    var next := s.children[c].(status := status);
    RunningOnly(s, c, next);
    MoveToReport(SumOf(s.history), Spent(s.ledger), SpentBy(s.reports), SpentRunning(s.children),
                 SpentRunning(s.children[c := next]), s.lost, Spent(Debited(s.children[c])));
  }

  lemma ChildReportConserves(s: State, c: nat)
    requires Conserved(s) && Alive(s, c) && !s.children[c].debiting
    ensures Conserved(DoChildReport(s, c))
  {
    var child := s.children[c];
    if child.invs == [] {
      StopsRunning(s, c, Settled);
      AndZero(SpentBy(s.reports));
    } else {
      StopsRunning(s, c, Reported);
      SpentBySnoc(s.reports, Report(c, child.invs));
    }
  }

  lemma ChildVanishConserves(s: State, c: nat)
    requires Conserved(s) && Alive(s, c)
    ensures Conserved(DoChildVanish(s, c))
  {
    StopsRunning(s, c, Vanished);
  }

  lemma {:induction false} SpentByHead(reports: seq<Report>)
    requires reports != []
    ensures SpentBy(reports) == Spent(reports[0].invs).And(SpentBy(reports[1..]))
  {}

  lemma {:induction false} SettleAddsUp(w: Sums, ledger: seq<Invocation>, reports: seq<Report>, cs: seq<Child>, lost: Sums)
    requires reports != [] && reports[0].child < |cs| && cs[reports[0].child].status == Reported
    requires AddUp(w, Spent(ledger), SpentBy(reports), SpentRunning(cs), lost)
    ensures var c := reports[0].child;
      AddUp(w, Spent(Post(ledger, reports[0].invs)), SpentBy(reports[1..]),
            SpentRunning(cs[c := cs[c].(status := Settled)]), lost)
  {
    var c, invs := reports[0].child, reports[0].invs;
    var cs' := cs[c := cs[c].(status := Settled)];
    SpentByHead(reports);
    SettledShare(cs, c);
    MoveToLedger(w, Spent(ledger), SpentBy(reports[1..]), SpentRunning(cs), SpentRunning(cs'), lost, Spent(invs));
    SpentPost(ledger, invs);
  }

  lemma SettleConserves(s: State)
    requires Conserved(s) && s.reports != [] && Filed(s, s.reports[0].child)
    ensures Conserved(DoSettle(s))
  {
    SettleAddsUp(SumOf(s.history), s.ledger, s.reports, s.children, s.lost);
  }

  lemma SettledShare(cs: seq<Child>, c: nat)
    requires c < |cs| && cs[c].status == Reported
    ensures Shifted(SpentRunning(cs[c := cs[c].(status := Settled)]), SpentRunning(cs), Zero(), Zero())
  {
    SpentRunningUpdate(cs, c, cs[c].(status := Settled));
  }

  lemma SpawnConserves(s: State)
    requires Conserved(s)
    ensures Conserved(s.(children := s.children + [Child(Running, [], false, 0)]))
  {
    SpentRunningSnoc(s.children, Child(Running, [], false, 0));
    AndZero(SpentRunning(s.children));
  }

  lemma StepConserves(l: Limits, s: State, e: Event)
    requires Conserved(s) && Sound(s) && Enabled(s, e)
    ensures Conserved(Apply(l, s, e))
  {
    match e
    case Call(phase, u) => CallConserves(s, phase, u, Accumulate(Balance(l, s.history), u).1.Some?);
    case Spawn => SpawnConserves(s);
    case ChildRequest(c) => ChildRequestConserves(s, c);
    case ChildCall(c, u) => ChildCallConserves(s, c, u);
    case ChildDebit(c) => ChildDebitConserves(l, s, c);
    case ChildReport(c) => ChildReportConserves(s, c);
    case ChildVanish(c) => ChildVanishConserves(s, c);
    case Settle => SettleConserves(s);
    case _ =>
  }

  // ----- request indexes ----------------------------------------------------------------------

  predicate Issued(index: nat, owners: seq<nat>, o: nat) { 1 <= index <= |owners| && owners[index - 1] == o }

  predicate Apart(invs: seq<Invocation>) { forall i, j :: 0 <= i < j < |invs| ==> invs[i].index != invs[j].index }

  /** Entries whose requests were all issued to `o`, with `pending` still out. */
  predicate Piece(invs: seq<Invocation>, owners: seq<nat>, o: nat, pending: nat) {
    && Apart(invs)
    && (forall i :: 0 <= i < |invs| ==> Issued(invs[i].index, owners, o) && invs[i].index != pending)
    && (pending != 0 ==> Issued(pending, owners, o))
  }

  /** An index in the ledger belongs to the run itself or to a settled child. */
  predicate Entered(index: nat, s: State) {
    && 1 <= index <= |s.owners|
    && var o := s.owners[index - 1];
    o == 0 || (o <= |s.children| && s.children[o - 1].status == Settled)
  }

  predicate LedgerIndexes(s: State) {
    && Apart(s.ledger)
    && (forall i :: 0 <= i < |s.ledger| ==> Entered(s.ledger[i].index, s) && s.ledger[i].index != s.pending)
    && (s.pending != 0 ==> Issued(s.pending, s.owners, 0))
  }

  predicate ChildIndexes(s: State) {
    forall c :: 0 <= c < |s.children| && s.children[c].status == Running ==>
      Piece(s.children[c].invs, s.owners, c + 1, s.children[c].pending)
  }

  predicate ReportIndexes(s: State) {
    && (forall r :: 0 <= r < |s.reports| ==> Piece(s.reports[r].invs, s.owners, s.reports[r].child + 1, 0))
    && (forall i, j :: 0 <= i < j < |s.reports| ==> s.reports[i].child != s.reports[j].child)
  }

  predicate Inv(s: State) {
    Sound(s) && Conserved(s) && Numbered(s.ledger) && LedgerIndexes(s) && ChildIndexes(s) && ReportIndexes(s)
  }

  /** What posting a report appends. */
  lemma {:induction false} PostIs(ledger: seq<Invocation>, invs: seq<Invocation>, i: nat)
    ensures |Post(ledger, invs)| == |ledger| + |invs|
    ensures i < |ledger| ==> Post(ledger, invs)[i] == ledger[i]
    ensures i < |invs| ==>
      Post(ledger, invs)[|ledger| + i] == Invocation(|ledger| + i + 1, Subagent, invs[i].usage, invs[i].index)
    decreases |invs|
  {
    if invs != [] { PostIs(ledger, invs[..|invs| - 1], i); }
  }

  lemma PieceGrows(invs: seq<Invocation>, owners: seq<nat>, o: nat, pending: nat, next: nat)
    requires Piece(invs, owners, o, pending)
    ensures Piece(invs, owners + [next], o, pending)
  {}

  /** Whatever leaves the ledger alone and unsettles no child keeps its indexes. */
  lemma LedgerFrame(s: State, t: State)
    requires LedgerIndexes(s) && t.ledger == s.ledger && t.pending == s.pending && s.owners <= t.owners
    requires |s.children| <= |t.children|
    requires forall c :: 0 <= c < |s.children| && s.children[c].status == Settled ==> t.children[c].status == Settled
    ensures LedgerIndexes(t)
  {
    forall i | 0 <= i < |t.ledger| ensures Entered(t.ledger[i].index, t) {
      assert Entered(s.ledger[i].index, s);
    }
  }

  lemma RequestKeeps(s: State)
    requires LedgerIndexes(s) && ChildIndexes(s) && ReportIndexes(s)
    ensures var t := s.(owners := s.owners + [0], pending := |s.owners| + 1);
      LedgerIndexes(t) && ChildIndexes(t) && ReportIndexes(t)
  {
    MoreOwners(s, 0);
    LedgerFrame(s, s.(owners := s.owners + [0]));
    forall i | 0 <= i < |s.ledger| ensures s.ledger[i].index != |s.owners| + 1 { assert Entered(s.ledger[i].index, s); }
    var t := s.(owners := s.owners + [0], pending := |s.owners| + 1);
    forall i | 0 <= i < |t.ledger| ensures Entered(t.ledger[i].index, t) {
      assert Entered(t.ledger[i].index, s.(owners := s.owners + [0]));
    }
  }

  lemma MoreOwners(s: State, o: nat)
    requires ChildIndexes(s) && ReportIndexes(s)
    ensures ChildIndexes(s.(owners := s.owners + [o])) && ReportIndexes(s.(owners := s.owners + [o]))
  {
    forall c | 0 <= c < |s.children| && s.children[c].status == Running
      ensures Piece(s.children[c].invs, s.owners + [o], c + 1, s.children[c].pending)
    {
      PieceGrows(s.children[c].invs, s.owners, c + 1, s.children[c].pending, o);
    }
    forall r | 0 <= r < |s.reports| ensures Piece(s.reports[r].invs, s.owners + [o], s.reports[r].child + 1, 0) {
      PieceGrows(s.reports[r].invs, s.owners, s.reports[r].child + 1, 0, o);
    }
  }

  /** One child changes, and its piece is in order. */
  lemma ChildFrame(s: State, t: State, c: nat)
    requires ChildIndexes(s) && t.owners == s.owners && c < |s.children| == |t.children|
    requires forall d :: 0 <= d < |s.children| && d != c ==> t.children[d] == s.children[d]
    requires t.children[c].status == Running ==> Piece(t.children[c].invs, t.owners, c + 1, t.children[c].pending)
    ensures ChildIndexes(t)
  {
    forall d | 0 <= d < |t.children| && t.children[d].status == Running
      ensures Piece(t.children[d].invs, t.owners, d + 1, t.children[d].pending)
    {
      if d != c { assert Piece(s.children[d].invs, s.owners, d + 1, s.children[d].pending); }
    }
  }

  lemma ChildRequestKeeps(s: State, c: nat)
    requires LedgerIndexes(s) && ChildIndexes(s) && ReportIndexes(s) && Alive(s, c)
    ensures var t := DoChildRequest(s, c); LedgerIndexes(t) && ChildIndexes(t) && ReportIndexes(t)
  {
    var m, t := s.(owners := s.owners + [c + 1]), DoChildRequest(s, c);
    MoreOwners(s, c + 1);
    LedgerFrame(s, t);
    assert Piece(s.children[c].invs, s.owners, c + 1, s.children[c].pending);
    assert Piece(m.children[c].invs, m.owners, c + 1, m.children[c].pending);
    ChildFrame(m, t, c);
  }

  lemma CallKeeps(s: State, phase: Phase, u: Usage, ended: bool)
    requires LedgerIndexes(s) && Numbered(s.ledger) && s.pending != 0
    ensures var t := DoCall(s, phase, u, ended); LedgerIndexes(t) && Numbered(t.ledger)
  {
    var t := DoCall(s, phase, u, ended);
    forall i | 0 <= i < |t.ledger| ensures Entered(t.ledger[i].index, t) && t.ledger[i].index != 0 {
      if i < |s.ledger| { assert Entered(s.ledger[i].index, s); }
    }
  }

  lemma ChildCallKeeps(s: State, c: nat, u: Usage)
    requires ChildIndexes(s) && Alive(s, c) && s.children[c].pending != 0
    requires LedgerIndexes(s) && ReportIndexes(s)
    ensures var t := DoChildCall(s, c, u); LedgerIndexes(t) && ChildIndexes(t) && ReportIndexes(t)
  {
    assert Piece(s.children[c].invs, s.owners, c + 1, s.children[c].pending);
    ChildFrame(s, DoChildCall(s, c, u), c);
    LedgerFrame(s, DoChildCall(s, c, u));
  }

  lemma ChildDebitKeeps(l: Limits, s: State, c: nat)
    requires ChildIndexes(s) && Alive(s, c) && s.children[c].invs != []
    requires LedgerIndexes(s) && ReportIndexes(s)
    ensures var t := DoChildDebit(l, s, c); LedgerIndexes(t) && ChildIndexes(t) && ReportIndexes(t)
  {
    assert Piece(s.children[c].invs, s.owners, c + 1, s.children[c].pending);
    ChildFrame(s, DoChildDebit(l, s, c), c);
    LedgerFrame(s, DoChildDebit(l, s, c));
  }

  /** A report more, of a child that has filed none. */
  lemma MoreReports(s: State, r: Report)
    requires ReportIndexes(s) && Piece(r.invs, s.owners, r.child + 1, 0)
    requires forall k :: 0 <= k < |s.reports| ==> s.reports[k].child != r.child
    ensures ReportIndexes(s.(reports := s.reports + [r]))
  {}

  lemma ReportChild(s: State, c: nat, status: Status)
    requires LedgerIndexes(s) && ChildIndexes(s) && Alive(s, c) && status != Running
    ensures var t := SetChild(s, c, s.children[c].(status := status)); LedgerIndexes(t) && ChildIndexes(t)
  {
    var t := SetChild(s, c, s.children[c].(status := status));
    LedgerFrame(s, t);
    ChildFrame(s, t, c);
  }

  lemma NotYetFiled(s: State, c: nat)
    requires Sound(s) && Alive(s, c)
    ensures forall k :: 0 <= k < |s.reports| ==> s.reports[k].child != c
  {
    forall k | 0 <= k < |s.reports| ensures s.reports[k].child != c { assert Filed(s, s.reports[k].child); }
  }

  lemma ChildReportKeeps(s: State, c: nat)
    requires Sound(s) && LedgerIndexes(s) && ChildIndexes(s) && ReportIndexes(s) && Alive(s, c)
    ensures var t := DoChildReport(s, c); LedgerIndexes(t) && ChildIndexes(t) && ReportIndexes(t)
  {
    var child := s.children[c];
    assert Piece(child.invs, s.owners, c + 1, child.pending);
    if child.invs == [] {
      ReportChild(s, c, Settled);
    } else {
      ReportChild(s, c, Reported);
      NotYetFiled(s, c);
      MoreReports(s, Report(c, child.invs));
    }
  }

  lemma ChildVanishKeeps(s: State, c: nat)
    requires LedgerIndexes(s) && ChildIndexes(s) && ReportIndexes(s) && Alive(s, c)
    ensures var t := DoChildVanish(s, c); LedgerIndexes(t) && ChildIndexes(t) && ReportIndexes(t)
  {
    ChildFrame(s, DoChildVanish(s, c), c);
    LedgerFrame(s, DoChildVanish(s, c));
  }

  // ----- settling a report --------------------------------------------------------------------

  /** The posted entries carry the same requests as the two lists had. */
  lemma {:induction false} PostedIndex(ledger: seq<Invocation>, invs: seq<Invocation>, i: nat)
    requires i < |ledger| + |invs|
    ensures |Post(ledger, invs)| == |ledger| + |invs|
    ensures Post(ledger, invs)[i].index == if i < |ledger| then ledger[i].index else invs[i - |ledger|].index
    ensures (i < |ledger| ==> ledger[i].sequence == i + 1) ==> Post(ledger, invs)[i].sequence == i + 1
  {
    PostIs(ledger, invs, if i < |ledger| then i else i - |ledger|);
  }

  lemma {:induction false} PostApart(ledger: seq<Invocation>, invs: seq<Invocation>)
    requires Apart(ledger) && Apart(invs)
    requires forall i, j :: 0 <= i < |ledger| && 0 <= j < |invs| ==> ledger[i].index != invs[j].index
    ensures Apart(Post(ledger, invs))
  {
    var p := Post(ledger, invs);
    PostIs(ledger, invs, 0);
    forall i, j | 0 <= i < j < |p| ensures p[i].index != p[j].index {
      PostedIndex(ledger, invs, i);
      PostedIndex(ledger, invs, j);
    }
  }

  /** No entry of the ledger carries a request of a child that is still to be settled. */
  lemma ReportIsNew(s: State, r: Report)
    requires LedgerIndexes(s) && Filed(s, r.child) && Piece(r.invs, s.owners, r.child + 1, 0)
    ensures forall i, j :: 0 <= i < |s.ledger| && 0 <= j < |r.invs| ==> s.ledger[i].index != r.invs[j].index
    ensures forall j :: 0 <= j < |r.invs| ==> r.invs[j].index != s.pending
  {
    forall i, j | 0 <= i < |s.ledger| && 0 <= j < |r.invs| ensures s.ledger[i].index != r.invs[j].index {
      assert Entered(s.ledger[i].index, s);
      assert Issued(r.invs[j].index, s.owners, r.child + 1);
    }
    forall j | 0 <= j < |r.invs| ensures r.invs[j].index != s.pending {
      assert Issued(r.invs[j].index, s.owners, r.child + 1);
    }
  }

  lemma SettleLedger(s: State)
    requires LedgerIndexes(s) && Numbered(s.ledger) && s.reports != [] && Filed(s, s.reports[0].child)
    requires Piece(s.reports[0].invs, s.owners, s.reports[0].child + 1, 0)
    ensures LedgerIndexes(DoSettle(s)) && Numbered(DoSettle(s).ledger)
  {
    var t, r := DoSettle(s), s.reports[0];
    ReportIsNew(s, r);
    PostApart(s.ledger, r.invs);
    PostIs(s.ledger, r.invs, 0);
    forall i | 0 <= i < |t.ledger|
      ensures Entered(t.ledger[i].index, t) && t.ledger[i].index != t.pending && t.ledger[i].sequence == i + 1
    {
      PostedIndex(s.ledger, r.invs, i);
      if i < |s.ledger| {
        assert Entered(s.ledger[i].index, s);
      } else {
        assert Issued(r.invs[i - |s.ledger|].index, s.owners, r.child + 1);
      }
    }
  }

  lemma SettleRest(s: State)
    requires Sound(s) && ChildIndexes(s) && ReportIndexes(s) && s.batch && s.reports != []
    ensures var t := DoSettle(s); Sound(t) && ChildIndexes(t) && ReportIndexes(t)
  {
    var t, r := DoSettle(s), s.reports[0];
    assert Filed(s, r.child);
    ChildFrame(s, t, r.child);
    assert forall i :: 0 <= i < |t.reports| ==> t.reports[i] == s.reports[i + 1];
    forall i | 0 <= i < |t.reports| ensures Filed(t, t.reports[i].child) { assert Filed(s, s.reports[i + 1].child); }
  }

  // ----- every event --------------------------------------------------------------------------

  lemma StepSound(l: Limits, s: State, e: Event)
    requires Sound(s) && Enabled(s, e) && !e.Settle?
    ensures Sound(Apply(l, s, e))
  {
    var t := Apply(l, s, e);
    forall r | 0 <= r < |t.reports| ensures Filed(t, t.reports[r].child) {
      if r < |s.reports| { assert Filed(s, s.reports[r].child); }
    }
  }

  predicate AllIndexes(s: State) { Numbered(s.ledger) && LedgerIndexes(s) && ChildIndexes(s) && ReportIndexes(s) }

  /** The run's own events. */
  lemma OwnIndexes(l: Limits, s: State, e: Event)
    requires AllIndexes(s) && Enabled(s, e) && (e.Request? || e.Call? || e.BeginBatch? || e.EndBatch?)
    ensures AllIndexes(Apply(l, s, e))
  {
    match e
    case Request => RequestKeeps(s);
    case Call(phase, u) => CallKeeps(s, phase, u, Accumulate(Balance(l, s.history), u).1.Some?);
    case _ =>
  }

  lemma SpawnIndexes(s: State)
    requires AllIndexes(s)
    ensures AllIndexes(s.(children := s.children + [Child(Running, [], false, 0)]))
  {
    LedgerFrame(s, s.(children := s.children + [Child(Running, [], false, 0)]));
  }

  lemma StepIndexes(l: Limits, s: State, e: Event)
    requires Sound(s) && AllIndexes(s) && Enabled(s, e) && !e.Settle?
    ensures AllIndexes(Apply(l, s, e))
  {
    match e
    case Spawn => SpawnIndexes(s);
    case ChildRequest(c) => ChildRequestKeeps(s, c);
    case ChildCall(c, u) => ChildCallKeeps(s, c, u);
    case ChildDebit(c) => ChildDebitKeeps(l, s, c);
    case ChildReport(c) => ChildReportKeeps(s, c);
    case ChildVanish(c) => ChildVanishKeeps(s, c);
    case _ => OwnIndexes(l, s, e);
  }

  lemma StepKeeps(l: Limits, s: State, e: Event)
    requires Inv(s) && Enabled(s, e)
    ensures Inv(Apply(l, s, e))
  {
    StepConserves(l, s, e);
    if e.Settle? {
      assert Filed(s, s.reports[0].child);
      SettleLedger(s);
      SettleRest(s);
    } else {
      StepSound(l, s, e);
      StepIndexes(l, s, e);
    }
  }

  lemma StartInv()
    ensures Inv(START)
  {
    assert Sound(START) && Numbered(START.ledger) && LedgerIndexes(START) && ChildIndexes(START) && ReportIndexes(START);
    assert Conserved(START) by {
      assert Spent([]) == Zero() && SpentBy([]) == Zero() && SpentRunning([]) == Zero();
      AndZero(Zero());
    }
  }

  lemma {:induction false} EveryRunKeeps(l: Limits, r: Run)
    ensures Inv(Reach(l, r))
  {
    if r.Start? {
      StartInv();
    } else {
      var s := Reach(l, r.before);
      EveryRunKeeps(l, r.before);
      if Enabled(s, r.event) {
        StepKeeps(l, s, r.event);
        assert Reach(l, r) == Apply(l, s, r.event);
      } else {
        assert Reach(l, r) == s;
      }
    }
  }

  // ----- metered calls, and when a run ends ---------------------------------------------------

  predicate ChildMetered(c: Child) { forall i :: 0 <= i < |c.invs| ==> Metered(c.invs[i].usage) }

  predicate MeteredState(s: State) {
    AllMetered(s.history) && forall c :: 0 <= c < |s.children| ==> ChildMetered(s.children[c])
  }

  /** Between batches a run has ended, and during a batch the batch has been cancelled, exactly when the
      budget is exhausted. */
  predicate EndsWhenExhausted(l: Limits, s: State) {
    if s.batch then !s.ended && (s.cancelled <==> Balance(l, s.history).exhausted)
    else s.ended <==> Balance(l, s.history).exhausted
  }

  /** A run that never had a child. */
  predicate Alone(l: Limits, s: State) {
    s.children == [] ==> s.lost == Zero() && s.reports == [] && (s.ended <==> Balance(l, s.history).exhausted)
  }

  /** What an account says of the call that exhausts it, and what it is afterwards. */
  lemma AccumulateReports(a: Account, u: Usage)
    ensures Accumulate(a, u).0.exhausted <==> a.exhausted || Accumulate(a, u).1.Some?
  {}

  lemma StepMetered(l: Limits, s: State, e: Event)
    requires MeteredState(s) && Enabled(s, e)
    ensures MeteredState(Apply(l, s, e))
  {
    var t := Apply(l, s, e);
    if e.ChildDebit? { assert ChildMetered(s.children[e.child]); }
    forall c | 0 <= c < |t.children| ensures ChildMetered(t.children[c]) {
      if c < |s.children| { assert ChildMetered(s.children[c]); }
    }
  }

  lemma DebitEnds(l: Limits, s: State, c: nat)
    requires EndsWhenExhausted(l, s) && s.batch && Alive(s, c) && s.children[c].invs != []
    ensures EndsWhenExhausted(l, DoChildDebit(l, s, c))
  {
    AccumulateReports(Balance(l, s.history), s.children[c].invs[|s.children[c].invs| - 1].usage);
  }

  lemma StepEnds(l: Limits, s: State, e: Event)
    requires Sound(s) && EndsWhenExhausted(l, s) && Alone(l, s) && Enabled(s, e)
    ensures EndsWhenExhausted(l, Apply(l, s, e)) && Alone(l, Apply(l, s, e))
  {
    match e
    case Call(_, u) => AccumulateReports(Balance(l, s.history), u);
    case ChildDebit(c) => DebitEnds(l, s, c);
    case _ =>
  }

  lemma {:induction false} EveryRunEnds(l: Limits, r: Run)
    ensures var s := Reach(l, r); MeteredState(s) && EndsWhenExhausted(l, s) && Alone(l, s)
  {
    if r.Then? {
      var s := Reach(l, r.before);
      EveryRunEnds(l, r.before);
      EveryRunKeeps(l, r.before);
      if Enabled(s, r.event) {
        StepMetered(l, s, r.event);
        StepEnds(l, s, r.event);
        assert Reach(l, r) == Apply(l, s, r.event);
      } else {
        assert Reach(l, r) == s;
      }
    }
  }

  // ----- the results --------------------------------------------------------------------------

  predicate Matches(t: Totals, s: Sums) {
    t.invocations == s.count && t.input == s.input && t.output == s.output && t.cost == s.cost
  }

  predicate Conserves(l: Limits, s: State) {
    Matches(Balance(l, s.history).totals,
            Spent(s.ledger).And(SpentBy(s.reports)).And(SpentRunning(s.children)).And(s.lost))
  }

  lemma InvConserves(l: Limits, s: State)
    requires Conserved(s) && MeteredState(s) && Fits(SumOf(s.history))
    ensures Conserves(l, s)
  {
    TotalsAreSums(l, s.history);
  }

  /** Mid-batch the totals are the ledger, the filed reports and what running children have debited,
      plus what was lost with children that ended without a report. */
  lemma {:induction false} TotalsAreConserved(l: Limits, r: Run)
    requires Fits(SumOf(Reach(l, r).history))
    ensures Conserves(l, Reach(l, r))
  {
    EveryRunKeeps(l, r);
    EveryRunEnds(l, r);
    InvConserves(l, Reach(l, r));
  }

  lemma AndZeros(a: Sums, x: Sums)
    ensures a.And(Zero()).And(Zero()).And(x) == a.And(x)
    ensures a.And(x) == a <==> x == Zero()
  {}

  lemma MatchesOne(t: Totals, a: Sums, b: Sums)
    requires Matches(t, a)
    ensures Matches(t, b) <==> a == b
  {}

  lemma {:induction false} BoundaryAgrees(l: Limits, s: State)
    requires Conserves(l, s) && s.reports == [] && NoneRunning(s.children)
    ensures Matches(Balance(l, s.history).totals, Spent(s.ledger)) <==> s.lost == Zero()
  {
    NoneRunningSpends(s.children);
    AndZeros(Spent(s.ledger), s.lost);
    MatchesOne(Balance(l, s.history).totals, Spent(s.ledger).And(s.lost), Spent(s.ledger));
  }

  /** No child that ended without its report had debited a call. */
  predicate VanishedEmpty(cs: seq<Child>) {
    forall c :: 0 <= c < |cs| && cs[c].status == Vanished ==> Debited(cs[c]) == []
  }

  predicate Blank(x: Sums) { x.count == 0 && x.input == 0 && x.output == 0 && x.cost == 0 }

  /** Something is lost exactly if a vanished child had debited a call. */
  predicate LostIff(s: State) {
    s.lost.count >= 0 && (s.lost.count == 0 <==> VanishedEmpty(s.children)) && (s.lost.count == 0 ==> Blank(s.lost))
  }

  lemma {:induction false} SpentCounts(invs: seq<Invocation>)
    ensures Spent(invs).count == |invs| && (invs == [] ==> Blank(Spent(invs)))
  {
    if invs != [] { SpentCounts(invs[..|invs| - 1]); }
  }

  lemma MoreThanBefore(a: Sums, d: Sums)
    ensures a.And(d).count == a.count + d.count
  {}

  /** What a vanishing child adds to the loss. */
  lemma {:induction false} LostWith(lost: Sums, d: seq<Invocation>)
    requires lost.count >= 0
    ensures d == [] ==> lost.And(Spent(d)) == lost
    ensures d != [] ==> lost.And(Spent(d)).count > 0
  {
    SpentCounts(d);
    if d == [] {
      assert Spent(d) == Zero();
      AndZero(lost);
    } else {
      MoreThanBefore(lost, Spent(d));
    }
  }

  /** One more vanished child. */
  lemma OneMoreVanished(cs: seq<Child>, c: nat, child: Child)
    requires c < |cs| && cs[c].status != Vanished && child.status == Vanished
    ensures VanishedEmpty(cs[c := child]) <==> VanishedEmpty(cs) && Debited(child) == []
  {
    var ds := cs[c := child];
    assert ds[c] == child;
    if VanishedEmpty(ds) {
      forall k | 0 <= k < |cs| && cs[k].status == Vanished ensures Debited(cs[k]) == [] { assert ds[k] == cs[k]; }
    }
  }

  lemma VanishLoses(s: State, c: nat, t: State)
    requires LostIff(s) && Alive(s, c) && t.children == s.children[c := s.children[c].(status := Vanished)]
    requires var d := Debited(s.children[c]); if d == [] then t.lost == s.lost else t.lost.count > 0
    ensures LostIff(t)
  {
    OneMoreVanished(s.children, c, s.children[c].(status := Vanished));
    assert Debited(s.children[c].(status := Vanished)) == Debited(s.children[c]);
  }

  /** Whatever changes no vanished child and makes none. */
  lemma SameVanished(s: State, t: State)
    requires LostIff(s) && t.lost == s.lost && |s.children| <= |t.children|
    requires forall c :: 0 <= c < |t.children| ==>
      if c < |s.children| && s.children[c].status == Vanished then t.children[c] == s.children[c]
      else t.children[c].status != Vanished
    ensures LostIff(t)
  {
    forall c | 0 <= c < |s.children| && s.children[c].status == Vanished ensures t.children[c] == s.children[c] {}
    if VanishedEmpty(t.children) {
      forall c | 0 <= c < |s.children| && s.children[c].status == Vanished ensures Debited(s.children[c]) == [] {
        assert Debited(t.children[c]) == [];
      }
    }
  }

  lemma StepLost(l: Limits, s: State, e: Event)
    requires LostIff(s) && Sound(s) && Enabled(s, e)
    ensures LostIff(Apply(l, s, e))
  {
    if e.ChildVanish? {
      LostWith(s.lost, Debited(s.children[e.child]));
      VanishLoses(s, e.child, DoChildVanish(s, e.child));
    } else {
      if e.Settle? { assert Filed(s, s.reports[0].child); }
      SameVanished(s, Apply(l, s, e));
    }
  }

  lemma {:induction false} EveryRunLoses(l: Limits, r: Run)
    ensures LostIff(Reach(l, r))
  {
    if r.Then? {
      var s := Reach(l, r.before);
      EveryRunLoses(l, r.before);
      EveryRunKeeps(l, r.before);
      if Enabled(s, r.event) {
        StepLost(l, s, r.event);
        assert Reach(l, r) == Apply(l, s, r.event);
      } else {
        assert Reach(l, r) == s;
      }
    }
  }

  /** At a batch boundary the totals agree with the ledger exactly when no child that ended without its report
      had debited a call. */
  lemma {:induction false} TotalsAgreeIff(l: Limits, r: Run)
    requires !Reach(l, r).batch && Fits(SumOf(Reach(l, r).history))
    ensures var s := Reach(l, r);
      Matches(Balance(l, s.history).totals, Spent(s.ledger)) <==> VanishedEmpty(s.children)
  {
    EveryRunKeeps(l, r);
    EveryRunLoses(l, r);
    TotalsAreConserved(l, r);
    BoundaryAgrees(l, Reach(l, r));
    BlankIsZero(Reach(l, r).lost);
  }

  lemma BlankIsZero(x: Sums)
    ensures Blank(x) <==> x == Zero()
  {}

  lemma {:induction false} Then1(l: Limits, r: Run, e: Event, s: State, t: State)
    requires Reach(l, r) == s && Enabled(s, e) && Apply(l, s, e) == t
    ensures Reach(l, Then(r, e)) == t
  {}

  /** A child that debits one call and then ends without its report. */
  function LosingRun(u: Usage): Run {
    var spawned := Then(Then(Start, BeginBatch), Spawn);
    var called := Then(Then(spawned, ChildRequest(0)), ChildCall(0, u));
    Then(Then(Then(called, ChildDebit(0)), ChildVanish(0)), EndBatch)
  }

  /** Its call is in the totals and will never be in the ledger. */
  lemma {:induction false} LosingRunDisagrees(l: Limits, u: Usage)
    requires Metered(u)
    ensures var s := Reach(l, LosingRun(u));
      && !s.batch && Fits(SumOf(s.history)) && s.ledger == [] && s.history == After(Empty, u)
      && !Matches(Balance(l, s.history).totals, Spent(s.ledger))
  {
    var s1 := START.(batch := true);
    var s2 := s1.(children := [Child(Running, [], false, 0)]);
    var s3 := s2.(owners := [1], children := [Child(Running, [], false, 1)]);
    var invs := [Invocation(1, Action, u, 1)];
    var s4 := s3.(children := [Child(Running, invs, true, 0)]);
    var cancelled := Accumulate(Balance(l, Empty), u).1.Some?;
    var s5 := s4.(history := After(Empty, u), cancelled := cancelled, children := [Child(Running, invs, false, 0)]);
    var s6 := s5.(lost := Zero().And(Spent(invs)), children := [Child(Vanished, invs, false, 0)]);
    var r2 := Then(Then(Start, BeginBatch), Spawn);
    var r4 := Then(Then(r2, ChildRequest(0)), ChildCall(0, u));
    assert Append([], Action, u, 1) == invs;
    Then1(l, Start, BeginBatch, START, s1);
    Then1(l, Then(Start, BeginBatch), Spawn, s1, s2);
    Then1(l, r2, ChildRequest(0), s2, s3);
    Then1(l, Then(r2, ChildRequest(0)), ChildCall(0, u), s3, s4);
    Then1(l, r4, ChildDebit(0), s4, s5);
    Then1(l, Then(r4, ChildDebit(0)), ChildVanish(0), s5, s6);
    Then1(l, Then(Then(r4, ChildDebit(0)), ChildVanish(0)), EndBatch, s6, s6.(batch := false, ended := cancelled));
    TotalsAgreeIff(l, LosingRun(u));
    assert s6.children[0].status == Vanished && Debited(s6.children[0]) == invs;
  }

  /** Numbered from one without gaps, and no two entries share a provider request. */
  predicate WellNumbered(s: State) {
    && (forall i :: 0 <= i < |s.ledger| ==> s.ledger[i].sequence == i + 1 && 1 <= s.ledger[i].index <= |s.owners|)
    && (forall i, j :: 0 <= i < j < |s.ledger| ==> s.ledger[i].index != s.ledger[j].index)
  }

  lemma InvIsNumbered(s: State)
    requires Numbered(s.ledger) && LedgerIndexes(s)
    ensures WellNumbered(s)
  {
    forall i | 0 <= i < |s.ledger| ensures 1 <= s.ledger[i].index <= |s.owners| { assert Entered(s.ledger[i].index, s); }
  }

  lemma {:induction false} LedgerIsNumbered(l: Limits, r: Run)
    ensures WellNumbered(Reach(l, r))
  {
    EveryRunKeeps(l, r);
    InvIsNumbered(Reach(l, r));
  }

  /** A batch is cancelled by one of its debits exactly when the budget is exhausted, and between batches a run
      goes on exactly while its budget lasts. */
  lemma {:induction false} GoesOnWhileBudgetLasts(l: Limits, r: Run)
    ensures var s := Reach(l, r);
      (if s.batch then s.cancelled else s.ended) <==> Balance(l, s.history).exhausted
  {
    EveryRunEnds(l, r);
  }

  lemma AloneSums(l: Limits, s: State)
    requires Conserved(s) && Alone(l, s) && s.children == []
    ensures SumOf(s.history) == Spent(s.ledger)
  {
    assert SpentBy(s.reports) == Zero() && SpentRunning(s.children) == Zero();
    AndZeros(Spent(s.ledger), Zero());
  }

  /** Below both limits. */
  predicate Below(l: Limits, ledger: seq<Invocation>) { Reached(l, Spent(ledger)) == None }

  lemma {:induction false} NotYetReached(l: Limits, h: History, u: Usage)
    requires l.Valid() && AllMetered(h) && Metered(u) && !Balance(l, h).exhausted
    requires var t := SumOf(After(h, u)); Fits(t) && t.input + t.output <= MAX_INT64
    ensures Reached(l, SumOf(h)) == None
  {
    SumsGrow(h, After(h, u));
    ExhaustedIffReached(l, h);
  }

  /** An event other than a call leaves the ledger of a run without children alone. */
  lemma QuietStep(l: Limits, s: State, e: Event)
    requires !e.Call? && Enabled(s, e) && Alone(l, s) && Apply(l, s, e).children == []
    ensures s.children == [] && Apply(l, s, e).ledger == s.ledger && Apply(l, s, e).history == s.history
  {}

  /** All prefixes, the whole ledger included if the run goes on, lie below the limits. */
  predicate AllBelow(l: Limits, s: State) { forall k :: 0 <= k < |s.ledger| ==> Below(l, s.ledger[..k]) }

  /** One more call: the ledger before it was below. */
  lemma {:induction false} CallKeepsBelow(l: Limits, s: State, t: State, u: Usage)
    requires l.Valid() && AllBelow(l, s) && InRange(SumOf(t.history)) && Metered(u) && AllMetered(s.history)
    requires SumOf(s.history) == Spent(s.ledger) && !Balance(l, s.history).exhausted
    requires t.history == After(s.history, u) && |t.ledger| == |s.ledger| + 1 && t.ledger[..|s.ledger|] == s.ledger
    ensures AllBelow(l, t)
  {
    NotYetReached(l, s.history, u);
    forall k | 0 <= k < |t.ledger| ensures Below(l, t.ledger[..k]) {
      if k < |s.ledger| {
        assert t.ledger[..k] == s.ledger[..k];
      }
    }
  }

  predicate Prefixed(l: Limits, s: State) { s.children == [] && InRange(SumOf(s.history)) ==> AllBelow(l, s) }

  lemma {:induction false} CallPrefixed(l: Limits, s: State, phase: Phase, u: Usage, ended: bool)
    requires l.Valid() && Prefixed(l, s) && s.children == [] && SumOf(s.history) == Spent(s.ledger)
    requires AllMetered(s.history) && Metered(u) && !Balance(l, s.history).exhausted
    ensures Prefixed(l, DoCall(s, phase, u, ended))
  {
    var t := DoCall(s, phase, u, ended);
    SumsGrow(s.history, t.history);
    if InRange(SumOf(t.history)) { CallKeepsBelow(l, s, t, u); }
  }

  lemma QuietPrefixed(l: Limits, s: State, t: State)
    requires Prefixed(l, s) && s.children == [] && t.ledger == s.ledger && t.history == s.history
    ensures Prefixed(l, t)
  {}

  lemma StepPrefixed(l: Limits, s: State, e: Event)
    requires l.Valid() && Prefixed(l, s) && Conserved(s) && MeteredState(s) && Alone(l, s) && Enabled(s, e)
    ensures Prefixed(l, Apply(l, s, e))
  {
    if Apply(l, s, e).children == [] {
      if e.Call? {
        AloneSums(l, s);
        CallPrefixed(l, s, e.phase, e.usage, Accumulate(Balance(l, s.history), e.usage).1.Some?);
      } else {
        QuietStep(l, s, e);
        QuietPrefixed(l, s, Apply(l, s, e));
      }
    }
  }

  /** Without subagents only the last call of a run can reach a limit: every proper prefix of the
      ledger lies below both. */
  lemma {:induction false} ProperPrefixesAreBelow(l: Limits, r: Run)
    requires l.Valid()
    ensures Prefixed(l, Reach(l, r))
  {
    if r.Then? {
      var s := Reach(l, r.before);
      ProperPrefixesAreBelow(l, r.before);
      EveryRunEnds(l, r.before);
      EveryRunKeeps(l, r.before);
      if Enabled(s, r.event) {
        StepPrefixed(l, s, r.event);
        assert Reach(l, r) == Apply(l, s, r.event);
      } else {
        assert Reach(l, r) == s;
      }
    }
  }

  // ----- the ordinary course ------------------------------------------------------------------

  lemma StepFits(l: Limits, s: State, e: Event)
    requires Enabled(s, e) && |s.owners| <= 0xFFFF_FFFF && (s.ended ==> !s.batch)
    ensures var t := Apply(l, s, e); |t.owners| <= 0xFFFF_FFFF && (t.ended ==> !t.batch)
  {}

  /** Request indexes never leave the 32 bits they are kept in, and a run ends outside its batches. */
  lemma {:induction false} IndexesFit(l: Limits, r: Run)
    ensures |Reach(l, r).owners| <= 0xFFFF_FFFF && (Reach(l, r).ended ==> !Reach(l, r).batch)
  {
    if r.Then? {
      var s := Reach(l, r.before);
      IndexesFit(l, r.before);
      if Enabled(s, r.event) { StepFits(l, s, r.event); }
    }
  }

  /** Once a run has ended, nothing happens any more: neither in it nor in any of its children. */
  lemma {:induction false} EndIsFinal(l: Limits, r: Run, e: Event)
    requires Reach(l, r).ended
    ensures !Enabled(Reach(l, r), e)
  {
    EveryRunKeeps(l, r);
    IndexesFit(l, r);
  }

  /** The debit with this usage exhausts the budget. */
  predicate UsesUp(l: Limits, h: History, u: Usage) { !Balance(l, h).exhausted && Balance(l, After(h, u)).exhausted }

  lemma {:induction false} UsesUpIff(l: Limits, h: History, u: Usage)
    ensures Accumulate(Balance(l, h), u).1.Some? <==> UsesUp(l, h, u)
  {
    AccumulateReports(Balance(l, h), u);
  }

  /** A call of the run itself: asked for, then in the ledger under the next number and the next index, and debited;
      it ends the run exactly if it uses up the budget. */
  lemma {:induction false} OwnCall(l: Limits, r: Run, phase: Phase, u: Usage)
    requires Enabled(Reach(l, r), Request) && Metered(u)
    ensures var s, t := Reach(l, r), Reach(l, Then(Then(r, Request), Event.Call(phase, u)));
      && t.ledger == s.ledger + [Invocation(|s.ledger| + 1, phase, u, |s.owners| + 1)]
      && t.history == After(s.history, u) && (t.ended <==> UsesUp(l, s.history, u)) && !t.batch
  {
    var s := Reach(l, r);
    var s1 := s.(owners := s.owners + [0], pending := |s.owners| + 1);
    Then1(l, r, Request, s, s1);
    Then1(l, Then(r, Request), Event.Call(phase, u), s1, Apply(l, s1, Event.Call(phase, u)));
    UsesUpIff(l, s.history, u);
  }
}
