/** A run with concurrent subagents: budgets are debited at once, the ledger is settled after the
    batch (pi/loop.go, run_state.go, subagent.go, governor). */
module Ledger {
  import opened Common
  import opened Governor

  datatype Phase = Action | Compaction | Subagent

  datatype Invocation = Invocation(sequence: nat, phase: Phase, usage: Usage, index: nat)

  /** A child is settled once its report has been moved to the ledger, or will never come. */
  datatype Status = Running | Reported | Settled | Vanished

  /** A child run: its own ledger, whether the last entry still has to be debited to the parent, and
      the provider request it has out (0 if none). */
  datatype Child = Child(status: Status, invs: seq<Invocation>, debiting: bool, pending: nat)

  datatype Report = Report(child: nat, invs: seq<Invocation>)

  /** `history` lists the debits of the run's account in order; `owners` who asked for request `k`
      (0 is the run itself); `cancelled` says that a debit of this batch has exhausted the budget; `lost` sums
      up the debits of children that ended without a report. */
  datatype State = State(
    history: History, ledger: seq<Invocation>, pending: nat, owners: seq<nat>,
    batch: bool, cancelled: bool, ended: bool, children: seq<Child>, reports: seq<Report>, lost: Sums)

  datatype Event =
    | Request
    | Call(phase: Phase, usage: Usage)
    | BeginBatch
    | Spawn
    | ChildRequest(child: nat)
    | ChildCall(child: nat, usage: Usage)
    | ChildDebit(child: nat)
    | ChildReport(child: nat)
    | ChildVanish(child: nat)
    | Settle
    | EndBatch

  const START := State(Empty, [], 0, [], false, false, false, [], [], Zero())

  predicate Alive(s: State, c: nat) { c < |s.children| && s.children[c].status == Running }

  predicate NoneRunning(cs: seq<Child>) { forall c :: 0 <= c < |cs| ==> cs[c].status != Running }

  predicate Enabled(s: State, e: Event) {
    match e
    case Request => !s.batch && !s.ended && |s.owners| < MAX_UINT32
    case Call(_, u) => !s.batch && !s.ended && s.pending != 0 && Metered(u)
    case BeginBatch => !s.batch && !s.ended
    case Spawn => s.batch
    case ChildRequest(c) => Alive(s, c) && !s.children[c].debiting && |s.owners| < MAX_UINT32
    case ChildCall(c, u) => Alive(s, c) && !s.children[c].debiting && s.children[c].pending != 0 && Metered(u)
    case ChildDebit(c) => Alive(s, c) && s.children[c].debiting && s.children[c].invs != []
    case ChildReport(c) => Alive(s, c) && !s.children[c].debiting
    case ChildVanish(c) => Alive(s, c)
    case Settle => s.batch && NoneRunning(s.children) && s.reports != []
    case EndBatch => s.batch && NoneRunning(s.children) && s.reports == []
  }

  predicate Numbered(ledger: seq<Invocation>) { forall i :: 0 <= i < |ledger| ==> ledger[i].sequence == i + 1 }

  function Append(ledger: seq<Invocation>, phase: Phase, usage: Usage, index: nat): seq<Invocation> {
    ledger + [Invocation(|ledger| + 1, phase, usage, index)]
  }

  /** A report enters the ledger entry by entry, renumbered. */
  function Post(ledger: seq<Invocation>, invs: seq<Invocation>): seq<Invocation> {
    if invs == [] then ledger
    else
      var n := |invs| - 1;
      Append(Post(ledger, invs[..n]), Subagent, invs[n].usage, invs[n].index)
  }

  function Debited(c: Child): seq<Invocation> {
    if c.debiting && c.invs != [] then c.invs[..|c.invs| - 1] else c.invs
  }

  function SetChild(s: State, c: nat, child: Child): State
    requires c < |s.children|
  {
    s.(children := s.children[c := child])
  }

  function DoCall(s: State, phase: Phase, u: Usage, ended: bool): State {
    s.(history := After(s.history, u), ledger := Append(s.ledger, phase, u, s.pending), pending := 0, ended := ended)
  }

  function DoChildRequest(s: State, c: nat): State
    requires c < |s.children|
  {
    SetChild(s.(owners := s.owners + [c + 1]), c, s.children[c].(pending := |s.owners| + 1))
  }

  /** The child enters the call in its own ledger; the debit follows. */
  function DoChildCall(s: State, c: nat, u: Usage): State
    requires c < |s.children|
  {
    var child := s.children[c];
    SetChild(s, c, child.(invs := Append(child.invs, Action, u, child.pending), debiting := true, pending := 0))
  }

  /** The debit that exhausts the budget cancels the batch. */
  function DoChildDebit(l: Limits, s: State, c: nat): State
    requires c < |s.children| && s.children[c].invs != []
  {
    var child := s.children[c];
    var u := child.invs[|child.invs| - 1].usage;
    var exhausts := Accumulate(Balance(l, s.history), u).1.Some?;
    SetChild(s.(history := After(s.history, u), cancelled := s.cancelled || exhausts), c, child.(debiting := false))
  }

  function DoChildReport(s: State, c: nat): State
    requires c < |s.children|
  {
    var child := s.children[c];
    if child.invs == [] then SetChild(s, c, child.(status := Settled))
    else SetChild(s.(reports := s.reports + [Report(c, child.invs)]), c, child.(status := Reported))
  }

  function DoChildVanish(s: State, c: nat): State
    requires c < |s.children|
  {
    SetChild(s.(lost := s.lost.And(Spent(Debited(s.children[c])))), c, s.children[c].(status := Vanished))
  }

  function DoSettle(s: State): State
    requires s.reports != []
  {
    var r := s.reports[0];
    var t := s.(ledger := Post(s.ledger, r.invs), reports := s.reports[1..]);
    if r.child < |s.children| then SetChild(t, r.child, s.children[r.child].(status := Settled)) else t
  }

  function Apply(l: Limits, s: State, e: Event): State
    requires Enabled(s, e)
  {
    match e
    case Request => s.(owners := s.owners + [0], pending := |s.owners| + 1)
    case Call(phase, u) => DoCall(s, phase, u, Accumulate(Balance(l, s.history), u).1.Some?)
    case BeginBatch => s.(batch := true, cancelled := false)
    case Spawn => s.(children := s.children + [Child(Running, [], false, 0)])
    case ChildRequest(c) => DoChildRequest(s, c)
    case ChildCall(c, u) => DoChildCall(s, c, u)
    case ChildDebit(c) => DoChildDebit(l, s, c)
    case ChildReport(c) => DoChildReport(s, c)
    case ChildVanish(c) => DoChildVanish(s, c)
    case Settle => DoSettle(s)
    case EndBatch => s.(batch := false, ended := s.cancelled)
  }

  datatype Run = Start | Then(before: Run, event: Event)

  /** The state after a run; an event that is not enabled does not happen. */
  function Reach(l: Limits, r: Run): State {
    match r
    case Start => START
    case Then(before, e) => var s := Reach(l, before); if Enabled(s, e) then Apply(l, s, e) else s
  }

  // ----- sums over the pieces -----------------------------------------------------------------

  function Spent(invs: seq<Invocation>): Sums {
    if invs == [] then Zero() else Spent(invs[..|invs| - 1]).Plus(invs[|invs| - 1].usage)
  }

  function SpentBy(reports: seq<Report>): Sums {
    if reports == [] then Zero() else Spent(reports[0].invs).And(SpentBy(reports[1..]))
  }

  /** What running children have debited so far. */
  function SpentRunning(cs: seq<Child>): Sums {
    if cs == [] then Zero()
    else (if cs[0].status == Running then Spent(Debited(cs[0])) else Zero()).And(SpentRunning(cs[1..]))
  }

  /** The parts make up the whole. */
  predicate AddUp(whole: Sums, ledger: Sums, reports: Sums, running: Sums, lost: Sums) {
    whole == ledger.And(reports).And(running).And(lost)
  }

  /** Every debit is in the ledger, in a report, with a running child, or lost. */
  predicate Conserved(s: State) {
    AddUp(SumOf(s.history), Spent(s.ledger), SpentBy(s.reports), SpentRunning(s.children), s.lost)
  }

  lemma {:induction false} SpentSnoc(invs: seq<Invocation>, i: Invocation)
    ensures Spent(invs + [i]) == Spent(invs).Plus(i.usage)
  {
    assert (invs + [i])[..|invs + [i]| - 1] == invs;
  }

  lemma {:induction false} SpentPost(ledger: seq<Invocation>, invs: seq<Invocation>)
    ensures Spent(Post(ledger, invs)) == Spent(ledger).And(Spent(invs))
    decreases |invs|
  {
    if invs == [] {
      AndZero(Spent(ledger));
    } else {
      var n := |invs| - 1;
      var next := Post(ledger, invs[..n]);
      var i := Invocation(|next| + 1, Subagent, invs[n].usage, invs[n].index);
      calc {
        Spent(Post(ledger, invs));
      ==
        Spent(next + [i]);
      == { SpentSnoc(next, i); }
        Spent(next).Plus(invs[n].usage);
      == { SpentPost(ledger, invs[..n]); }
        Spent(ledger).And(Spent(invs[..n])).Plus(invs[n].usage);
      == { AndPlus(Spent(ledger), Spent(invs[..n]), invs[n].usage); }
        Spent(ledger).And(Spent(invs));
      }
    }
  }

  lemma AndZero(a: Sums)
    ensures a.And(Zero()) == a
  {}

  lemma AndPlus(a: Sums, b: Sums, u: Usage)
    ensures a.And(b).Plus(u) == a.And(b.Plus(u))
  {}

  lemma {:induction false} SpentBySnoc(reports: seq<Report>, r: Report)
    ensures SpentBy(reports + [r]) == SpentBy(reports).And(Spent(r.invs))
  {
    if reports == [] {
      assert reports + [r] == [r];
    } else {
      assert (reports + [r])[1..] == reports[1..] + [r];
      SpentBySnoc(reports[1..], r);
    }
  }

  function RunningShare(c: Child): Sums { if c.status == Running then Spent(Debited(c)) else Zero() }

  /** `a` and `b` differ by what `x` and `y` differ by. */
  predicate Shifted(a: Sums, b: Sums, x: Sums, y: Sums) { a.And(y) == b.And(x) }

  lemma {:induction false} SpentRunningUpdate(cs: seq<Child>, c: nat, child: Child)
    requires c < |cs|
    ensures Shifted(SpentRunning(cs[c := child]), SpentRunning(cs), RunningShare(child), RunningShare(cs[c]))
  {
    if c > 0 {
      assert cs[c := child][1..] == cs[1..][c - 1 := child];
      SpentRunningUpdate(cs[1..], c - 1, child);
    } else {
      assert cs[0 := child][1..] == cs[1..];
    }
  }

  lemma {:induction false} SpentRunningSnoc(cs: seq<Child>, child: Child)
    ensures SpentRunning(cs + [child]) == SpentRunning(cs).And(RunningShare(child))
  {
    if cs == [] {
      assert cs + [child] == [child];
    } else {
      assert (cs + [child])[1..] == cs[1..] + [child];
      SpentRunningSnoc(cs[1..], child);
    }
  }

  lemma {:induction false} NoneRunningSpends(cs: seq<Child>)
    requires NoneRunning(cs)
    ensures SpentRunning(cs) == Zero()
  {
    if cs != [] {
      assert cs[0].status != Running;
      assert forall c :: 0 <= c < |cs[1..]| ==> cs[1..][c] == cs[c + 1];
      NoneRunningSpends(cs[1..]);
    }
  }
}
