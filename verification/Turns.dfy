/** The turn loop as functions: what a turn makes of a run's budget, ledger, detector and messages, and
    what a whole run comes to (pi/loop.go, pi/loop_guard.go). The order in which the calls of a wave end
    is not among the inputs. */
module Turns {
  import opened Common
  import opened Messages
  import B = ToolBatch
  import D = LoopDetect
  import G = Governor
  import L = Ledger
  import A = RunAccounting

  datatype RunError =
    | Cancelled
    | GenerationFailed
    | Budget(error: G.BudgetError)
    | LoopDetected

  /** What the provider makes of a turn: nothing usable, or a message and what it cost. `skipped` counts the
      request indexes handed out before its own, to attempts that failed and to other runs; `wellFormed`
      stands for the checks of content and arguments. */
  datatype Reply = NoReply | Replied(message: Message, usage: G.Usage, skipped: nat, wellFormed: bool)

  /** A summary call, if one was made, and whether the attempt ended the run by itself. */
  datatype Summary = NoSummary | Summarised(usage: G.Usage, skipped: nat) | Fatal

  /** What the outside brings to one turn: summaries made before the request and after an overflow, the
      reply, how the calls of its batch go, what children debit and report meanwhile, and how many request
      indexes are handed out meanwhile. */
  datatype Turn = Turn(
    cancelled: bool, cancelledInside: bool, early: Summary, overflow: Summary, reply: Reply,
    tools: B.World, debits: seq<G.Usage>, reports: seq<L.Report>, drawn: nat, cancelledAfter: bool)

  // ----- the protocol -------------------------------------------------------------------------

  predicate IsResultOf(m: Message, c: Call) { m.role == Tool && m.callId == c.id && m.toolName == c.name }

  predicate DistinctIds(calls: seq<Call>) {
    && (forall i :: 0 <= i < |calls| ==> calls[i].id != "")
    && (forall i, j :: 0 <= i < j < |calls| ==> calls[i].id != calls[j].id)
  }

  /** An assistant message with calls, followed by exactly its results, in call order. */
  predicate ClosedGroup(g: seq<Message>) {
    && g != [] && IsHead(g[0]) && DistinctIds(g[0].calls) && |g| == 1 + |g[0].calls|
    && forall i :: 0 <= i < |g[0].calls| ==> IsResultOf(g[1 + i], g[0].calls[i])
  }

  predicate AllClosed(gs: seq<seq<Message>>) { forall k :: 0 <= k < |gs| ==> ClosedGroup(gs[k]) }

  predicate IsAnswer(m: Message) { m.role == Assistant && m.calls == [] }

  /** What may follow the closed groups: with no error the answer, with an error at most an answer that
      came too late for the budget, or a group left open. */
  predicate TailFits(tail: seq<Message>, err: Option<RunError>) {
    match err
    case None => |tail| == 1 && IsAnswer(tail[0])
    case Some(Budget(_)) => tail == [] || (|tail| == 1 && (IsAnswer(tail[0]) || IsHead(tail[0])))
    case Some(Cancelled) => tail == [] || (|tail| == 1 && IsHead(tail[0]))
    case _ => tail == []
  }

  predicate Acceptable(r: Reply) {
    r.Replied? && r.wellFormed && r.message.role == Assistant && r.message.callId == "" && DistinctIds(r.message.calls)
  }

  function ResultMessage(e: B.ToolEvent): Message
    requires e.Ended?
  {
    Message(Tool, e.content, [], e.call.id, e.call.name, e.isError)
  }

  function ResultMessages(es: seq<B.ToolEvent>): seq<Message>
    requires forall i :: 0 <= i < |es| ==> es[i].Ended?
  {
    seq(|es|, i requires 0 <= i < |es| => ResultMessage(es[i]))
  }

  // ----- a run's state ------------------------------------------------------------------------

  /** The budget, the account of a parent run, the ledger, the last request index handed out, the detector,
      the groups closed so far and what follows them. */
  datatype View = View(
    account: G.Account, parent: Option<G.Account>, ledger: seq<L.Invocation>, requests: nat, detector: D.State,
    groups: seq<seq<Message>>, tail: seq<Message>)

  /** What stays the same for a run. */
  datatype Setup = Setup(tools: B.Tools, undetected: bool, excluded: set<string>)

  /** An account is exhausted exactly if it holds an error that says so. */
  predicate Explained(a: G.Account) { a.exhausted <==> a.firstErr.Some? }

  predicate Sane(v: View) { Explained(v.account) && (v.parent.Some? ==> Explained(v.parent.value)) }

  /** Between turns every group is closed and the budget lasts. */
  predicate AtHead(v: View) { Sane(v) && AllClosed(v.groups) && v.tail == [] && !v.account.exhausted }

  // ----- one turn -----------------------------------------------------------------------------

  /** One metered call: ledger, own budget, the parent's budget; the own error comes first. */
  function Charge(v: View, phase: L.Phase, usage: G.Usage, request: nat): (View, Option<G.BudgetError>) {
    var (own, err) := G.Accumulate(v.account, usage);
    var w := v.(account := own, ledger := L.Append(v.ledger, phase, usage, request));
    match v.parent
    case None => (w, err)
    case Some(p) =>
      var up := G.Accumulate(p, usage).0;
      (w.(parent := Some(up)), if err.Some? then err else up.firstErr)
  }

  /** The index handed out after `skipped` others, if one is left. */
  function Draw(requests: nat, skipped: nat): (nat, Option<nat>) {
    var index := requests + skipped + 1;
    if index <= G.MAX_UINT32 then (index, Some(index)) else (G.MAX_UINT32, None)
  }

  /** A call gets its index before it is made; one that gets none is not made. */
  datatype Called = NoIndex | Charged(err: Option<G.BudgetError>)

  function Make(v: View, phase: L.Phase, usage: G.Usage, skipped: nat): (View, Called) {
    var (requests, index) := Draw(v.requests, skipped);
    var w := v.(requests := requests);
    match index
    case None => (w, NoIndex)
    case Some(i) => var (x, err) := Charge(w, phase, usage, i); (x, Charged(err))
  }

  /** A summary call that reaches a budget is fatal; one that is not made is not. */
  function Summarise(v: View, s: Summary): (View, bool) {
    match s
    case NoSummary => (v, true)
    case Fatal => (v, false)
    case Summarised(usage, skipped) =>
      var (w, c) := Make(v, L.Compaction, usage, skipped); (w, c.NoIndex? || c.err.None?)
  }

  /** The calls of a turn that are accounted for, up to its reply, and whether that reply may be acted on. */
  datatype Generated = Failed(error: RunError) | Spoken(budget: Option<G.BudgetError>)

  function Generate(v: View, t: Turn): (View, Generated) {
    if t.cancelledInside then (v, Failed(Cancelled))
    else
      var (w, early) := Summarise(v, t.early);
      if !early then (w, Failed(GenerationFailed))
      else
        var (x, late) := Summarise(w, t.overflow);
        if !late || t.reply.NoReply? then (x, Failed(GenerationFailed))
        else
          var (y, c) := Make(x, L.Action, t.reply.usage, t.reply.skipped);
          (y, if c.Charged? && Acceptable(t.reply) then Spoken(c.err) else Failed(GenerationFailed))
  }

  function DebitAll(a: G.Account, usages: seq<G.Usage>): G.Account {
    if usages == [] then a else G.Accumulate(DebitAll(a, usages[..|usages| - 1]), usages[|usages| - 1]).0
  }

  /** Empty reports are not kept. */
  function Filed(reports: seq<L.Report>): seq<L.Report> {
    if reports == [] then []
    else if reports[0].invs == [] then Filed(reports[1..])
    else [reports[0]] + Filed(reports[1..])
  }

  /** What the children of a batch leave: their debits in the budget, their reports in the ledger, and the
      sequencer behind their requests. */
  function Settled(v: View, t: Turn): View {
    v.(account := DebitAll(v.account, t.debits), ledger := A.PostAll(v.ledger, Filed(t.reports)),
       requests := Advanced(v.requests, t.drawn))
  }

  function Advanced(requests: nat, drawn: nat): nat {
    if requests + drawn <= G.MAX_UINT32 then requests + drawn else G.MAX_UINT32
  }

  function Close(v: View, head: Message, events: seq<B.ToolEvent>): View
    requires forall i :: 0 <= i < |events| ==> events[i].Ended?
  {
    v.(groups := v.groups + [[head] + ResultMessages(events)], tail := [])
  }

  function Texts(content: seq<Block>): seq<string> {
    seq(|content|, i requires 0 <= i < |content| => if content[i].Text? then content[i].text else content[i].url)
  }

  /** What the loop detector is told about the results. */
  function Confirmed(results: seq<B.ToolEvent>): seq<D.Event>
    requires forall i :: 0 <= i < |results| ==> results[i].Ended?
  {
    seq(|results|, i requires 0 <= i < |results| =>
      D.Event(D.End, results[i].call.id, results[i].call.name, D.Outcome(results[i].isError, 0, Texts(results[i].content))))
  }

  function Record(s: Setup, d: D.State, calls: seq<Call>, results: seq<B.ToolEvent>): D.State
    requires |calls| == |results| && forall i :: 0 <= i < |results| ==> results[i].Ended?
  {
    if s.undetected then d else D.NoteAll(d, s.excluded, calls, Confirmed(results))
  }

  /** Why a batch does not close its group, in the order the code asks. */
  ghost function BatchError(s: Setup, a: G.Account, calls: seq<Call>, t: Turn): Option<RunError>
    requires Explained(a)
  {
    if t.cancelledAfter then Some(Cancelled)
    else if a.exhausted then Some(Budget(a.firstErr.value))
    else if !B.Completes(B.Runnable(s.tools, calls, |calls|), t.tools) then Some(Cancelled)
    else None
  }

  lemma AccumulateSticks(a: G.Account, u: G.Usage)
    ensures var (b, err) := G.Accumulate(a, u);
      && b.totals.turns == a.totals.turns && b.limits == a.limits
      && (b.exhausted <==> a.exhausted || err.Some?) && (err.Some? ==> !a.exhausted)
      && (Explained(a) ==> Explained(b)) && (a.exhausted ==> b.firstErr == a.firstErr)
  {}

  lemma {:induction false} DebitAllSticks(a: G.Account, usages: seq<G.Usage>)
    ensures var b := DebitAll(a, usages);
      && b.totals.turns == a.totals.turns && b.limits == a.limits
      && (Explained(a) ==> Explained(b)) && (a.exhausted ==> b.exhausted)
    decreases |usages|
  {
    if usages != [] {
      DebitAllSticks(a, usages[..|usages| - 1]);
      AccumulateSticks(DebitAll(a, usages[..|usages| - 1]), usages[|usages| - 1]);
    }
  }

  /** A batch closes its group with one result for every call, or the run ends with the group open. */
  ghost function Batch(s: Setup, v: View, head: Message, t: Turn): (View, Option<RunError>)
    requires Sane(v)
  {
    var calls := head.calls;
    var w := Settled(v, t);
    DebitAllSticks(v.account, t.debits);
    var err := BatchError(s, w.account, calls, t);
    if err.Some? then (w.(tail := [head]), err)
    else
      var results := B.Results(s.tools, calls, t.tools);
      B.ResultsMatch(s.tools, calls, t.tools);
      (Close(w.(detector := Record(s, w.detector, calls, results)), head, results), None)
  }

  /** What every call of a recovered batch is told. */
  function Recovery(calls: seq<Call>): seq<B.ToolEvent> {
    seq(|calls|, i requires 0 <= i < |calls| => B.Rejection(calls[i], "loop detected"))
  }

  function Admit(s: Setup, d: D.State, calls: seq<Call>): (D.State, D.Decision) {
    if s.undetected then (d, D.Allow)
    else var (e, a) := D.Admit(d, D.Signatures(s.excluded, calls)); (e, a.decision)
  }

  /** A message with calls: the loop guard decides whether its batch runs. */
  ghost function Act(s: Setup, v: View, head: Message, t: Turn): (View, Option<RunError>)
    requires Sane(v)
  {
    var (d, decision) := Admit(s, v.detector, head.calls);
    var w := v.(detector := d);
    match decision
    case Terminate => (w, Some(LoopDetected))
    case Recover => (Close(w, head, Recovery(head.calls)), None)
    case _ => Batch(s, w, head, t)
  }

  /** A turn either is followed by another one, or ends the run. */
  datatype Outcome = GoesOn(view: View) | Ends(view: View, err: Option<RunError>)

  lemma ChargeSticks(v: View, phase: L.Phase, usage: G.Usage, request: nat)
    ensures var (w, err) := Charge(v, phase, usage, request);
      && w.account.totals.turns == v.account.totals.turns && w.account.limits == v.account.limits
      && w.groups == v.groups && w.tail == v.tail && w.detector == v.detector && w.requests == v.requests
      && (Sane(v) ==> Sane(w)) && (err.None? && !v.account.exhausted ==> !w.account.exhausted)
  {
    AccumulateSticks(v.account, usage);
    if v.parent.Some? { AccumulateSticks(v.parent.value, usage); }
  }

  lemma MakeSticks(v: View, phase: L.Phase, usage: G.Usage, skipped: nat)
    ensures var (w, c) := Make(v, phase, usage, skipped);
      && w.account.totals.turns == v.account.totals.turns && w.account.limits == v.account.limits
      && w.groups == v.groups && w.tail == v.tail && w.detector == v.detector
      && (Sane(v) ==> Sane(w)) && (c == Charged(None) && !v.account.exhausted ==> !w.account.exhausted)
  {
    var (requests, index) := Draw(v.requests, skipped);
    if index.Some? { ChargeSticks(v.(requests := requests), phase, usage, index.value); }
  }

  lemma GenerateSticks(v: View, t: Turn)
    ensures var (w, g) := Generate(v, t);
      && w.account.totals.turns == v.account.totals.turns && w.account.limits == v.account.limits
      && w.groups == v.groups && w.tail == v.tail && w.detector == v.detector && (Sane(v) ==> Sane(w))
      && (g == Spoken(None) && !v.account.exhausted ==> !w.account.exhausted)
      && (g.Spoken? ==> Acceptable(t.reply)) && (g.Failed? ==> g.error.Cancelled? || g.error.GenerationFailed?)
  {
    if t.early.Summarised? { MakeSticks(v, L.Compaction, t.early.usage, t.early.skipped); }
    var w := Summarise(v, t.early).0;
    if t.overflow.Summarised? { MakeSticks(w, L.Compaction, t.overflow.usage, t.overflow.skipped); }
    if t.reply.Replied? { MakeSticks(Summarise(w, t.overflow).0, L.Action, t.reply.usage, t.reply.skipped); }
  }

  ghost function Execute(s: Setup, v: View, t: Turn): Outcome
    requires Sane(v)
  {
    var (w, g) := Generate(v, t);
    GenerateSticks(v, t);
    match g
    case Failed(error) => Ends(w, Some(error))
    case Spoken(Some(e)) => Ends(if t.reply.message.calls == [] then w.(tail := [t.reply.message]) else w, Some(Budget(e)))
    case Spoken(None) =>
      if t.reply.message.calls == [] then Ends(w.(tail := [t.reply.message]), None)
      else
        var (x, err) := Act(s, w, t.reply.message, t);
        if err.Some? then Ends(x, err) else GoesOn(x)
  }

  // ----- a whole run --------------------------------------------------------------------------

  /** Why no further turn may start. */
  function TurnLimit(v: View): Option<G.BudgetError>
    requires Sane(v)
  {
    if v.account.limits.maxTurns > 0 && v.account.totals.turns >= v.account.limits.maxTurns then Some(G.OverLimit(G.Turns))
    else if v.parent.Some? && v.parent.value.exhausted then v.parent.value.firstErr
    else None
  }

  function Started(v: View): View {
    v.(account := v.account.(totals := v.account.totals.(turns := v.account.totals.turns + 1)))
  }

  lemma ActSticks(s: Setup, v: View, head: Message, t: Turn)
    requires Sane(v)
    ensures var w := Act(s, v, head, t).0;
      Sane(w) && w.account.totals.turns == v.account.totals.turns && w.account.limits == v.account.limits
  {
    DebitAllSticks(v.account, t.debits);
  }

  lemma ExecuteSticks(s: Setup, v: View, t: Turn)
    requires Sane(v)
    ensures var w := Execute(s, v, t).view;
      Sane(w) && w.account.totals.turns == v.account.totals.turns && w.account.limits == v.account.limits
  {
    GenerateSticks(v, t);
    if t.reply.Replied? { ActSticks(s, Generate(v, t).0, t.reply.message, t); }
  }

  /** Turn by turn, until one ends the run or none may start. */
  ghost function RunFrom(s: Setup, v: View, turns: nat -> Turn, n: nat): (View, Option<RunError>)
    requires Sane(v) && v.account.limits.maxTurns > 0
    decreases v.account.limits.maxTurns - v.account.totals.turns
  {
    if turns(n).cancelled then (v, Some(Cancelled))
    else if TurnLimit(v).Some? then (v, Some(Budget(TurnLimit(v).value)))
    else
      ExecuteSticks(s, Started(v), turns(n));
      match Execute(s, Started(v), turns(n))
      case Ends(w, err) => (w, err)
      case GoesOn(w) => RunFrom(s, w, turns, n + 1)
  }

  /** How a run that may take another turn goes on. */
  lemma {:induction false} RunStep(s: Setup, v: View, turns: nat -> Turn, n: nat, o: Outcome)
    requires Sane(v) && v.account.limits.maxTurns > 0 && !turns(n).cancelled && TurnLimit(v).None?
    requires o == Execute(s, Started(v), turns(n))
    ensures Sane(o.view) && o.view.account.limits == v.account.limits
    ensures o.view.account.totals.turns == v.account.totals.turns + 1 <= v.account.limits.maxTurns
    ensures o.Ends? ==> RunFrom(s, v, turns, n) == (o.view, o.err)
    ensures o.GoesOn? ==> RunFrom(s, v, turns, n) == RunFrom(s, o.view, turns, n + 1)
  {
    ExecuteSticks(s, Started(v), turns(n));
  }
}
