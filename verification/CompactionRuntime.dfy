/** The compaction state of one run and its two users: the pressure check before a request and the
    recovery from an overflow (pi/compaction.go). */
module CompactionRuntimes {
  import opened Messages
  import opened Compaction
  import CP = CompactionProofs
  import opened Prune
  import opened HarnessScan
  import HarnessPlan
  import opened HarnessPrune
  import Runs = ConversationRuns

  const RESERVE_TOKENS: nat := 4096
  const SAFETY_TOKENS: nat := 2048
  const BYTES_PER_TOKEN: nat := 4
  const RETAIN_RECENT: int := 5

  const DEFAULT_PRUNE := PruneOptions(true, 3, 4096, true, {"read"})

  /** What asking the summary model comes to, in the order the outcomes are checked. */
  datatype Reply =
    | Cancelled
    | GenerationFailed
    | NoResponse
    | BadUsage
    | ObserverRefused
    | BadText
    | Summary(text: string)

  datatype Outcome = Fatal | Failed | Compacted(messages: seq<Message>, marks: Marks)

  /** What a compaction with this reply yields. */
  function Attempt(mt: Meter, ms: seq<Message>, st: Marks, reply: Reply): Outcome {
    var planned := BuildPlan(mt, ms, st, PlanOptions(0, RETAIN_RECENT, 0));
    if !planned.Range? then Failed
    else match reply
      case Cancelled => Fatal
      case ObserverRefused => Fatal
      case Summary(text) =>
        var applied := ApplySummary(ms, planned.plan, text, st);
        if applied.Done? && Visible(mt, [Checkpoint(text)]) < Visible(mt, planned.plan.messages)
        then Compacted(applied.messages, applied.marks) else Failed
      case _ => Failed
  }

  datatype Recovery = RetryWith(context: seq<Message>) | GiveUp(context: seq<Message>) | Abort(context: seq<Message>)

  class CompactionRuntime {
    const mt: Meter
    const toolBytes: nat
    const window: int
    const enablePrune: bool
    const pruneAt: int
    const compactAt: int
    var state: Marks

    constructor (mt: Meter, toolBytes: nat, window: int, enablePrune: bool, pruneAt: int, compactAt: int, input: int)
      ensures state == Marks(input, [])
    {
      this.mt, this.toolBytes, this.window, this.enablePrune := mt, toolBytes, window, enablePrune;
      this.pruneAt, this.compactAt := pruneAt, compactAt;
      state := Marks(input, []);
    }

    /** Estimated input tokens of the next request. */
    function Estimate(ms: seq<Message>): nat { SaturatingAdd(Visible(mt, ms), toolBytes) / BYTES_PER_TOKEN }

    function Pressure(ms: seq<Message>): nat { Estimate(ms) + RESERVE_TOKENS + SAFETY_TOKENS }

    /** One attempt at a summary. Nothing is committed here. */
    method Compact(messages: seq<Message>, reply: Reply) returns (outcome: Outcome)
      ensures outcome == Attempt(mt, messages, state, reply)
    {
      var planned := HarnessPlan.BuildCompactionPlan(mt, messages, state, PlanOptions(0, RETAIN_RECENT, 0));
      if !planned.Range? { return Failed; }
      var plan := planned.plan;
      if reply.Cancelled? { return Fatal; }
      if reply.GenerationFailed? || reply.NoResponse? || reply.BadUsage? { return Failed; }
      if reply.ObserverRefused? { return Fatal; }
      if reply.BadText? { return Failed; }
      var applied := HarnessPlan.ApplySummary(messages, plan, reply.text, state);
      if applied.Rejected? { return Failed; }
      assert applied.messages[plan.start..plan.start + 1] == [Checkpoint(reply.text)];
      var after := VisibleMessagesBytes(mt, applied.messages[plan.start..plan.start + 1]);
      var before := VisibleMessagesBytes(mt, plan.messages);
      if after >= before { return Failed; }
      outcome := Compacted(applied.messages, applied.marks);
    }

    /** The list after the first level: old read-only results pruned, if pruning is on and due. */
    function Light(ms: seq<Message>, due: bool): seq<Message> {
      if enablePrune && due then Pruned(mt, DEFAULT_PRUNE, ms) else ms
    }

    /** Before a request: the messages to send, the state that goes with them, and whether to stop. */
    function Next(ms: seq<Message>, st: Marks, reply: Reply): (seq<Message>, Marks, bool) {
      var light := Light(ms, Pressure(ms) >= pruneAt);
      if window <= 0 then (ms, st, false)
      else if Pressure(light) < compactAt then (light, st, false)
      else
        var outcome := Attempt(mt, light, st, reply);
        if outcome.Fatal? then (ms, st, true)
        else if outcome.Compacted? && Pressure(outcome.messages) < Pressure(light)
          then (outcome.messages, outcome.marks, false)
        else (light, st, false)
    }

    method MaybeCompact(messages: seq<Message>, reply: Reply) returns (next: seq<Message>, fatal: bool)
      modifies this
      ensures (next, state, fatal) == Next(messages, old(state), reply)
      ensures window <= 0 || fatal ==> next == messages && state == old(state)
      ensures window > 0 && !fatal ==>
        var light := if enablePrune && Pressure(messages) >= pruneAt then Pruned(mt, DEFAULT_PRUNE, messages) else messages;
        && (Pressure(light) < compactAt ==> next == light && state == old(state))
        && (next != light || state != old(state) ==> Pressure(next) < Pressure(light))
    {
      fatal := false;
      if window <= 0 { return messages, false; }
      var current := messages;
      if enablePrune && Pressure(current) >= pruneAt {
        var pruned, stats := PruneToolResults(mt, current, DEFAULT_PRUNE);
        if stats.pruned > 0 { current := pruned; }
      }
      if Pressure(current) < compactAt { return current, false; }
      var outcome := Compact(current, reply);
      if outcome.Fatal? { return messages, true; }
      if outcome.Failed? { return current, false; }
      if Pressure(outcome.messages) >= Pressure(current) { return current, false; }
      state := outcome.marks;
      next := outcome.messages;
    }

    /** After an overflow: what to retry with, if anything, and the state that goes with it. */
    function Decide(ms: seq<Message>, light: seq<Message>, st: Marks, outcome: Outcome): (Recovery, Marks) {
      if light != ms && (window <= 0 || Pressure(light) < compactAt) then (RetryWith(light), st)
      else if outcome.Fatal? then (Abort(ms), st)
      else if outcome.Compacted? && Estimate(outcome.messages) < Estimate(ms)
        then (RetryWith(outcome.messages), outcome.marks)
      else if light != ms then (RetryWith(light), st)
      else (GiveUp(ms), st)
    }

    function Recover(ms: seq<Message>, st: Marks, reply: Reply): (Recovery, Marks) {
      Decide(ms, Light(ms, true), st, Attempt(mt, Light(ms, true), st, reply))
    }

    /** Less to send: fewer estimated tokens if the state changed with it, else possibly only fewer
        content bytes. */
    predicate Less(ms: seq<Message>, next: seq<Message>, stateChanged: bool) {
      Estimate(next) < Estimate(ms) || (!stateChanged && ContentTotal(mt, next) < ContentTotal(mt, ms))
    }

    lemma {:induction false} DecidesOnLess(ms: seq<Message>, light: seq<Message>, st: Marks, outcome: Outcome)
      requires light == ms || ContentTotal(mt, light) < ContentTotal(mt, ms)
      ensures var (recovery, next) := Decide(ms, light, st, outcome);
        && (recovery.RetryWith? ==> Less(ms, recovery.context, next != st))
        && (!recovery.RetryWith? ==> recovery.context == ms && next == st)
    {}

    /** A retry is made only with less; without a retry nothing changes. */
    lemma RetriesOnlyWithLess(ms: seq<Message>, st: Marks, reply: Reply)
      ensures var (recovery, next) := Recover(ms, st, reply);
        && (recovery.RetryWith? ==> Less(ms, recovery.context, next != st))
        && (!recovery.RetryWith? ==> recovery.context == ms && next == st)
    {
      var light := Light(ms, true);
      PruneShrinksIffChanged(mt, DEFAULT_PRUNE, ms);
      DecidesOnLess(ms, light, st, Attempt(mt, light, st, reply));
    }

    /** Pruning first, and whether it made the messages smaller. */
    method Lighten(messages: seq<Message>) returns (candidate: seq<Message>, progress: bool)
      ensures candidate == Light(messages, true) && (progress <==> candidate != messages)
    {
      candidate, progress := messages, false;
      if enablePrune {
        var pruned, stats := PruneToolResults(mt, messages, DEFAULT_PRUNE);
        PruneShrinksIffChanged(mt, DEFAULT_PRUNE, messages);
        progress := stats.pruned > 0 && stats.bytesAfter < stats.bytesBefore;
        if progress { candidate := pruned; }
      }
    }

    method RecoverOverflow(messages: seq<Message>, reply: Reply) returns (recovery: Recovery)
      modifies this
      ensures (recovery, state) == Recover(messages, old(state), reply)
      ensures recovery.RetryWith? ==> Less(messages, recovery.context, state != old(state))
      ensures !recovery.RetryWith? ==> recovery.context == messages && state == old(state)
    {
      RetriesOnlyWithLess(messages, state, reply);
      var candidate, progress := Lighten(messages);
      if progress {
        if window <= 0 || Pressure(candidate) < compactAt { return RetryWith(candidate); }
      }
      var outcome := Compact(candidate, reply);
      if outcome.Fatal? { return Abort(messages); }
      if outcome.Compacted? && Estimate(outcome.messages) < Estimate(messages) {
        state := outcome.marks;
        return RetryWith(outcome.messages);
      }
      if progress { return RetryWith(candidate); }
      recovery := GiveUp(messages);
    }
  }

  // ----- every commit is a run of the conversation ------------------------------------------------

  /** What a compaction yields is what the conversation's own step yields. */
  lemma {:induction false} AttemptIsStep(mt: Meter, c: Runs.Convo, reply: Reply)
    requires |c.cells| == |c.ms| && Attempt(mt, c.ms, c.st, reply).Compacted?
    ensures reply.Summary?
    ensures var n, o := Runs.Step(mt, c, Runs.Compact(RETAIN_RECENT, reply.text)), Attempt(mt, c.ms, c.st, reply);
      n.ms == o.messages && n.st == o.marks && Total(mt, o.messages) < Total(mt, c.ms)
  {
    assert Runs.Accepted(mt, c, RETAIN_RECENT, reply.text);
    Runs.CompactionShrinks(mt, c, RETAIN_RECENT, reply.text);
  }

  /** Messages and state stand for a conversation reached by pruning and compacting. */
  ghost predicate Reached(mt: Meter, c: Runs.Convo, ms: seq<Message>, st: Marks)
    requires |c.cells| == |c.ms|
  {
    exists r :: Runs.AppendsClosed(r) && Runs.After(mt, c, r).ms == ms && Runs.After(mt, c, r).st == st
  }

  lemma LightIsReached(rt: CompactionRuntime, c: Runs.Convo, due: bool, reply: Reply)
    requires |c.cells| == |c.ms|
    ensures Reached(rt.mt, c, c.ms, c.st)
    ensures Reached(rt.mt, c, rt.Light(c.ms, due), c.st)
    ensures var outcome := Attempt(rt.mt, rt.Light(c.ms, due), c.st, reply);
      outcome.Compacted? ==> Reached(rt.mt, c, outcome.messages, outcome.marks)
  {
    var light := rt.Light(c.ms, due);
    var none := Runs.Begin;
    assert Runs.After(rt.mt, c, none) == c;
    var prune := if light == c.ms then none else Runs.Then(none, Runs.Event.Prune(DEFAULT_PRUNE));
    var n := Runs.After(rt.mt, c, prune);
    assert n.ms == light && n.st == c.st;
    if Attempt(rt.mt, light, c.st, reply).Compacted? {
      AttemptIsStep(rt.mt, n, reply);
      var r := Runs.Then(prune, Runs.Compact(RETAIN_RECENT, reply.text));
      assert Runs.AppendsClosed(r);
      assert Runs.After(rt.mt, c, r) == Runs.Step(rt.mt, n, Runs.Compact(RETAIN_RECENT, reply.text));
    }
  }

  /** Whatever the pressure check returns, its messages and the state kept belong together. */
  lemma NextBelongsTogether(rt: CompactionRuntime, c: Runs.Convo, reply: Reply)
    requires |c.cells| == |c.ms|
    ensures Reached(rt.mt, c, rt.Next(c.ms, c.st, reply).0, rt.Next(c.ms, c.st, reply).1)
  {
    LightIsReached(rt, c, rt.Pressure(c.ms) >= rt.pruneAt, reply);
  }

  /** Whatever the overflow recovery returns, its messages and the state kept belong together. */
  lemma RecoveryBelongsTogether(rt: CompactionRuntime, c: Runs.Convo, reply: Reply)
    requires |c.cells| == |c.ms|
    ensures Reached(rt.mt, c, rt.Recover(c.ms, c.st, reply).0.context, rt.Recover(c.ms, c.st, reply).1)
  {
    LightIsReached(rt, c, true, reply);
  }

  // ----- what the thresholds decide ---------------------------------------------------------------

  /** The planner found a range, and the reply is a summary that is not blank and smaller than what it replaces. */
  predicate Usable(mt: Meter, planned: Planned, reply: Reply) {
    && planned.Range? && reply.Summary? && Trim(reply.text) != ""
    && Visible(mt, [Checkpoint(reply.text)]) < Visible(mt, planned.plan.messages)
  }

  predicate InBounds(ms: seq<Message>, planned: Planned) {
    planned.Range? ==> 0 <= planned.plan.start < planned.plan.end <= |ms|
  }

  /** The list with the planned range replaced by the checkpoint, and the marks that name it. */
  function Replaced(ms: seq<Message>, planned: Planned, reply: Reply): seq<Message>
    requires planned.Range? && reply.Summary? && InBounds(ms, planned)
  {
    ms[..planned.plan.start] + [Checkpoint(reply.text)] + ms[planned.plan.end..]
  }

  /** An attempt is fatal exactly if there was something to summarise and the call was cancelled or its cost
      refused; it yields the list with the range replaced exactly if the summary is usable. */
  lemma AttemptDecides(mt: Meter, ms: seq<Message>, st: Marks, reply: Reply) returns (planned: Planned)
    ensures planned == BuildPlan(mt, ms, st, PlanOptions(0, 5, 0)) && InBounds(ms, planned)
    ensures Attempt(mt, ms, st, reply).Fatal? <==> planned.Range? && (reply.Cancelled? || reply.ObserverRefused?)
    ensures Attempt(mt, ms, st, reply).Compacted? <==> Usable(mt, planned, reply)
    ensures Usable(mt, planned, reply) ==>
      && Attempt(mt, ms, st, reply).messages == Replaced(ms, planned, reply)
      && Attempt(mt, ms, st, reply).marks == Moved(st, planned.plan.start, planned.plan.end)
  {
    planned := BuildPlan(mt, ms, st, PlanOptions(0, 5, 0));
    if planned.Range? {
      CP.PlanIs(mt, ms, st, PlanOptions(0, 5, 0));
      if reply.Summary? { CP.PlanIsAcceptedIff(mt, ms, st, PlanOptions(0, 5, 0), reply.text); }
    }
  }

  /** The pressure is the size of the request, in tokens of four bytes, and room for the answer. */
  lemma PressureIs(rt: CompactionRuntime, ms: seq<Message>)
    requires Visible(rt.mt, ms) + rt.toolBytes <= MAX_INT
    ensures var tokens := rt.Pressure(ms) - 4096 - 2048;
      4 * tokens <= Visible(rt.mt, ms) + rt.toolBytes < 4 * tokens + 4
    ensures rt.Pressure(ms) == rt.Estimate(ms) + 4096 + 2048
  {}

  /** The pressure check: old results are pruned exactly if pruning is on and the pressure has reached its
      threshold; below the second threshold, measured again, nothing else happens, whatever the summary would
      have been; at or above it the summary is taken over exactly if it is usable and lowers the pressure, and
      the run stops exactly if the attempt was fatal, with messages and state as they were. */
  lemma ThresholdsDecide(rt: CompactionRuntime, ms: seq<Message>, st: Marks, reply: Reply, light: seq<Message>)
    returns (planned: Planned)
    requires light == if rt.enablePrune && rt.Pressure(ms) >= rt.pruneAt then Pruned(rt.mt, DEFAULT_PRUNE, ms) else ms
    ensures planned == BuildPlan(rt.mt, light, st, PlanOptions(0, 5, 0)) && InBounds(light, planned)
    ensures rt.window <= 0 ==> rt.Next(ms, st, reply) == (ms, st, false)
    ensures rt.window > 0 && rt.Pressure(light) < rt.compactAt ==> rt.Next(ms, st, reply) == (light, st, false)
    ensures rt.window > 0 && rt.Pressure(light) >= rt.compactAt ==>
      rt.Next(ms, st, reply) ==
        if planned.Range? && (reply.Cancelled? || reply.ObserverRefused?) then (ms, st, true)
        else if Usable(rt.mt, planned, reply) && rt.Pressure(Replaced(light, planned, reply)) < rt.Pressure(light)
          then (Replaced(light, planned, reply), Moved(st, planned.plan.start, planned.plan.end), false)
        else (light, st, false)
  {
    planned := AttemptDecides(rt.mt, light, st, reply);
  }

  /** The recovery from an overflow: pruning that made the list smaller suffices if the window is unknown or the
      pressure back below its threshold, whatever the summary would have been; otherwise the summary is taken
      over exactly if it is usable and makes the request smaller than it was, the run stops exactly if the
      attempt was fatal, and without either the request is repeated exactly if pruning made it smaller. */
  lemma OverflowDecides(rt: CompactionRuntime, ms: seq<Message>, st: Marks, reply: Reply, light: seq<Message>)
    returns (planned: Planned)
    requires light == if rt.enablePrune then Pruned(rt.mt, DEFAULT_PRUNE, ms) else ms
    ensures planned == BuildPlan(rt.mt, light, st, PlanOptions(0, 5, 0)) && InBounds(light, planned)
    ensures light != ms && (rt.window <= 0 || rt.Pressure(light) < rt.compactAt) ==>
      rt.Recover(ms, st, reply) == (RetryWith(light), st)
    ensures !(light != ms && (rt.window <= 0 || rt.Pressure(light) < rt.compactAt)) ==>
      rt.Recover(ms, st, reply) ==
        if planned.Range? && (reply.Cancelled? || reply.ObserverRefused?) then (Abort(ms), st)
        else if Usable(rt.mt, planned, reply) && rt.Estimate(Replaced(light, planned, reply)) < rt.Estimate(ms)
          then (RetryWith(Replaced(light, planned, reply)), Moved(st, planned.plan.start, planned.plan.end))
        else (if light != ms then RetryWith(light) else GiveUp(ms), st)
  {
    planned := AttemptDecides(rt.mt, light, st, reply);
  }

  /** Under the loop's own options a result is pruned exactly if it is of the read tool, no error, longer than
      4096 bytes, not a marker yet, and older than the last three complete groups. */
  lemma DefaultsPrune(mt: Meter, ms: seq<Message>, i: nat)
    requires i < |ms|
    ensures var m, size := ms[i], mt.content(ms[i].content);
      Pruned(mt, DEFAULT_PRUNE, ms)[i] != m <==>
        && Exposed(ms, 3, i) && m.toolName == "read" && !m.isError && size > 4096
        && mt.content(Placeholder("read", size)) < size
        && !(|m.content| == 1 && m.content[0].Text? && "[工具结果已裁剪]" <= m.content[0].text)
  {
    PrunedIff(mt, DEFAULT_PRUNE, ms, i);
  }
}
