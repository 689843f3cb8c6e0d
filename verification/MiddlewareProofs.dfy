/** What nesting means for a tool execution: order, blocks, retries, panics. */
module MiddlewareProofs {
  import opened Common
  import opened Middleware

  // ----- how often the tool runs --------------------------------------------------------------

  function Runs(log: Log): nat {
    if log.Nothing? then 0 else Runs(log.before) + if log.entry.Executed? then 1 else 0
  }

  /** The product of the attempts of all active retries behind `i`, for every tool call behind them. */
  function Bound(hs: seq<Handler>, i: nat): nat
    decreases |hs| - i
  {
    if i >= |hs| then 0
    else if hs[i].Terminal? then 1 + Bound(hs, i + 1)
    else if Active(hs[i]) then Cap(hs[i].attempts) * Bound(hs, i + 1)
    else Bound(hs, i + 1)
  }

  lemma {:induction false} RunsAreBounded(hs: seq<Handler>, w: World, i: nat, s: State)
    ensures Runs(Pass(hs, w, i, s).log) <= Runs(s.log) + Bound(hs, i)
    decreases |hs| - i, 1, 0
  {
    if i < |hs| {
      var e := s.Note(Enter(i));
      if Active(hs[i]) {
        AttemptsAreBounded(hs, w, i, 1, Cap(hs[i].attempts), e);
      } else if hs[i].Terminal? {
        var x := e.Note(Executed(i));
        match w.tool(e.Time())
        case Done(o) => RunsAreBounded(hs, w, i + 1, x.(out := Some(o)));
        case Failed(f, o) => RunsAreBounded(hs, w, i + 1, x.(err := Some(f), out := Some(o)));
        case Panics =>
      } else {
        RunsAreBounded(hs, w, i + 1, e);
      }
    }
  }

  lemma {:induction false} AttemptsAreBounded(hs: seq<Handler>, w: World, i: nat, n: int, cap: int, s: State)
    requires i < |hs| && 1 <= n <= cap
    ensures Runs(Attempts(hs, w, i, n, cap, s).log) <= Runs(s.log) + (cap - n + 1) * Bound(hs, i + 1)
    decreases |hs| - i, 0, cap - n
  {
    var first := s.(err := None, out := None).Note(Attempt(i, n));
    var r := Pass(hs, w, i + 1, first);
    RunsAreBounded(hs, w, i + 1, first);
    OneMore(cap - n, Bound(hs, i + 1));
    if Again(w, n, cap, r) { AttemptsAreBounded(hs, w, i, n + 1, cap, r); }
  }

  lemma OneMore(k: int, b: nat)
    requires k >= 0
    ensures (k + 1) * b == k * b + b && k * b >= 0
  {}

  /** One tool at the end of the chain. */
  predicate EndsInTool(hs: seq<Handler>) {
    hs != [] && hs[|hs| - 1].Terminal? && forall j :: 0 <= j < |hs| - 1 ==> !hs[j].Terminal?
  }

  /** No retry from `i` on, except possibly at `i`. */
  predicate RetriesOnlyAt(hs: seq<Handler>, i: nat) { forall j :: 0 <= j < |hs| && j != i ==> !Active(hs[j]) }

  lemma {:induction false} SingleBound(hs: seq<Handler>, r: nat, i: nat)
    requires EndsInTool(hs) && RetriesOnlyAt(hs, r) && r < |hs| && i <= |hs|
    ensures Bound(hs, i) == if i == |hs| then 0 else if i <= r && Active(hs[r]) then Cap(hs[r].attempts) else 1
    decreases |hs| - i
  {
    if i < |hs| { SingleBound(hs, r, i + 1); }
  }

  /** Behind one retry the tool runs at most its attempts, and never more than five times. */
  lemma {:induction false} ToolRunsAtMost(hs: seq<Handler>, w: World, r: nat)
    requires EndsInTool(hs) && RetriesOnlyAt(hs, r) && r < |hs|
    ensures var n := Runs(Pass(hs, w, 0, State(Nothing, None, None, false)).log);
      n <= 5 && n <= if Active(hs[r]) then hs[r].attempts else 1
  {
    RunsAreBounded(hs, w, 0, State(Nothing, None, None, false));
    SingleBound(hs, r, 0);
  }

  // ----- the order within one pass ------------------------------------------------------------

  /** The positions entered, in order. */
  function Entered(log: Log): seq<nat> {
    if log.Nothing? then [] else if log.entry.Enter? then Entered(log.before) + [log.entry.at] else Entered(log.before)
  }

  /** The handler at `j` lets nothing behind it run. */
  predicate Stops(h: Handler) { (h.Check? && h.refusal.Some?) || h.Terminal? }

  lemma SpanCons(a: seq<nat>, i: nat, j: nat)
    requires i < j
    ensures (a + [i]) + Span(i + 1, j) == a + Span(i, j)
  {}

  /** The handlers from `i` up to `j` were entered, and `j` is where the pass ended or was stopped. */
  predicate EnteredUpTo(hs: seq<Handler>, w: World, i: nat, s: State, j: nat) {
    && i <= j <= |hs|
    && Entered(Pass(hs, w, i, s).log) == Entered(s.log) + Span(i, j)
    && (j < |hs| ==> i < j && Stops(hs[j - 1]))
    && (forall k :: i <= k < j - 1 ==> !(hs[k].Check? && hs[k].refusal.Some?))
  }

  /** Behind the tool the pass goes on, unless the tool panicked. */
  lemma {:induction false} EnteredWithTool(hs: seq<Handler>, w: World, i: nat, s: State) returns (j: nat)
    requires i < |hs| && hs[i].Terminal? && forall k :: i <= k < |hs| ==> !Active(hs[k])
    ensures EnteredUpTo(hs, w, i, s, j)
    decreases |hs| - i, 0
  {
    var e := s.Note(Enter(i));
    var x := e.Note(Executed(i));
    assert Entered(e.log) == Entered(s.log) + [i];
    match w.tool(e.Time())
    case Done(o) => j := EnteredInOrder(hs, w, i + 1, x.(out := Some(o))); SpanCons(Entered(s.log), i, j);
    case Failed(f, o) =>
      j := EnteredInOrder(hs, w, i + 1, x.(err := Some(f), out := Some(o)));
      SpanCons(Entered(s.log), i, j);
    case Panics => j := i + 1; SpanCons(Entered(s.log), i, j);
  }

  /** In a pass without retries the handlers are entered once each, in order, up to the end of the chain
      or up to the one that blocked it. */
  lemma {:induction false} EnteredInOrder(hs: seq<Handler>, w: World, i: nat, s: State) returns (j: nat)
    requires i <= |hs| && forall k :: i <= k < |hs| ==> !Active(hs[k])
    ensures EnteredUpTo(hs, w, i, s, j)
    decreases |hs| - i, 1
  {
    if i == |hs| {
      j := i;
    } else if hs[i].Terminal? {
      j := EnteredWithTool(hs, w, i, s);
    } else if hs[i].Check? && hs[i].refusal.Some? {
      j := i + 1;
      SpanCons(Entered(s.log), i, j);
    } else {
      j := EnteredInOrder(hs, w, i + 1, s.Note(Enter(i)));
      SpanCons(Entered(s.log), i, j);
    }
  }

  // ----- the order with retries ----------------------------------------------------------------

  /** Behind the handler at `a` the next one entered is its successor, or the first one behind a retry that
      starts over: one at or before `a`, but not before `i`. */
  predicate Follows(hs: seq<Handler>, i: nat, a: nat, b: nat) {
    b == a + 1 || exists q :: i <= q <= a && q < |hs| && Active(hs[q]) && b == q + 1
  }

  /** Positions from `i` on, beginning with `i`, each followed as it should be. */
  predicate Walk(hs: seq<Handler>, i: nat, es: seq<nat>) {
    && (es == [] <==> i >= |hs|) && (es != [] ==> es[0] == i)
    && (forall k :: 0 <= k < |es| ==> i <= es[k] < |hs|)
    && (forall k :: 1 <= k < |es| ==> Follows(hs, i, es[k - 1], es[k]))
  }

  lemma WalkCons(hs: seq<Handler>, i: nat, es: seq<nat>)
    requires i < |hs| && Walk(hs, i + 1, es)
    ensures Walk(hs, i, [i] + es)
  {
    var fs := [i] + es;
    forall k | 1 <= k < |fs| ensures Follows(hs, i, fs[k - 1], fs[k]) {
      if k > 1 { assert Follows(hs, i + 1, es[k - 2], es[k - 1]); }
    }
  }

  /** One more attempt of the retry at `r`. */
  lemma WalkAgain(hs: seq<Handler>, r: nat, es: seq<nat>, fs: seq<nat>)
    requires r < |hs| && Active(hs[r]) && WalkBehind(hs, r, es) && WalkBehind(hs, r, fs)
    ensures WalkBehind(hs, r, es + fs)
  {
    var gs := es + fs;
    forall k | 1 <= k < |gs| ensures Follows(hs, r, gs[k - 1], gs[k]) {
      if k < |es| {
        assert Follows(hs, r, es[k - 1], es[k]);
      } else if k > |es| {
        assert Follows(hs, r, fs[k - |es| - 1], fs[k - |es|]);
      } else {
        assert es != [] ==> r <= gs[k - 1] && gs[k] == r + 1;
      }
    }
  }

  /** Attempts of the retry at `r`, one behind the other. */
  predicate WalkBehind(hs: seq<Handler>, r: nat, es: seq<nat>) {
    && (es == [] <==> r + 1 >= |hs|) && (es != [] ==> es[0] == r + 1)
    && (forall k :: 0 <= k < |es| ==> r + 1 <= es[k] < |hs|)
    && (forall k :: 1 <= k < |es| ==> Follows(hs, r, es[k - 1], es[k]))
  }

  lemma WalkIsBehind(hs: seq<Handler>, r: nat, es: seq<nat>)
    requires Walk(hs, r + 1, es)
    ensures WalkBehind(hs, r, es)
  {
    forall k | 1 <= k < |es| ensures Follows(hs, r, es[k - 1], es[k]) {
      assert Follows(hs, r + 1, es[k - 1], es[k]);
    }
  }

  lemma BehindIsWalk(hs: seq<Handler>, r: nat, es: seq<nat>)
    requires r < |hs| && WalkBehind(hs, r, es)
    ensures Walk(hs, r, [r] + es)
  {
    var fs := [r] + es;
    forall k | 1 <= k < |fs| ensures Follows(hs, r, fs[k - 1], fs[k]) {
      if k > 1 { assert Follows(hs, r, es[k - 2], es[k - 1]); }
    }
  }

  /** A tool that ended, or one that panicked. */
  lemma {:induction false} ToolWalks(hs: seq<Handler>, w: World, i: nat, s: State) returns (es: seq<nat>)
    requires i < |hs| && hs[i].Terminal?
    ensures Walk(hs, i, [i] + es) && Entered(Pass(hs, w, i, s).log) == Entered(s.log) + [i] + es
    decreases |hs| - i, 0, 0
  {
    var e := s.Note(Enter(i));
    var x := e.Note(Executed(i));
    assert Entered(e.log) == Entered(s.log) + [i];
    es := [];
    match w.tool(e.Time())
    case Done(o) =>
      es := EveryPassWalks(hs, w, i + 1, x.(out := Some(o)));
      WalkCons(hs, i, es);
    case Failed(f, o) =>
      es := EveryPassWalks(hs, w, i + 1, x.(err := Some(f), out := Some(o)));
      WalkCons(hs, i, es);
    case Panics =>
  }

  /** Whatever the chain, however its retries are nested: handlers are entered in order, from the first one
      on, and the order is broken only by a retry that starts over just behind itself. */
  lemma {:induction false} EveryPassWalks(hs: seq<Handler>, w: World, i: nat, s: State) returns (es: seq<nat>)
    ensures Walk(hs, i, es) && Entered(Pass(hs, w, i, s).log) == Entered(s.log) + es
    decreases |hs| - i, 1, 0
  {
    es := [];
    if i < |hs| {
      var e := s.Note(Enter(i));
      assert Entered(e.log) == Entered(s.log) + [i];
      if hs[i].Terminal? {
        es := ToolWalks(hs, w, i, s);
      } else if Active(hs[i]) {
        es := EveryAttemptWalks(hs, w, i, 1, Cap(hs[i].attempts), e);
        BehindIsWalk(hs, i, es);
      } else if !(hs[i].Check? && hs[i].refusal.Some?) {
        es := EveryPassWalks(hs, w, i + 1, e);
        WalkCons(hs, i, es);
      }
      assert Entered(s.log) + [i] + es == Entered(s.log) + ([i] + es);
      es := [i] + es;
    }
  }

  lemma {:induction false} EveryAttemptWalks(hs: seq<Handler>, w: World, r: nat, n: int, cap: int, s: State)
    returns (es: seq<nat>)
    requires r < |hs| && 1 <= n <= cap && Active(hs[r])
    ensures WalkBehind(hs, r, es) && Entered(Attempts(hs, w, r, n, cap, s).log) == Entered(s.log) + es
    decreases |hs| - r, 0, cap - n
  {
    var first := s.(err := None, out := None).Note(Attempt(r, n));
    var x := Pass(hs, w, r + 1, first);
    es := EveryPassWalks(hs, w, r + 1, first);
    WalkIsBehind(hs, r, es);
    assert Entered(first.log) == Entered(s.log);
    if Again(w, n, cap, x) {
      var more := EveryAttemptWalks(hs, w, r, n + 1, cap, x);
      WalkAgain(hs, r, es, more);
      Joined(Entered(s.log), es, more);
      es := es + more;
    }
  }

  lemma Joined(a: seq<nat>, b: seq<nat>, c: seq<nat>)
    ensures a + b + c == a + (b + c)
  {}

  /** Where the suffix that begins at `from` can end: at the end of the chain, or just behind a handler that
      stopped it. */
  predicate EndOfPass(hs: seq<Handler>, from: nat, j: nat) {
    from <= j <= |hs| && (j < |hs| ==> from < j && Stops(hs[j - 1]))
  }

  /** Passes over the suffix from `from` on, one behind the other. */
  function Spans(from: nat, js: seq<nat>): seq<nat>
    requires forall k :: 0 <= k < |js| ==> from <= js[k]
  {
    if js == [] then [] else Span(from, js[0]) + Spans(from, js[1..])
  }

  predicate AllEnd(hs: seq<Handler>, from: nat, js: seq<nat>) {
    forall k :: 0 <= k < |js| ==> from <= js[k] && EndOfPass(hs, from, js[k])
  }

  predicate NoRetryFrom(hs: seq<Handler>, i: nat) { forall k :: i <= k < |hs| ==> !Active(hs[k]) }

  /** Attempt by attempt the suffix is entered in order, from its first handler on. */
  lemma {:induction false} AttemptsEnterInOrder(hs: seq<Handler>, w: World, r: nat, n: int, cap: int, s: State)
    returns (js: seq<nat>)
    requires r < |hs| && 1 <= n <= cap && NoRetryFrom(hs, r + 1)
    ensures 1 <= |js| <= cap - n + 1 && AllEnd(hs, r + 1, js)
    ensures Entered(Attempts(hs, w, r, n, cap, s).log) == Entered(s.log) + Spans(r + 1, js)
    decreases cap - n
  {
    var first := s.(err := None, out := None).Note(Attempt(r, n));
    var j := EnteredInOrder(hs, w, r + 1, first);
    var x := Pass(hs, w, r + 1, first);
    assert Entered(first.log) == Entered(s.log);
    if Again(w, n, cap, x) {
      var rest := AttemptsEnterInOrder(hs, w, r, n + 1, cap, x);
      js := [j] + rest;
      assert js[1..] == rest;
      assert Entered(s.log) + Span(r + 1, j) + Spans(r + 1, rest) == Entered(s.log) + Spans(r + 1, js);
    } else {
      js := [j];
      assert Spans(r + 1, js) == Span(r + 1, j) + Spans(r + 1, []);
    }
  }

  /** The one retry at `r` is reached: nothing before it stops the pass. */
  predicate LeadsTo(hs: seq<Handler>, i: nat, r: nat) {
    i <= r < |hs| && forall k :: i <= k < r ==> !Stops(hs[k]) && !Active(hs[k])
  }

  /** With one retry that retries: the handlers up to it are entered once, in order; then, once for every
      attempt and at least once, those behind it, from the first one on, each time in order and up to the
      end of the chain or to the one that stopped that attempt. */
  lemma {:induction false} EnteredWithRetry(hs: seq<Handler>, w: World, i: nat, r: nat, s: State) returns (js: seq<nat>)
    requires LeadsTo(hs, i, r) && Active(hs[r]) && NoRetryFrom(hs, r + 1)
    ensures 1 <= |js| <= Cap(hs[r].attempts) && AllEnd(hs, r + 1, js)
    ensures Entered(Pass(hs, w, i, s).log) == Entered(s.log) + Span(i, r + 1) + Spans(r + 1, js)
    decreases r - i
  {
    var e := s.Note(Enter(i));
    assert Entered(e.log) == Entered(s.log) + [i];
    if i == r {
      js := AttemptsEnterInOrder(hs, w, r, 1, Cap(hs[r].attempts), e);
      assert Span(i, r + 1) == [i];
    } else {
      js := EnteredWithRetry(hs, w, i + 1, r, e);
      SpanCons(Entered(s.log), i, r + 1);
      assert Entered(Pass(hs, w, i + 1, e).log) == Entered(s.log) + Span(i, r + 1) + Spans(r + 1, js);
    }
  }

  /** A pass stopped before its retry is reached is one pass in order, as if there were no retry. */
  lemma {:induction false} StoppedBeforeRetry(hs: seq<Handler>, w: World, i: nat, b: nat, s: State)
    requires LeadsTo(hs, i, b) && hs[b].Check? && hs[b].refusal.Some?
    ensures Entered(Pass(hs, w, i, s).log) == Entered(s.log) + Span(i, b + 1)
    decreases b - i
  {
    var e := s.Note(Enter(i));
    assert Entered(e.log) == Entered(s.log) + [i];
    if i == b {
      assert Span(i, b + 1) == [i];
    } else {
      StoppedBeforeRetry(hs, w, i + 1, b, e);
      SpanCons(Entered(s.log), i, b + 1);
    }
  }

  // ----- refusals, retries, panics ------------------------------------------------------------

  predicate Refuses(h: Handler) { h.Check? && h.refusal.Some? }

  /** No tool stands between `i` and `j`. */
  predicate ToolFree(hs: seq<Handler>, i: nat, j: nat) { j < |hs| && forall k :: i <= k < j ==> !hs[k].Terminal? }

  /** How often a handler behind `j` was entered. */
  function EnteredBehind(log: Log, j: nat): nat {
    if log.Nothing? then 0
    else EnteredBehind(log.before, j) + if log.entry.Enter? && log.entry.at > j then 1 else 0
  }

  predicate Untouched(s: State, r: State, j: nat) {
    Runs(r.log) == Runs(s.log) && EnteredBehind(r.log, j) == EnteredBehind(s.log, j)
  }

  /** Behind a refusal nothing runs, the tool least of all, however many retries stand before it and
      however often they start over. */
  lemma {:induction false} NothingBehindRefusal(hs: seq<Handler>, w: World, i: nat, j: nat, s: State)
    requires i <= j && ToolFree(hs, i, j) && Refuses(hs[j])
    ensures Untouched(s, Pass(hs, w, i, s), j)
    decreases |hs| - i, 1, 0
  {
    var e := s.Note(Enter(i));
    assert Untouched(s, e, j);
    if i < j {
      if Active(hs[i]) {
        NothingBehindAttempts(hs, w, i, 1, Cap(hs[i].attempts), j, e);
      } else if !Refuses(hs[i]) {
        NothingBehindRefusal(hs, w, i + 1, j, e);
      }
    }
  }

  lemma {:induction false} NothingBehindAttempts(hs: seq<Handler>, w: World, r: nat, n: int, cap: int, j: nat, s: State)
    requires r < j && ToolFree(hs, r, j) && Refuses(hs[j])
    ensures Untouched(s, Attempts(hs, w, r, n, cap, s), j)
    decreases |hs| - r, 0, cap - n
  {
    var first := s.(err := None, out := None).Note(Attempt(r, n));
    var x := Pass(hs, w, r + 1, first);
    NothingBehindRefusal(hs, w, r + 1, j, first);
    if Again(w, n, cap, x) { NothingBehindAttempts(hs, w, r, n + 1, cap, j, x); }
  }

  /** The first refusal is at `j`, for good, and no deadline before it can replace its error. */
  predicate RefusedAt(hs: seq<Handler>, i: nat, j: nat) {
    && i <= j && ToolFree(hs, i, j) && Refuses(hs[j]) && !Retryable(hs[j].refusal.value)
    && forall k :: i <= k < j ==> !Refuses(hs[k]) && !hs[k].Deadline?
  }

  /** The handlers from `i` to `j` were entered once each, in order, and the pass ended with this error. */
  predicate EndsWith(s: State, r: State, i: nat, j: nat, refusal: Option<Fault>) {
    i <= j + 1 && r.err == refusal && r.out == None && !r.panicking && Entered(r.log) == Entered(s.log) + Span(i, j + 1)
  }

  /** A refusal that is not worth a retry is the outcome of the whole chain, wherever it stands: it passes
      through every handler before it, no retry starts over for it, and nothing was entered twice. */
  lemma {:induction false} RefusalIsFinal(hs: seq<Handler>, w: World, i: nat, j: nat, s: State)
    requires RefusedAt(hs, i, j)
    ensures EndsWith(s, Pass(hs, w, i, s), i, j, hs[j].refusal)
    decreases j - i
  {
    var e := s.Note(Enter(i));
    assert Entered(e.log) == Entered(s.log) + [i];
    if i == j {
      assert Span(i, j + 1) == [i];
    } else {
      SpanCons(Entered(s.log), i, j + 1);
      if Active(hs[i]) {
        var first := e.(err := None, out := None).Note(Attempt(i, 1));
        RefusalIsFinal(hs, w, i + 1, j, first);
        assert Attempts(hs, w, i, 1, Cap(hs[i].attempts), e) == Pass(hs, w, i + 1, first);
      } else {
        RefusalIsFinal(hs, w, i + 1, j, e);
      }
    }
  }

  /** No panic of a tool leaves a chain that recovers anywhere before its tool. */
  lemma {:induction false} PanicsStayInside(hs: seq<Handler>, w: World, i: nat, j: nat, s: State)
    requires i <= j && ToolFree(hs, i, j) && hs[j].Recover?
    ensures !s.panicking ==> !Pass(hs, w, i, s).panicking
    decreases |hs| - i, 1, 0
  {
    var e := s.Note(Enter(i));
    if i < j && !s.panicking {
      if Active(hs[i]) {
        AttemptsStayInside(hs, w, i, 1, Cap(hs[i].attempts), j, e);
      } else {
        PanicsStayInside(hs, w, i + 1, j, e);
      }
    }
  }

  lemma {:induction false} AttemptsStayInside(hs: seq<Handler>, w: World, r: nat, n: int, cap: int, j: nat, s: State)
    requires r < j && ToolFree(hs, r, j) && hs[j].Recover? && !s.panicking
    ensures !Attempts(hs, w, r, n, cap, s).panicking
    decreases |hs| - r, 0, cap - n
  {
    var first := s.(err := None, out := None).Note(Attempt(r, n));
    PanicsStayInside(hs, w, r + 1, j, first);
    var x := Pass(hs, w, r + 1, first);
    if Again(w, n, cap, x) { AttemptsStayInside(hs, w, r, n + 1, cap, j, x); }
  }

  /** The first tool is at `t` and nothing before it refuses. */
  predicate ReachesTool(hs: seq<Handler>, i: nat, t: nat) {
    i <= t && ToolFree(hs, i, t) && hs[t].Terminal? && forall k :: i <= k < t ==> !Refuses(hs[k])
  }

  /** The panic of a tool that always panics leaves every chain that does not recover before it: at the
      first attempt, for a retry never sees it. */
  lemma {:induction false} PanicEscapes(hs: seq<Handler>, w: World, i: nat, t: nat, s: State)
    requires ReachesTool(hs, i, t) && (forall k :: i <= k < t ==> !hs[k].Recover?) && forall n :: w.tool(n).Panics?
    ensures Pass(hs, w, i, s).panicking
    decreases t - i
  {
    if i < t {
      var e := s.Note(Enter(i));
      if Active(hs[i]) {
        PanicEscapes(hs, w, i + 1, t, e.(err := None, out := None).Note(Attempt(i, 1)));
      } else {
        PanicEscapes(hs, w, i + 1, t, e);
      }
    }
  }

  /** Where a panic goes: out of the chain exactly if no handler before the tool recovers. */
  lemma {:induction false} PanicEscapesIff(hs: seq<Handler>, w: World, i: nat, t: nat, s: State)
    requires ReachesTool(hs, i, t) && !s.panicking && forall n :: w.tool(n).Panics?
    ensures Pass(hs, w, i, s).panicking <==> forall k :: i <= k < t ==> !hs[k].Recover?
  {
    if j :| i <= j < t && hs[j].Recover? {
      PanicsStayInside(hs, w, i, j, s);
    } else {
      PanicEscapes(hs, w, i, t, s);
    }
  }

  /** A retry gives up on a retryable error only when its attempts are used up or the wait was cut
      short; every other ending is taken as it is. */
  lemma {:induction false} GivesUpOnlyWhen(hs: seq<Handler>, w: World, i: nat, n: int, cap: int, s: State)
    returns (last: int)
    requires i < |hs| && 1 <= n <= cap
    ensures n <= last <= cap
    ensures Tries(Attempts(hs, w, i, n, cap, s).log, i) == Tries(s.log, i) + (last - n + 1)
    ensures var r := Attempts(hs, w, i, n, cap, s);
      !r.panicking && r.err.Some? && Retryable(r.err.value) && last < cap ==> !w.waits(r.Time())
    decreases cap - n
  {
    var first := s.(err := None, out := None).Note(Attempt(i, n));
    var r := Pass(hs, w, i + 1, first);
    InnerTriesElsewhere(hs, w, i + 1, i, first);
    if Again(w, n, cap, r) {
      last := GivesUpOnlyWhen(hs, w, i, n + 1, cap, r);
    } else {
      last := n;
    }
  }

  /** How many attempts of the retry at `i` the log shows. */
  function Tries(log: Log, i: nat): nat {
    if log.Nothing? then 0 else Tries(log.before, i) + if log.entry.Attempt? && log.entry.at == i then 1 else 0
  }

  /** A pass over the suffix notes no attempt of a retry before it. */
  lemma {:induction false} InnerTriesElsewhere(hs: seq<Handler>, w: World, i: nat, j: nat, s: State)
    requires j < i
    ensures Tries(Pass(hs, w, i, s).log, j) == Tries(s.log, j)
    decreases |hs| - i, 1, 0
  {
    if i < |hs| {
      var e := s.Note(Enter(i));
      if Active(hs[i]) {
        InnerAttemptsElsewhere(hs, w, i, 1, Cap(hs[i].attempts), j, e);
      } else if hs[i].Terminal? {
        var x := e.Note(Executed(i));
        match w.tool(e.Time())
        case Done(o) => InnerTriesElsewhere(hs, w, i + 1, j, x.(out := Some(o)));
        case Failed(f, o) => InnerTriesElsewhere(hs, w, i + 1, j, x.(err := Some(f), out := Some(o)));
        case Panics =>
      } else {
        InnerTriesElsewhere(hs, w, i + 1, j, e);
      }
    }
  }

  lemma {:induction false} InnerAttemptsElsewhere(hs: seq<Handler>, w: World, i: nat, n: int, cap: int, j: nat, s: State)
    requires j < i < |hs|
    ensures Tries(Attempts(hs, w, i, n, cap, s).log, j) == Tries(s.log, j)
    decreases |hs| - i, 0, cap - n
  {
    var first := s.(err := None, out := None).Note(Attempt(i, n));
    var r := Pass(hs, w, i + 1, first);
    InnerTriesElsewhere(hs, w, i + 1, j, first);
    if Again(w, n, cap, r) { InnerAttemptsElsewhere(hs, w, i, n + 1, cap, j, r); }
  }

  /** The built-in chain, with whatever is put behind it. */
  function Defaults(schema: Option<Fault>, rest: seq<Handler>): seq<Handler> {
    [Around, Recover, Check(schema), Around, Around] + rest
  }

  /** The built-in chain contains every panic, however it is extended; arguments it refuses reach nothing. */
  lemma {:induction false} DefaultsContain(w: World, schema: Option<Fault>, rest: seq<Handler>)
    ensures var r := Pass(Defaults(schema, rest), w, 0, State(Nothing, None, None, false));
      && !r.panicking
      && (schema.Some? ==> Runs(r.log) == 0 && EnteredBehind(r.log, 2) == 0)
      && (schema.Some? && !Retryable(schema.value) ==> r.err == schema && Entered(r.log) == [0, 1, 2])
  {
    var hs, s := Defaults(schema, rest), State(Nothing, None, None, false);
    assert hs[0] == Around && hs[1] == Recover && hs[2] == Check(schema);
    PanicsStayInside(hs, w, 0, 1, s);
    if schema.Some? {
      NothingBehindRefusal(hs, w, 0, 2, s);
      if !Retryable(schema.value) {
        RefusalIsFinal(hs, w, 0, 2, s);
        assert Entered(s.log) + Span(0, 3) == [0, 1, 2];
      }
    }
  }

  // ----- how a chain ends ---------------------------------------------------------------------

  /** What decided how an execution ended: the tool, a deadline, or a handler that caught a panic. */
  datatype Ending = Ran(result: ToolResult) | TimedOut | Caught

  /** The last of these the log tells of. The tool's results are those of the outside, at the times it was
      executed; a deadline counts if it had fired by the time its handler left. */
  function EndingOf(hs: seq<Handler>, w: World, log: Log): Option<Ending> {
    match log
    case Nothing => None
    case Then(before, Executed(_)) => Some(Ran(w.tool(before.Length())))
    case Then(before, Blocked(_)) => Some(Caught)
    case Then(before, Leave(at)) =>
      if at < |hs| && hs[at].Deadline? && w.fires(before.Length()) then Some(TimedOut) else EndingOf(hs, w, before)
    case Then(before, _) => EndingOf(hs, w, before)
  }

  /** The error, the output and the panic an ending leaves. */
  predicate Leaves(end: Option<Ending>, r: State) {
    match end
    case Some(Ran(Done(o))) => r.err == None && r.out == Some(o) && !r.panicking
    case Some(Ran(Failed(f, o))) => r.err == Some(f) && r.out == Some(o) && !r.panicking
    case Some(Ran(Panics)) => r.panicking
    case Some(TimedOut) => r.err == Some(Timeout) && r.out == None && !r.panicking
    case Some(Caught) => r.err == Some(Panicked) && r.out == None && !r.panicking
    case None => false
  }

  /** The tool is the last handler, and nothing before it refuses. */
  predicate EndsAtTool(hs: seq<Handler>, i: nat) { hs != [] && ReachesTool(hs, i, |hs| - 1) }

  /** However a chain is built, with any deadlines and nested retries: what it ends with is what the last
      execution of its tool ended with, unless a deadline fired or a panic was caught after it. */
  lemma {:induction false} ChainEndsAs(hs: seq<Handler>, w: World, i: nat, s: State)
    requires EndsAtTool(hs, i) && s.err == None && !s.panicking
    ensures var r := Pass(hs, w, i, s); Leaves(EndingOf(hs, w, r.log), r)
    decreases |hs| - i, 1, 0
  {
    var e := s.Note(Enter(i));
    if i < |hs| - 1 {
      if Active(hs[i]) {
        AttemptsEndAs(hs, w, i, 1, Cap(hs[i].attempts), e);
      } else {
        ChainEndsAs(hs, w, i + 1, e);
      }
    }
  }

  lemma {:induction false} AttemptsEndAs(hs: seq<Handler>, w: World, r: nat, n: int, cap: int, s: State)
    requires r < |hs| - 1 && EndsAtTool(hs, r + 1) && !s.panicking
    ensures var x := Attempts(hs, w, r, n, cap, s); Leaves(EndingOf(hs, w, x.log), x)
    decreases |hs| - r, 0, cap - n
  {
    var first := s.(err := None, out := None).Note(Attempt(r, n));
    var x := Pass(hs, w, r + 1, first);
    ChainEndsAs(hs, w, r + 1, first);
    if Again(w, n, cap, x) { AttemptsEndAs(hs, w, r, n + 1, cap, x); }
  }

  /** Without a deadline: the error is the fault of the tool's last execution, and there is none if that was
      done; a panic is caught if any handler before the tool recovers. */
  lemma {:induction false} ToolDecides(hs: seq<Handler>, w: World, i: nat, s: State)
    requires EndsAtTool(hs, i) && s.err == None && !s.panicking && forall k :: i <= k < |hs| ==> !hs[k].Deadline?
    ensures var r := Pass(hs, w, i, s); EndingOf(hs, w, r.log) != Some(TimedOut) && Leaves(EndingOf(hs, w, r.log), r)
  {
    ChainEndsAs(hs, w, i, s);
    NoTimeout(hs, w, i, s);
  }

  lemma {:induction false} NoTimeout(hs: seq<Handler>, w: World, i: nat, s: State)
    requires EndsAtTool(hs, i) && !s.panicking && forall k :: i <= k < |hs| ==> !hs[k].Deadline?
    ensures EndingOf(hs, w, Pass(hs, w, i, s).log) != Some(TimedOut)
    decreases |hs| - i, 1, 0
  {
    var e := s.Note(Enter(i));
    if i < |hs| - 1 {
      if Active(hs[i]) {
        AttemptsNoTimeout(hs, w, i, 1, Cap(hs[i].attempts), e);
      } else {
        NoTimeout(hs, w, i + 1, e);
      }
    }
  }

  lemma {:induction false} AttemptsNoTimeout(hs: seq<Handler>, w: World, r: nat, n: int, cap: int, s: State)
    requires r < |hs| - 1 && EndsAtTool(hs, r + 1) && !s.panicking && forall k :: r <= k < |hs| ==> !hs[k].Deadline?
    ensures EndingOf(hs, w, Attempts(hs, w, r, n, cap, s).log) != Some(TimedOut)
    decreases |hs| - r, 0, cap - n
  {
    var first := s.(err := None, out := None).Note(Attempt(r, n));
    var x := Pass(hs, w, r + 1, first);
    NoTimeout(hs, w, r + 1, first);
    if Again(w, n, cap, x) { AttemptsNoTimeout(hs, w, r, n + 1, cap, x); }
  }

  /** What a deadline makes of what it wraps: a timeout without output exactly if it has fired by then, and nothing
      else otherwise; a panic passes through. */
  lemma {:induction false} DeadlineDecides(hs: seq<Handler>, w: World, i: nat, s: State)
    requires i < |hs| && hs[i].Deadline?
    ensures var x, r := Pass(hs, w, i + 1, s.Note(Enter(i))), Pass(hs, w, i, s);
      && (x.panicking ==> r == x)
      && (!x.panicking && w.fires(x.log.Length()) ==> r == State(Then(x.log, Leave(i)), Some(Timeout), None, false))
      && (!x.panicking && !w.fires(x.log.Length()) ==> r == State(Then(x.log, Leave(i)), x.err, x.out, false))
  {}

  // ----- exactly how often --------------------------------------------------------------------

  /** Faults of the tool runtime and timeouts may pass; no other fault does. */
  predicate MayPass(f: Fault) { f == Runtime || f == Timeout }

  /** The handlers from `i` to `t` retry nothing. */
  predicate Unretried(hs: seq<Handler>, i: nat, t: nat) {
    t <= |hs| && forall k :: i <= k < t && hs[k].Retry? ==> hs[k].attempts < 2 || !hs[k].listed
  }

  lemma {:induction false} OncePerPass(hs: seq<Handler>, w: World, i: nat, s: State)
    requires EndsAtTool(hs, i) && Unretried(hs, i, |hs| - 1)
    ensures Runs(Pass(hs, w, i, s).log) == Runs(s.log) + 1
    decreases |hs| - i
  {
    if i < |hs| - 1 { OncePerPass(hs, w, i + 1, s.Note(Enter(i))); }
  }

  /** The tool fails every time in a way that may pass, and no wait is cut short. */
  ghost predicate AlwaysFailing(w: World) {
    && (forall n :: w.tool(n).Failed? && MayPass(w.tool(n).fault))
    && forall n :: w.waits(n)
  }

  lemma {:induction false} FailingPass(hs: seq<Handler>, w: World, i: nat, s: State)
    requires EndsAtTool(hs, i) && Unretried(hs, i, |hs| - 1) && !s.panicking && AlwaysFailing(w)
    ensures var r := Pass(hs, w, i, s); !r.panicking && r.err.Some? && MayPass(r.err.value)
    decreases |hs| - i
  {
    if i < |hs| - 1 { FailingPass(hs, w, i + 1, s.Note(Enter(i))); }
  }

  lemma {:induction false} FailingAttempts(hs: seq<Handler>, w: World, r: nat, n: int, cap: int, s: State)
    requires r < |hs| - 1 && EndsAtTool(hs, r + 1) && Unretried(hs, r + 1, |hs| - 1) && !s.panicking
    requires AlwaysFailing(w) && 1 <= n <= cap
    ensures Runs(Attempts(hs, w, r, n, cap, s).log) == Runs(s.log) + (cap - n + 1)
    decreases cap - n
  {
    var first := s.(err := None, out := None).Note(Attempt(r, n));
    var x := Pass(hs, w, r + 1, first);
    OncePerPass(hs, w, r + 1, first);
    FailingPass(hs, w, r + 1, first);
    if n < cap { FailingAttempts(hs, w, r, n + 1, cap, x); }
  }

  /** A tool that keeps failing in a way that may pass is executed as often as its one retry allows: as many
      times as there are attempts, at most five. */
  lemma {:induction false} RunsEveryAttempt(hs: seq<Handler>, w: World, i: nat, r: nat, s: State)
    requires i <= r < |hs| - 1 && EndsAtTool(hs, i) && Unretried(hs, i, r) && Unretried(hs, r + 1, |hs| - 1)
    requires hs[r].Retry? && hs[r].attempts >= 2 && hs[r].listed && AlwaysFailing(w) && !s.panicking
    ensures Runs(Pass(hs, w, i, s).log) == Runs(s.log) + if hs[r].attempts < 5 then hs[r].attempts else 5
    decreases r - i
  {
    var e := s.Note(Enter(i));
    if i == r {
      FailingAttempts(hs, w, r, 1, Cap(hs[r].attempts), e);
    } else {
      RunsEveryAttempt(hs, w, i + 1, r, e);
    }
  }

  /** No execution ends in a way that may pass. */
  ghost predicate NeverPassing(w: World) {
    && (forall n :: w.tool(n).Failed? ==> !MayPass(w.tool(n).fault))
    && forall n :: !w.fires(n)
  }

  predicate Final(r: State) { r.err.Some? ==> !MayPass(r.err.value) }

  /** A tool that is done, panics, or fails for good is executed exactly once, whatever retries there are. */
  lemma {:induction false} RunsOnce(hs: seq<Handler>, w: World, i: nat, s: State)
    requires EndsAtTool(hs, i) && NeverPassing(w) && Final(s)
    ensures var r := Pass(hs, w, i, s); Runs(r.log) == Runs(s.log) + 1 && Final(r)
    decreases |hs| - i, 1, 0
  {
    var e := s.Note(Enter(i));
    if i < |hs| - 1 {
      if Active(hs[i]) {
        RunsOnce(hs, w, i + 1, e.(err := None, out := None).Note(Attempt(i, 1)));
      } else {
        RunsOnce(hs, w, i + 1, e);
      }
    }
  }

  // ----- waits and times ----------------------------------------------------------------------

  /** Every attempt after a first one was waited for undisturbed. */
  predicate WaitedFor(w: World, log: Log) {
    match log
    case Nothing => true
    case Then(before, Attempt(_, n)) => (n > 1 ==> w.waits(before.Length())) && WaitedFor(w, before)
    case Then(before, _) => WaitedFor(w, before)
  }

  /** Whatever the chain: no attempt follows a wait that was cut short. */
  lemma {:induction false} EveryRetryWaited(hs: seq<Handler>, w: World, i: nat, s: State)
    requires WaitedFor(w, s.log)
    ensures WaitedFor(w, Pass(hs, w, i, s).log)
    decreases |hs| - i, 1, 0
  {
    if i < |hs| {
      var e := s.Note(Enter(i));
      match hs[i]
      case Retry(attempts, _) =>
        if Active(hs[i]) { EveryAttemptWaited(hs, w, i, 1, Cap(attempts), e); } else { EveryRetryWaited(hs, w, i + 1, e); }
      case Terminal =>
        var x := e.Note(Executed(i));
        match w.tool(e.Time()) {
          case Done(o) => EveryRetryWaited(hs, w, i + 1, x.(out := Some(o)));
          case Failed(f, o) => EveryRetryWaited(hs, w, i + 1, x.(err := Some(f), out := Some(o)));
          case Panics =>
        }
      case _ => EveryRetryWaited(hs, w, i + 1, e);
    }
  }

  lemma {:induction false} EveryAttemptWaited(hs: seq<Handler>, w: World, r: nat, n: int, cap: int, s: State)
    requires r < |hs| && WaitedFor(w, s.log) && (n > 1 ==> w.waits(s.log.Length()))
    ensures WaitedFor(w, Attempts(hs, w, r, n, cap, s).log)
    decreases |hs| - r, 0, cap - n
  {
    var first := s.(err := None, out := None).Note(Attempt(r, n));
    var x := Pass(hs, w, r + 1, first);
    EveryRetryWaited(hs, w, r + 1, first);
    if Again(w, n, cap, x) { EveryAttemptWaited(hs, w, r, n + 1, cap, x); }
  }

  predicate Earlier(p: Log, q: Log) { q.Then? && (p == q.before || Earlier(p, q.before)) }

  /** The outside is asked anew every time: what is entered later has a later time. */
  lemma {:induction false} TimesGrow(p: Log, q: Log)
    requires Earlier(p, q)
    ensures p.Length() < q.Length()
  {
    if p != q.before { TimesGrow(p, q.before); }
  }
}
