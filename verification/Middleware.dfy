/** The handler chain around one tool execution: an index that every handler may move
    (pi/middleware), against nested composition. */
module Middleware {
  import opened Common

  datatype Fault = Runtime | Timeout | Panicked | Denied | InvalidArguments | Other(code: int)

  predicate Retryable(f: Fault) { f.Runtime? || f.Timeout? }

  const MAX_RETRY_ATTEMPTS: int := 5

  /** `Around` calls Next and finishes its own work (Tracing, Logging, EventForwarding); `Plain` returns
      without calling Next. `Retry` knows whether this tool is on its list. */
  datatype Handler =
    | Around
    | Plain
    | Recover
    | Check(refusal: Option<Fault>)
    | Deadline
    | Retry(attempts: int, listed: bool)
    | Terminal

  /** A tool that ends leaves an output, also when it fails. */
  datatype ToolResult = Done(output: nat) | Failed(fault: Fault, output: nat) | Panics

  /** What the outside decides, by the length of the log so far: how the tool ends, whether a deadline
      has fired, whether a wait for the next attempt runs out undisturbed. */
  datatype World = World(tool: nat -> ToolResult, fires: nat -> bool, waits: nat -> bool)

  datatype Entry = Enter(at: nat) | Leave(at: nat) | Blocked(at: nat) | Attempt(at: nat, n: int) | Executed(at: nat)

  datatype Log = Nothing | Then(before: Log, entry: Entry)
  {
    function Length(): nat { if Nothing? then 0 else before.Length() + 1 }
  }

  /** `out` is the output so far, None while there is none. */
  datatype State = State(log: Log, err: Option<Fault>, out: Option<nat>, panicking: bool)
  {
    function Note(e: Entry): State { this.(log := Then(log, e)) }

    function Time(): nat { log.Length() }
  }

  function Cap(attempts: int): int { if attempts > MAX_RETRY_ATTEMPTS then MAX_RETRY_ATTEMPTS else attempts }

  predicate Active(h: Handler) { h.Retry? && h.attempts >= 2 && h.listed }

  /** A handler that called Next is done: unless the tool panicked, it finishes its own work. */
  function Finish(s: State, i: nat): State { if s.panicking then s else s.Note(Leave(i)) }

  /** The handlers from `i` on, each nested in the one before it. */
  function Pass(hs: seq<Handler>, w: World, i: nat, s: State): State
    decreases |hs| - i, 1, 0
  {
    if i >= |hs| then s
    else
      var e := s.Note(Enter(i));
      match hs[i]
      case Plain => Pass(hs, w, i + 1, e)
      case Around => Finish(Pass(hs, w, i + 1, e), i)
      case Recover =>
        var r := Pass(hs, w, i + 1, e);
        if r.panicking then State(Then(r.log, Blocked(i)), Some(Panicked), None, false) else r.Note(Leave(i))
      case Check(refusal) =>
        if refusal.Some? then State(Then(e.log, Blocked(i)), refusal, None, false) else Finish(Pass(hs, w, i + 1, e), i)
      case Deadline =>
        var r := Pass(hs, w, i + 1, e);
        if !r.panicking && w.fires(r.Time()) then r.(err := Some(Timeout), out := None).Note(Leave(i)) else Finish(r, i)
      case Retry(attempts, listed) =>
        if Active(hs[i]) then Finish(Attempts(hs, w, i, 1, Cap(attempts), e), i) else Finish(Pass(hs, w, i + 1, e), i)
      case Terminal =>
        var x := e.Note(Executed(i));
        match w.tool(e.Time())
        case Done(o) => Pass(hs, w, i + 1, x.(out := Some(o)))
        case Failed(f, o) => Pass(hs, w, i + 1, x.(err := Some(f), out := Some(o)))
        case Panics => x.(panicking := true)
  }

  predicate Again(w: World, n: int, cap: int, r: State) {
    !r.panicking && r.err.Some? && n < cap && Retryable(r.err.value) && w.waits(r.Time())
  }

  /** Attempt `n` and those after it: each runs the whole suffix behind the retry, from a clean state. */
  function Attempts(hs: seq<Handler>, w: World, i: nat, n: int, cap: int, s: State): State
    requires i < |hs|
    decreases |hs| - i, 0, cap - n
  {
    var r := Pass(hs, w, i + 1, s.(err := None, out := None).Note(Attempt(i, n)));
    if Again(w, n, cap, r) then Attempts(hs, w, i, n + 1, cap, r) else r
  }

  // ----- the index machine --------------------------------------------------------------------

  class Execution {
    const handlers: seq<Handler>
    const world: World
    var index: int
    var err: Option<Fault>
    var out: Option<nat>
    var log: Log

    constructor (handlers: seq<Handler>, world: World)
      ensures this.handlers == handlers && this.world == world && err == None && out == None && log == Nothing
    {
      this.handlers, this.world := handlers, world;
      index, err, out, log := -1, None, None, Nothing;
    }

    ghost function View(panicking: bool): State
      reads this
    {
      State(log, err, out, panicking)
    }

    /** Everything behind position `i` has run, or the panic is on its way out. */
    twostate predicate Passed(i: nat, panicked: bool)
      reads this
    {
      && View(panicked) == Pass(handlers, world, i, old(View(false)))
      && (!panicked ==> index >= |handlers|)
    }

    method Run() returns (panicked: bool)
      requires err == None && out == None && log == Nothing
      modifies this
      ensures View(panicked) == Pass(handlers, world, 0, State(Nothing, None, None, false))
    {
      index := -1;
      panicked := Next();
    }

    method Next() returns (panicked: bool)
      requires -1 <= index < |handlers|
      modifies this
      ensures Passed(old(index) + 1, panicked)
      decreases |handlers| - index, 0
    {
      ghost var goal := Pass(handlers, world, index + 1, View(false));
      ghost var entered := index;
      index := index + 1;
      while index < |handlers|
        invariant entered < index
        invariant if index < |handlers| then Pass(handlers, world, index, View(false)) == goal else View(false) == goal
        decreases |handlers| - index
      {
        panicked := Handle();
        if panicked { return; }
        index := index + 1;
      }
      panicked := false;
    }

    method Block(fault: Fault)
      modifies this
      ensures index == |handlers| && err == Some(fault) && log == old(log) && out == old(out)
    {
      err := Some(fault);
      index := |handlers|;
    }

    method Note(e: Entry)
      modifies `log
      ensures log == Then(old(log), e)
    {
      log := Then(log, e);
    }

    /** The handler at the index. It leaves the index behind the chain, or in place if it did not call
        Next; then the loop that called it goes on with its successor. */
    method Handle() returns (panicked: bool)
      requires 0 <= index < |handlers|
      modifies this
      ensures Passed(old(index), panicked)
        || (!panicked && index == old(index)
            && Pass(handlers, world, index + 1, View(false)) == Pass(handlers, world, index, old(View(false))))
      decreases |handlers| - index, 2
    {
      var i := index;
      Note(Enter(i));
      match handlers[i]
      case Plain => panicked := false;
      case Around =>
        panicked := Next();
        if !panicked { Note(Leave(i)); }
      case Recover =>
        panicked := Next();
        if panicked {
          out := None;
          Block(Panicked);
          Note(Blocked(i));
          panicked := false;
        } else {
          Note(Leave(i));
        }
      case Check(refusal) =>
        if refusal.Some? {
          out := None;
          Block(refusal.value);
          Note(Blocked(i));
          panicked := false;
        } else {
          panicked := Next();
          if !panicked { Note(Leave(i)); }
        }
      case Deadline =>
        panicked := Next();
        if !panicked {
          if world.fires(log.Length()) { err, out := Some(Timeout), None; }
          Note(Leave(i));
        }
      case Retry(attempts, listed) =>
        if attempts < 2 || !listed {
          panicked := Next();
        } else {
          panicked := RetrySuffix(Cap(attempts));
        }
        if !panicked { Note(Leave(i)); }
      case Terminal =>
        var result := world.tool(log.Length());
        Note(Executed(i));
        panicked := result.Panics?;
        if !panicked {
          out := Some(result.output);
          if result.Failed? { err := Some(result.fault); }
        }
    }

    /** The attempt loop: the index is set back to the retry's own position before every pass. */
    method RetrySuffix(cap: int) returns (panicked: bool)
      requires 0 <= index < |handlers| && cap >= 2
      modifies this
      ensures View(panicked) == Attempts(handlers, world, old(index), 1, cap, old(View(false)))
      ensures !panicked ==> index >= |handlers|
      decreases |handlers| - index, 1
    {
      var start, attempt := index, 1;
      ghost var goal := Attempts(handlers, world, start, 1, cap, View(false));
      while true
        invariant 1 <= attempt <= cap
        invariant Attempts(handlers, world, start, attempt, cap, View(false)) == goal
        decreases cap - attempt
      {
        index := start;
        err, out := None, None;
        Note(Attempt(start, attempt));
        panicked := Next();
        if panicked || err.None? || attempt >= cap || !Retryable(err.value) { return; }
        if !world.waits(log.Length()) { return; }
        attempt := attempt + 1;
      }
    }
  }
}
