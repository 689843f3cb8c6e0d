/** A conversation over a whole run: appended batches, pruning and compactions in any order
    (pi/compaction.go, pi/harness). */
module ConversationRuns {
  import opened Messages
  import opened Compaction
  import opened CompactionProofs
  import opened Prune
  import opened ToolGroups

  /** The stretch of the full history one message of the list stands for. */
  datatype Cell = Cell(from: nat, to: nat, summary: bool)

  /** `log` is everything ever said; `cells` tells what each message of the list stands for. */
  datatype Convo = Convo(ms: seq<Message>, st: Marks, log: seq<Message>, cells: seq<Cell>)

  datatype Event = Append(batch: seq<Message>) | Prune(opts: PruneOptions) | Compact(retain: int, summary: string)

  function Fresh(from: nat, n: nat): seq<Cell> {
    seq(n, i requires 0 <= i < n => Cell(from + i, from + i + 1, false))
  }

  function Start(ms: seq<Message>, input: nat): Convo { Convo(ms, Marks(input, []), ms, Fresh(0, |ms|)) }

  function PlanOf(mt: Meter, c: Convo, retain: int): Planned { BuildPlan(mt, c.ms, c.st, PlanOptions(0, retain, 0)) }

  /** A summary is taken over only if it can be applied and is smaller than what it replaces. */
  predicate Accepted(mt: Meter, c: Convo, retain: int, summary: string) {
    && PlanOf(mt, c, retain).Range?
    && ApplySummary(c.ms, PlanOf(mt, c, retain).plan, summary, c.st).Done?
    && Visible(mt, [Checkpoint(summary)]) < Visible(mt, PlanOf(mt, c, retain).plan.messages)
  }

  function Merge(cells: seq<Cell>, start: nat, end: nat): seq<Cell>
    requires start < end <= |cells|
  {
    Splice(cells, start, end, Cell(cells[start].from, cells[end - 1].to, true))
  }

  function Step(mt: Meter, c: Convo, e: Event): (n: Convo)
    requires |c.cells| == |c.ms|
    ensures |n.cells| == |n.ms|
  {
    match e
    case Append(b) => Convo(c.ms + b, c.st, c.log + b, c.cells + Fresh(|c.log|, |b|))
    case Prune(o) => c.(ms := Pruned(mt, o, c.ms))
    case Compact(retain, summary) =>
      if !Accepted(mt, c, retain, summary) then c
      else
        var plan := PlanOf(mt, c, retain).plan;
        var done := ApplySummary(c.ms, plan, summary, c.st);
        Convo(done.messages, done.marks, c.log, Merge(c.cells, plan.start, plan.end))
  }

  datatype Run = Begin | Then(before: Run, event: Event)

  /** Every appended batch is closed. */
  predicate AppendsClosed(r: Run) {
    r.Then? ==> AppendsClosed(r.before) && (r.event.Append? ==> ClosedBatch(r.event.batch))
  }

  function After(mt: Meter, c0: Convo, r: Run): (c: Convo)
    requires |c0.cells| == |c0.ms|
    ensures |c.cells| == |c.ms|
  {
    if r.Begin? then c0 else Step(mt, After(mt, c0, r.before), r.event)
  }

  // ----- the invariant ------------------------------------------------------------------------

  /** The cells tile the history, in order and without gaps. */
  predicate Tiles(cells: seq<Cell>, n: nat) {
    && cells != [] && cells[0].from == 0 && cells[|cells| - 1].to == n
    && (forall i :: 0 <= i < |cells| ==> cells[i].from < cells[i].to)
    && (forall i :: 0 < i < |cells| ==> cells[i].from == cells[i - 1].to)
  }

  predicate Same(a: Message, b: Message) { a.(content := []) == b.(content := []) && (a.role != Tool ==> a == b) }

  /** A message stands for one message of the history, or is a checkpoint for several. */
  predicate Stands(m: Message, cell: Cell, log: seq<Message>) {
    if cell.summary then IsCheckpoint(m) else cell.to == cell.from + 1 && cell.from < |log| && Same(m, log[cell.from])
  }

  predicate Faithful(c: Convo) {
    |c.cells| == |c.ms| && Tiles(c.cells, |c.log|) && forall i :: 0 <= i < |c.ms| ==> Stands(c.ms[i], c.cells[i], c.log)
  }

  predicate Increasing(s: seq<int>) { forall i, j :: 0 <= i < j < |s| ==> s[i] < s[j] }

  ghost predicate Marked(c: Convo) {
    && Increasing(c.st.checkpoints)
    && (forall x :: x in c.st.checkpoints <==> 0 <= x < |c.cells| && c.cells[x].summary)
  }

  predicate InputKept(c: Convo, input: nat) {
    && input < |c.log| && c.log[input].role == User
    && 0 <= c.st.input < |c.cells| && c.cells[c.st.input] == Cell(input, input + 1, false)
  }

  predicate SystemKept(c: Convo) {
    var n := SystemPrefix(c.log);
    n < |c.cells| && SystemPrefix(c.ms) == n && forall k :: 0 <= k < n ==> c.cells[k] == Cell(k, k + 1, false)
  }

  ghost predicate Inv(c: Convo, input: nat) { Faithful(c) && Marked(c) && InputKept(c, input) && SystemKept(c) }

  // ----- checkpoint indexes -------------------------------------------------------------------

  lemma {:induction false} InsertIn(s: seq<int>, x: int, y: int)
    ensures y in Insert(s, x) <==> y == x || y in s
  {
    if s != [] && x > s[0] {
      InsertIn(s[1..], x, y);
      assert y in s <==> y == s[0] || y in s[1..];
    }
  }

  lemma {:induction false} InsertIncreasing(s: seq<int>, x: int)
    requires Increasing(s) && x !in s
    ensures Increasing(Insert(s, x))
  {
    if s != [] && x > s[0] {
      InsertIncreasing(s[1..], x);
      var t := Insert(s[1..], x);
      forall j | 0 <= j < |t| ensures s[0] < t[j] {
        InsertIn(s[1..], x, t[j]);
      }
    }
  }

  predicate NoDup(s: seq<int>) { s == [] || (s[0] !in s[1..] && NoDup(s[1..])) }

  lemma {:induction false} SortIn(s: seq<int>, y: int)
    ensures y in Sort(s) <==> y in s
  {
    if s != [] {
      SortIn(s[1..], y);
      InsertIn(Sort(s[1..]), s[0], y);
    }
  }

  lemma {:induction false} SortIncreasing(s: seq<int>)
    requires NoDup(s)
    ensures Increasing(Sort(s))
  {
    if s != [] {
      SortIncreasing(s[1..]);
      SortIn(s[1..], s[0]);
      InsertIncreasing(Sort(s[1..]), s[0]);
    }
  }

  lemma {:induction false} ShiftedIn(cps: seq<int>, start: int, end: int, y: int)
    requires start < end
    ensures y in Shifted(cps, start, end) <==>
      if y < start then y in cps else if y == start then false else y + (end - start - 1) in cps
  {
    if cps != [] { ShiftedIn(cps[1..], start, end, y); }
  }

  lemma {:induction false} ShiftedNoDup(cps: seq<int>, start: int, end: int)
    requires start < end && Increasing(cps)
    ensures NoDup(Shifted(cps, start, end))
  {
    if cps != [] {
      ShiftedNoDup(cps[1..], start, end);
      var y := if cps[0] >= end then cps[0] - (end - start - 1) else cps[0];
      ShiftedIn(cps[1..], start, end, y);
      assert Shifted(cps, start, end) != Shifted(cps[1..], start, end) ==>
        Shifted(cps, start, end)[1..] == Shifted(cps[1..], start, end);
    }
  }

  lemma {:induction false} NoDupAppend(s: seq<int>, x: int)
    requires NoDup(s) && x !in s
    ensures NoDup(s + [x])
  {
    if s != [] {
      NoDupAppend(s[1..], x);
      assert (s + [x])[1..] == s[1..] + [x];
    }
  }

  lemma MovedIncreasing(st: Marks, start: int, end: int)
    requires start < end && Increasing(st.checkpoints)
    ensures Increasing(Moved(st, start, end).checkpoints)
  {
    var sh := Shifted(st.checkpoints, start, end);
    ShiftedNoDup(st.checkpoints, start, end);
    ShiftedIn(st.checkpoints, start, end, start);
    NoDupAppend(sh, start);
    SortIncreasing(sh + [start]);
  }

  /** The moved checkpoint indexes name the new checkpoint and, where they now stand, the old ones
      outside the range. */
  lemma MovedNames(st: Marks, start: int, end: int, y: int)
    requires start < end
    ensures y in Moved(st, start, end).checkpoints <==>
      if y < start then y in st.checkpoints else y == start || y + (end - start - 1) in st.checkpoints
  {
    SortIn(Shifted(st.checkpoints, start, end) + [start], y);
    ShiftedIn(st.checkpoints, start, end, y);
  }

  // ----- every event keeps the invariant ------------------------------------------------------

  lemma {:induction false} SystemPrefixIs(ms: seq<Message>, n: nat)
    requires n < |ms| && ms[n].role != System && forall k :: 0 <= k < n ==> ms[k].role == System
    ensures SystemPrefix(ms) == n
  {
    if n > 0 { SystemPrefixIs(ms[1..], n - 1); }
  }

  lemma StartInv(ms: seq<Message>, input: nat)
    requires input < |ms| && ms[input].role == User
    ensures Inv(Start(ms, input), input)
  {}

  lemma AppendTiles(cells: seq<Cell>, n: nat, k: nat)
    requires Tiles(cells, n)
    ensures Tiles(cells + Fresh(n, k), n + k)
  {
    var t := cells + Fresh(n, k);
    forall i | 0 < i < |t| ensures t[i].from == t[i - 1].to {
      if i == |cells| { assert t[i] == Fresh(n, k)[0]; }
    }
  }

  lemma AppendFaithful(c: Convo, b: seq<Message>)
    requires Faithful(c)
    ensures Faithful(Convo(c.ms + b, c.st, c.log + b, c.cells + Fresh(|c.log|, |b|)))
  {
    AppendTiles(c.cells, |c.log|, |b|);
    forall i | 0 <= i < |c.ms| ensures Stands(c.ms[i], c.cells[i], c.log + b) {
      assert Stands(c.ms[i], c.cells[i], c.log);
    }
  }

  lemma AppendInv(mt: Meter, c: Convo, b: seq<Message>, input: nat)
    requires Inv(c, input)
    ensures Inv(Step(mt, c, Append(b)), input)
  {
    AppendFaithful(c, b);
    assert SystemPrefix(c.log) <= input;
    SystemLog(c, b);
  }

  /** The system block ends where it did, whatever is appended: the input lies behind it. */
  lemma {:induction false} SystemLog(c: Convo, b: seq<Message>)
    requires Faithful(c) && SystemKept(c) && SystemPrefix(c.log) < |c.log|
    ensures SystemPrefix(c.log + b) == SystemPrefix(c.log)
    ensures SystemPrefix(c.ms + b) == SystemPrefix(c.ms)
  {
    SystemPrefixIs(c.log + b, SystemPrefix(c.log));
    SystemPrefixIs(c.ms + b, SystemPrefix(c.ms));
  }

  lemma PruneInv(mt: Meter, c: Convo, o: PruneOptions, input: nat)
    requires Inv(c, input)
    ensures Inv(Step(mt, c, Event.Prune(o)), input)
  {
    var n := Step(mt, c, Event.Prune(o));
    PrunedShape(mt, o, c.ms);
    forall i | 0 <= i < |n.ms| ensures Stands(n.ms[i], n.cells[i], n.log) {
      assert Stands(c.ms[i], c.cells[i], c.log);
      assert c.ms[i].(content := []) == n.ms[i].(content := []);
    }
    SystemPrefixIs(n.ms, SystemPrefix(c.ms));
  }

  lemma MergeTiles(cells: seq<Cell>, n: nat, start: nat, end: nat)
    requires Tiles(cells, n) && start < end <= |cells|
    ensures Tiles(Merge(cells, start, end), n)
  {
    var t := Merge(cells, start, end);
    CellsAscend(cells, n, start, end - 1);
    forall i | 0 <= i < |t| ensures t[i].from < t[i].to && (i > 0 ==> t[i].from == t[i - 1].to) {
      if i > start { assert t[i] == cells[i + (end - start - 1)]; }
    }
    if end == |cells| { assert t[|t| - 1] == t[start]; }
  }

  lemma {:induction false} CellsAscend(cells: seq<Cell>, n: nat, i: nat, j: nat)
    requires Tiles(cells, n) && i <= j < |cells|
    ensures cells[i].from < cells[j].to
    decreases j - i
  {
    if i < j { CellsAscend(cells, n, i, j - 1); }
  }

  lemma MergeFaithful(c: Convo, st: Marks, start: nat, end: nat, m: Message)
    requires Faithful(c) && start < end <= |c.ms| && IsCheckpoint(m)
    ensures Faithful(Convo(Splice(c.ms, start, end, m), st, c.log, Merge(c.cells, start, end)))
  {
    MergeTiles(c.cells, |c.log|, start, end);
    var ms, cells := Splice(c.ms, start, end, m), Merge(c.cells, start, end);
    forall i | 0 <= i < |ms| ensures Stands(ms[i], cells[i], c.log) {
      var j := if i <= start then i else i + (end - start - 1);
      assert Stands(c.ms[j], c.cells[j], c.log);
    }
  }

  lemma MergeMarked(c: Convo, ms: seq<Message>, start: nat, end: nat)
    requires Marked(c) && start < end <= |c.cells|
    ensures Marked(Convo(ms, Moved(c.st, start, end), c.log, Merge(c.cells, start, end)))
  {
    MovedIncreasing(c.st, start, end);
    var cells := Merge(c.cells, start, end);
    forall x ensures x in Moved(c.st, start, end).checkpoints <==> 0 <= x < |cells| && cells[x].summary {
      MovedNames(c.st, start, end, x);
    }
  }

  lemma MergeInv(c: Convo, start: nat, end: nat, m: Message, input: nat)
    requires Inv(c, input) && IsCheckpoint(m)
    requires start < end <= |c.ms| && SystemPrefix(c.ms) <= start && !(start <= c.st.input < end)
    ensures Inv(Convo(Splice(c.ms, start, end, m), Moved(c.st, start, end), c.log, Merge(c.cells, start, end)), input)
  {
    MergeFaithful(c, Moved(c.st, start, end), start, end, m);
    MergeMarked(c, Splice(c.ms, start, end, m), start, end);
    MergeInput(c, start, end, input);
    MergeSystem(c, start, end, m);
  }

  lemma MergeInput(c: Convo, start: nat, end: nat, input: nat)
    requires InputKept(c, input) && start < end <= |c.cells| && !(start <= c.st.input < end)
    ensures var i := Moved(c.st, start, end).input;
      0 <= i < |Merge(c.cells, start, end)| && Merge(c.cells, start, end)[i] == c.cells[c.st.input]
  {}

  lemma MergeSystem(c: Convo, start: nat, end: nat, m: Message)
    requires SystemKept(c) && |c.cells| == |c.ms| && IsCheckpoint(m)
    requires start < end <= |c.ms| && SystemPrefix(c.ms) <= start
    ensures SystemKept(Convo(Splice(c.ms, start, end, m), Moved(c.st, start, end), c.log, Merge(c.cells, start, end)))
  {
    SystemPrefixIs(Splice(c.ms, start, end, m), SystemPrefix(c.ms));
  }

  /** An accepted compaction: where it cuts, in units. */
  lemma AcceptedPlan(mt: Meter, c: Convo, retain: int, summary: string) returns (a: nat, b: nat)
    requires |c.cells| == |c.ms| && Accepted(mt, c, retain, summary)
    ensures var plan := PlanOf(mt, c, retain).plan;
      && Respects(c.ms, plan, c.st.input, PlanOptions(0, retain, 0).WithDefaults().retain, a, b)
      && Step(mt, c, Compact(retain, summary)) ==
         Convo(Splice(c.ms, plan.start, plan.end, Checkpoint(summary)), Moved(c.st, plan.start, plan.end),
               c.log, Merge(c.cells, plan.start, plan.end))
  {
    a, b := PlanIsSound(mt, c.ms, c.st, PlanOptions(0, retain, 0));
  }

  lemma StepInv(mt: Meter, c: Convo, e: Event, input: nat)
    requires Inv(c, input)
    ensures Inv(Step(mt, c, e), input)
  {
    match e
    case Append(b) => AppendInv(mt, c, b, input);
    case Prune(o) => PruneInv(mt, c, o, input);
    case Compact(retain, summary) =>
      if Accepted(mt, c, retain, summary) {
        var a, b := AcceptedPlan(mt, c, retain, summary);
        var plan := PlanOf(mt, c, retain).plan;
        MergeInv(c, plan.start, plan.end, Checkpoint(summary), input);
      }
  }

  lemma StepGroups(mt: Meter, c: Convo, e: Event)
    requires |c.cells| == |c.ms| && (e.Append? ==> ClosedBatch(e.batch))
    ensures SameGroups(c.ms, Step(mt, c, e).ms)
  {
    match e
    case Append(b) => AppendGroups(c.ms, b);
    case Prune(o) => PruneGroups(mt, o, c.ms);
    case Compact(retain, summary) =>
      if Accepted(mt, c, retain, summary) {
        var a, b := AcceptedPlan(mt, c, retain, summary);
        SpliceGroups(c.ms, a, b, Checkpoint(summary));
      }
  }

  // ----- whole runs ---------------------------------------------------------------------------

  lemma {:induction false} EveryRunKeeps(mt: Meter, ms: seq<Message>, input: nat, r: Run)
    requires input < |ms| && ms[input].role == User && AppendsClosed(r)
    ensures var c := After(mt, Start(ms, input), r); Inv(c, input) && SameGroups(ms, c.ms)
  {
    StartInv(ms, input);
    if r.Then? {
      EveryRunKeeps(mt, ms, input, r.before);
      var c := After(mt, Start(ms, input), r.before);
      StepInv(mt, c, r.event, input);
      StepGroups(mt, c, r.event);
    }
  }

  /** Everything said in a run. */
  function Said(ms: seq<Message>, r: Run): seq<Message> {
    match r
    case Begin => ms
    case Then(before, Append(b)) => Said(ms, before) + b
    case Then(before, _) => Said(ms, before)
  }

  lemma {:induction false} LogIsSaid(mt: Meter, ms: seq<Message>, input: nat, r: Run)
    ensures After(mt, Start(ms, input), r).log == Said(ms, r)
  {
    if r.Then? { LogIsSaid(mt, ms, input, r.before); }
  }

  /** The input index finds the original input, the leading system block stands, and the
      checkpoint indexes are exactly the checkpoints, in order. */
  ghost predicate Safe(c: Convo, ms: seq<Message>, input: nat)
    requires input < |ms|
  {
    var n := SystemPrefix(ms);
    && |c.cells| == |c.ms|
    && 0 <= c.st.input < |c.ms| && c.ms[c.st.input] == ms[input]
    && n <= |c.ms| && c.ms[..n] == ms[..n] && SystemPrefix(c.ms) == n
    && Increasing(c.st.checkpoints)
    && (forall x :: x in c.st.checkpoints <==> 0 <= x < |c.ms| && c.cells[x].summary)
  }

  lemma InvIsSafe(c: Convo, ms: seq<Message>, input: nat)
    requires input < |ms| && ms <= c.log && Inv(c, input)
    ensures Safe(c, ms, input)
  {
    var n := SystemPrefix(c.log);
    assert n <= input;
    SystemPrefixIs(ms, n);
    assert Stands(c.ms[c.st.input], c.cells[c.st.input], c.log);
    forall k | 0 <= k < n ensures c.ms[k] == ms[k] {
      assert Stands(c.ms[k], c.cells[k], c.log);
    }
  }

  /** Whatever happens in a run, the conversation stays safe, and no open group is touched. */
  lemma {:induction false} EveryRunIsSafe(mt: Meter, ms: seq<Message>, input: nat, r: Run)
    requires input < |ms| && ms[input].role == User && AppendsClosed(r)
    ensures Safe(After(mt, Start(ms, input), r), ms, input)
    ensures SameGroups(ms, After(mt, Start(ms, input), r).ms)
  {
    EveryRunKeeps(mt, ms, input, r);
    LogIsSaid(mt, ms, input, r);
    SaidExtends(ms, r);
    InvIsSafe(After(mt, Start(ms, input), r), ms, input);
  }

  lemma {:induction false} SaidExtends(ms: seq<Message>, r: Run)
    ensures ms <= Said(ms, r)
  {
    if r.Then? { SaidExtends(ms, r.before); }
  }

  /** Message `k` of the list stands for word `p` of the history: as itself, up to pruned content,
      or within a checkpoint. */
  predicate Holds(c: Convo, k: int, p: nat)
    requires |c.cells| == |c.ms|
  {
    && 0 <= k < |c.ms| && p < |c.log|
    && c.cells[k].from <= p < c.cells[k].to
    && (if c.cells[k].summary then IsCheckpoint(c.ms[k]) else Same(c.ms[k], c.log[p]))
  }

  lemma OnePlace(c: Convo, p: nat) returns (k: nat)
    requires Faithful(c) && p < |c.log|
    ensures Holds(c, k, p) && forall j :: Holds(c, j, p) ==> j == k
  {
    k := CellOf(c.cells, |c.log|, p);
    assert Stands(c.ms[k], c.cells[k], c.log);
    forall j | Holds(c, j, p) ensures j == k {
      if j < k { CellsApart(c.cells, |c.log|, j, k); }
      if k < j { CellsApart(c.cells, |c.log|, k, j); }
    }
  }

  lemma InOrder(c: Convo, k: int, p: nat, l: int, q: nat)
    requires Faithful(c) && Holds(c, k, p) && Holds(c, l, q) && p <= q
    ensures k <= l
  {
    if l < k { CellsApart(c.cells, |c.log|, l, k); }
  }

  /** Nothing said in a run is lost, doubled or reordered. */
  lemma NothingIsLost(mt: Meter, ms: seq<Message>, input: nat, r: Run, p: nat) returns (k: nat)
    requires input < |ms| && ms[input].role == User && AppendsClosed(r) && p < |Said(ms, r)|
    ensures var c := After(mt, Start(ms, input), r);
      && c.log == Said(ms, r)
      && Holds(c, k, p)
      && (forall j :: Holds(c, j, p) ==> j == k)
      && (forall l, q: nat :: p <= q && Holds(c, l, q) ==> k <= l)
  {
    EveryRunKeeps(mt, ms, input, r);
    LogIsSaid(mt, ms, input, r);
    var c := After(mt, Start(ms, input), r);
    k := OnePlace(c, p);
    forall l, q: nat | p <= q && Holds(c, l, q) ensures k <= l { InOrder(c, k, p, l, q); }
  }

  lemma {:induction false} CellsApart(cells: seq<Cell>, n: nat, i: nat, j: nat)
    requires Tiles(cells, n) && i < j < |cells|
    ensures cells[i].to <= cells[j].from
    decreases j - i
  {
    if i + 1 < j { CellsApart(cells, n, i, j - 1); }
  }

  lemma CellOf(cells: seq<Cell>, n: nat, p: nat) returns (k: nat)
    requires Tiles(cells, n) && p < n
    ensures k < |cells| && cells[k].from <= p < cells[k].to
  {
    k := 0;
    while cells[k].to <= p
      invariant k < |cells| && cells[k].from <= p
      decreases |cells| - k
    {
      assert k + 1 < |cells|;
      k := k + 1;
    }
  }

  /** A splice changes the bytes of a list by the difference between what it puts in and what it takes out. */
  lemma {:induction false} SpliceBytes(mt: Meter, ms: seq<Message>, start: nat, end: nat, m: Message)
    requires start <= end <= |ms|
    ensures Total(mt, Splice(ms, start, end, m)) + Total(mt, ms[start..end]) == Total(mt, ms) + Total(mt, [m])
  {
    var x, y, z := ms[..start], ms[start..end], ms[end..];
    TotalAppend(mt, x + [m], z);
    TotalAppend(mt, x, [m]);
    assert ms == x + y + z;
    TotalAppend(mt, x + y, z);
    TotalAppend(mt, x, y);
  }

  /** What is put in is seen to be smaller than what is taken out, so it is smaller. */
  lemma {:induction false} SeenSmaller(mt: Meter, a: seq<Message>, b: seq<Message>)
    requires Visible(mt, a) < Visible(mt, b)
    ensures Total(mt, a) < Total(mt, b)
  {}

  /** Every accepted compaction strictly reduces the visible bytes of the list. */
  lemma {:induction false} CompactionShrinks(mt: Meter, c: Convo, retain: int, summary: string)
    requires |c.cells| == |c.ms| && Accepted(mt, c, retain, summary)
    ensures Total(mt, Step(mt, c, Compact(retain, summary)).ms) < Total(mt, c.ms)
    ensures Visible(mt, Step(mt, c, Compact(retain, summary)).ms) <= Visible(mt, c.ms)
  {
    var a, b := AcceptedPlan(mt, c, retain, summary);
    var plan := PlanOf(mt, c, retain).plan;
    SpliceBytes(mt, c.ms, plan.start, plan.end, Checkpoint(summary));
    SeenSmaller(mt, [Checkpoint(summary)], plan.messages);
  }
}
