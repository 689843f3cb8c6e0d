/** Planning, applying and pruning, as pi/harness does them: in place and step by step. */
module HarnessPlan {
  import opened Common
  import opened Messages
  import opened RangeSelection
  import opened Compaction
  import opened CompactionProofs
  import opened Prune
  import opened HarnessScan

  // ----- guards -------------------------------------------------------------------------------

  /** Units that follow one another without gaps. */
  ghost predicate Adjoining(us: seq<Unit>) {
    && (us != [] ==> us[0].start == 0)
    && (forall i, j :: 0 <= i < j < |us| && j == i + 1 ==> us[j].start == us[i].end)
  }

  lemma UnitsAdjoin(mt: Meter, ms: seq<Message>)
    ensures Adjoining(Units(mt, ms))
  {
    UnitsLaidOut(mt, ms);
    if ms != [] { UnitIs(mt, ms, 0); }
    forall i, j | 0 <= i < j < |Chunks(ms)| && j == i + 1 ensures Units(mt, ms)[j].start == Units(mt, ms)[i].end {
      UnitIs(mt, ms, i);
      UnitIs(mt, ms, j);
    }
  }

  /** A unit ends before every later one starts. */
  lemma {:induction false} UnitsAscend(us: seq<Unit>, ms: seq<Message>, i: nat, j: nat)
    requires Adjoining(us) && LaidOut(us, ms) && i < j < |us|
    ensures us[i].end <= us[j].start
    decreases j - i
  {
    if i + 1 < j { UnitsAscend(us, ms, i, j - 1); }
  }

  predicate GuardedBy(u: Unit, v: Unit, extra: bool) { v == u.(guarded := u.guarded || extra) }

  lemma LeadingPrefix(us: seq<Unit>, ms: seq<Message>, j: nat, k: nat)
    requires LaidOut(us, ms) && j <= k < |us|
    ensures Leading(us, ms, k) ==> Leading(us, ms, j)
  {}

  /** The block of single system messages the list begins with. */
  method MarkLeading(units: array<Unit>, messages: seq<Message>)
    requires LaidOut(units[..], messages) && Adjoining(units[..])
    modifies units
    ensures forall k :: 0 <= k < units.Length ==>
      GuardedBy(old(units[k]), units[k], Leading(old(units[..]), messages, k))
  {
    ghost var before := units[..];
    var position, index := 0, 0;
    while index < units.Length
      invariant index <= units.Length
      invariant position == if index == 0 then 0 else before[index - 1].end
      invariant forall k :: 0 <= k < index ==> Leading(before, messages, k) && GuardedBy(before[k], units[k], true)
      invariant forall k :: index <= k < units.Length ==> units[k] == before[k]
    {
      var unit := units[index];
      assert unit == before[index];
      if unit.start != position || unit.end - unit.start != 1 || messages[unit.start].role != System {
        break;
      }
      units[index] := unit.(guarded := true);
      position := unit.end;
      index := index + 1;
    }
    assert index < |before| ==> !Leading(before, messages, index);
    forall k | index <= k < units.Length ensures !Leading(before, messages, k) {
      LeadingPrefix(before, messages, index, k);
    }
  }

  /** The unit of the current input, if the list has one. */
  method MarkInput(units: array<Unit>, messages: seq<Message>, input: int) returns (inputUnit: int)
    requires LaidOut(units[..], messages) && Adjoining(units[..])
    modifies units
    ensures forall k :: 0 <= k < units.Length ==>
      GuardedBy(old(units[k]), units[k], HoldsInput(old(units[k]), input))
    ensures inputUnit == -1 || 0 <= inputUnit < units.Length
    ensures forall k :: 0 <= k < units.Length ==> (HoldsInput(old(units[k]), input) <==> k == inputUnit)
  {
    ghost var before := units[..];
    inputUnit := -1;
    if 0 <= input < |messages| {
      for index := 0 to units.Length
        invariant units[..] == before
        invariant forall k :: 0 <= k < index ==> !HoldsInput(before[k], input)
      {
        if units[index].start <= input < units[index].end {
          forall k | index < k < units.Length ensures !HoldsInput(before[k], input) {
            UnitsAscend(before, messages, index, k);
          }
          units[index] := units[index].(guarded := true);
          inputUnit := index;
          break;
        }
      }
    }
  }

  /** The last `retain` units behind the input. */
  method MarkRecent(units: array<Unit>, inputUnit: int, retain: int)
    requires inputUnit == -1 || 0 <= inputUnit < units.Length
    modifies units
    ensures forall k :: 0 <= k < units.Length ==>
      GuardedBy(old(units[k]), units[k], k >= units.Length - retain && k > inputUnit)
  {
    ghost var before := units[..];
    var marked, index := 0, units.Length - 1;
    while index >= 0 && marked < retain
      invariant -1 <= index < units.Length && marked == units.Length - 1 - index
      invariant index >= inputUnit && (marked <= retain || marked == 0)
      invariant forall k :: index < k < units.Length ==> GuardedBy(before[k], units[k], true)
      invariant forall k :: 0 <= k <= index ==> units[k] == before[k]
      decreases index
    {
      if inputUnit >= 0 && index <= inputUnit {
        break;
      }
      units[index] := units[index].(guarded := true);
      marked := marked + 1;
      index := index - 1;
    }
  }

  lemma SamePlaces(us: seq<Unit>, vs: seq<Unit>, ms: seq<Message>)
    requires LaidOut(us, ms) && Adjoining(us) && |us| == |vs|
    requires forall k :: 0 <= k < |us| ==> vs[k].start == us[k].start && vs[k].end == us[k].end
    ensures LaidOut(vs, ms) && Adjoining(vs)
  {
    forall i, j | 0 <= i < j < |vs| && j == i + 1 ensures vs[j].start == vs[i].end {
      assert vs[j].start == us[j].start && vs[i].end == us[i].end;
    }
  }

  method MarkProtectedUnits(units: array<Unit>, messages: seq<Message>, state: Marks, retain: int)
    requires LaidOut(units[..], messages) && Adjoining(units[..])
    modifies units
    ensures units[..] == Guard(old(units[..]), messages, state.input, retain)
  {
    ghost var before := units[..];
    MarkLeading(units, messages);
    ghost var led := units[..];
    SamePlaces(before, led, messages);
    var inputUnit := MarkInput(units, messages, state.input);
    MarkRecent(units, inputUnit, retain);
    forall k | 0 <= k < units.Length ensures units[k] == Guard(before, messages, state.input, retain)[k] {
      RecentIff(before, messages, state.input, retain, inputUnit, k);
      assert GuardedBy(before[k], led[k], Leading(before, messages, k));
    }
  }

  lemma RecentIff(us: seq<Unit>, ms: seq<Message>, input: int, retain: int, inputUnit: int, k: nat)
    requires k < |us| && -1 <= inputUnit < |us|
    requires forall j :: 0 <= j < |us| ==> (HoldsInput(us[j], input) <==> j == inputUnit)
    ensures Recent(us, input, retain, k) <==> k >= |us| - retain && k > inputUnit
  {
    if k <= inputUnit { assert HoldsInput(us[inputUnit], input); }
  }

  // ----- the range scan -----------------------------------------------------------------------

  /** What the scan will return from inside a segment that began at `s` and holds `acc` bytes. */
  function Resume(us: seq<Unit>, s: int, index: nat, acc: nat, est: int, max: int): Option<(nat, nat)>
    requires s <= index <= |us|
  {
    if s < 0 then FirstRange(us, index, est, max)
    else
      var e := Reach(us, index, acc, max);
      if Sum(us[s..e]) > est then Some((s, e)) else FirstRange(us, e, est, max)
  }

  predicate InSegment(us: seq<Unit>, s: int, index: nat, acc: nat, max: int) {
    && -1 <= s <= index <= |us|
    && (if s < 0 then acc == 0 else s < index && acc == Sum(us[s..index]) && acc <= max)
  }

  /** A segment that cannot take the next unit is closed where it stands. */
  lemma {:induction false} ResumeCloses(us: seq<Unit>, s: nat, index: nat, acc: nat, est: int, max: int)
    requires InSegment(us, s, index, acc, max)
    requires index == |us| || !Eligible(us[index], max) || acc + us[index].bytes > max
    ensures Resume(us, s, index, acc, est, max) == if acc > est then Some((s, index)) else FirstRange(us, index, est, max)
  {
    assert Reach(us, index, acc, max) == index;
  }

  lemma {:induction false} ResumeOpens(us: seq<Unit>, index: nat, est: int, max: int)
    requires index < |us| && Eligible(us[index], max)
    ensures FirstRange(us, index, est, max) == Resume(us, index, index + 1, us[index].bytes, est, max)
  {
    assert Reach(us, index, 0, max) == Reach(us, index + 1, us[index].bytes, max);
  }

  lemma ResumeExtends(us: seq<Unit>, s: nat, index: nat, acc: nat, est: int, max: int)
    requires InSegment(us, s, index, acc, max) && index < |us| && Eligible(us[index], max) && acc + us[index].bytes <= max
    ensures Resume(us, s, index, acc, est, max) == Resume(us, s, index + 1, acc + us[index].bytes, est, max)
    ensures InSegment(us, s, index + 1, acc + us[index].bytes, max)
  {
    SumPush(us, s, index);
  }

  lemma SegmentOfOne(us: seq<Unit>, index: nat, max: int)
    requires index < |us| && us[index].bytes <= max
    ensures InSegment(us, index, index + 1, us[index].bytes, max)
  {
    assert us[index..index + 1] == [us[index]];
  }

  lemma SkipsUnit(us: seq<Unit>, index: nat, est: int, max: int)
    requires index < |us| && !Eligible(us[index], max)
    ensures FirstRange(us, index, est, max) == FirstRange(us, index + 1, est, max)
  {}

  /** Closing a segment: it is the range if it holds more than the estimate. */
  method CloseSegment(us: seq<Unit>, segmentStart: int, segmentBytes: nat, end: nat, est: int, ghost max: int)
    returns (found: Option<(nat, nat)>)
    requires InSegment(us, segmentStart, end, segmentBytes, max)
    requires end == |us| || !Eligible(us[end], max) || segmentBytes + us[end].bytes > max
    ensures found == if segmentStart >= 0 && segmentBytes > est then Some((segmentStart, end)) else None
    ensures Resume(us, segmentStart, end, segmentBytes, est, max) ==
      if found.Some? then found else FirstRange(us, end, est, max)
  {
    if segmentStart < 0 { return None; }
    ResumeCloses(us, segmentStart, end, segmentBytes, est, max);
    if segmentBytes - est <= 0 { return None; }
    found := Some((segmentStart, end));
  }

  lemma OversizedSnoc(us: seq<Unit>, u: Unit, max: int)
    ensures Oversized(us + [u], max) <==> Oversized(us, max) || Wide(u, max)
  {
    assert forall v :: v in us + [u] <==> v in us || v == u;
  }

  lemma OversizedStep(us: seq<Unit>, index: nat, max: int)
    requires index < |us|
    ensures Oversized(us[..index + 1], max) <==> Oversized(us[..index], max) || Wide(us[index], max)
  {
    assert us[..index + 1] == us[..index] + [us[index]];
    OversizedSnoc(us[..index], us[index], max);
  }

  /** The scan over sizes and guards. */
  method Scan(us: seq<Unit>, est: int, max: int) returns (found: Option<(nat, nat)>, oversized: bool)
    ensures found == FirstRange(us, 0, est, max)
    ensures found.None? ==> (oversized <==> Oversized(us, max))
  {
    oversized := false;
    var segmentStart: int, segmentBytes: nat := -1, 0;
    var index := 0;
    ghost var goal := FirstRange(us, 0, est, max);
    while index < |us|
      invariant InSegment(us, segmentStart, index, segmentBytes, max)
      invariant Resume(us, segmentStart, index, segmentBytes, est, max) == goal
      invariant oversized <==> Oversized(us[..index], max)
      decreases |us| - index
    {
      var unit := us[index];
      OversizedStep(us, index, max);
      if unit.guarded || unit.bytes > max {
        if unit.bytes > max && !unit.guarded { oversized := true; }
        found := CloseSegment(us, segmentStart, segmentBytes, index, est, max);
        if found.Some? { return; }
        SkipsUnit(us, index, est, max);
        segmentStart, segmentBytes := -1, 0;
      } else {
        if segmentStart >= 0 && segmentBytes + unit.bytes > max {
          found := CloseSegment(us, segmentStart, segmentBytes, index, est, max);
          if found.Some? { return; }
          segmentStart, segmentBytes := -1, 0;
        }
        if segmentStart < 0 {
          ResumeOpens(us, index, est, max);
          SegmentOfOne(us, index, max);
          segmentStart := index;
        } else {
          ResumeExtends(us, segmentStart, index, segmentBytes, est, max);
        }
        segmentBytes := segmentBytes + unit.bytes;
      }
      index := index + 1;
    }
    assert us[..index] == us;
    found := CloseSegment(us, segmentStart, segmentBytes, index, est, max);
  }

  /** The units of the list, with the guards set in place. */
  method SplitAndGuard(mt: Meter, messages: seq<Message>, state: Marks, retain: int) returns (us: seq<Unit>)
    ensures us == Guarded(mt, messages, state.input, retain)
  {
    var split := SplitCompactionUnits(mt, messages);
    UnitsLaidOut(mt, messages);
    UnitsAdjoin(mt, messages);
    var units := new Unit[|split|](i requires 0 <= i < |split| => split[i]);
    assert units[..] == split;
    MarkProtectedUnits(units, messages, state, retain);
    us := units[..];
  }

  method BuildCompactionPlan(mt: Meter, messages: seq<Message>, state: Marks, opts: PlanOptions) returns (planned: Planned)
    ensures planned == BuildPlan(mt, messages, state, opts)
  {
    var o := opts.WithDefaults();
    var us := SplitAndGuard(mt, messages, state, o.retain);
    var found, oversized := Scan(us, o.estimate, o.summaryMax);
    FoundInList(mt, messages, state.input, o.retain, o.estimate, o.summaryMax);
    if found.Some? {
      var start, end := us[found.value.0].start, us[found.value.1 - 1].end;
      return Range(Plan(start, end, messages[start..end]));
    }
    planned := if oversized then UncompactableUnit else NoSafeRange;
  }

  // ----- applying -----------------------------------------------------------------------------

  /** Where the group of a head ends. */
  function EndOf(g: ToolGroup): nat { if g.results == [] then g.start + 1 else g.results[|g.results| - 1] + 1 }

  /** The group of a head stretches over a position exactly if the position lies behind its head and before its
      end. */
  lemma StretchesIff(ms: seq<Message>, h: nat, boundary: int)
    requires h < |ms| && IsHead(ms[h])
    ensures GroupOver(ms, h, boundary) <==> h < boundary < EndOf(GroupOf(ms, h))
  {
    var results := GroupOf(ms, h).results;
    assert |results| == ToolPrefix(ms[h + 1..]);
    if results != [] { assert results[|results| - 1] == h + |results|; }
  }

  method BalancedToolBoundary(messages: seq<Message>, boundary: int) returns (balanced: bool)
    ensures balanced == !CutByGroup(messages, boundary)
  {
    if boundary <= 0 || boundary >= |messages| { return true; }
    var groups := ScanToolGroups(messages);
    for i := 0 to |groups|
      invariant forall k :: 0 <= k < i ==> !(groups[k].start < boundary < EndOf(groups[k]))
    {
      var end := groups[i].start + 1;
      if |groups[i].results| > 0 { end := groups[i].results[|groups[i].results| - 1] + 1; }
      if groups[i].start < boundary && end > boundary {
        GroupsAre(messages, 0, groups[i]);
        StretchesIff(messages, groups[i].start, boundary);
        return false;
      }
    }
    forall h: nat | h < |messages| ensures !GroupOver(messages, h, boundary) {
      if IsHead(messages[h]) {
        GroupsAre(messages, 0, GroupOf(messages, h));
        StretchesIff(messages, h, boundary);
      }
    }
    balanced := true;
  }

  /** How one more index is moved. */
  lemma {:induction false} ShiftedStep(cps: seq<int>, i: nat, start: int, end: int)
    requires i < |cps|
    ensures Shifted(cps[i..], start, end) ==
      (if start <= cps[i] < end then [] else [if cps[i] >= end then cps[i] - (end - start - 1) else cps[i]])
      + Shifted(cps[i + 1..], start, end)
  {
    assert cps[i..][1..] == cps[i + 1..] && cps[i..][0] == cps[i];
  }

  method ShiftCheckpoints(cps: seq<int>, start: int, end: int) returns (checkpoints: seq<int>)
    ensures checkpoints == Shifted(cps, start, end)
  {
    var delta := end - start - 1;
    checkpoints := [];
    assert cps[0..] == cps;
    for i := 0 to |cps|
      invariant checkpoints + Shifted(cps[i..], start, end) == Shifted(cps, start, end)
    {
      ShiftedStep(cps, i, start, end);
      if start <= cps[i] < end {
      } else if cps[i] >= end {
        checkpoints := checkpoints + [cps[i] - delta];
      } else {
        checkpoints := checkpoints + [cps[i]];
      }
    }
    assert cps[|cps|..] == [];
  }

  method MoveMarks(state: Marks, start: int, end: int) returns (next: Marks)
    ensures next == Moved(state, start, end)
  {
    var input := state.input;
    if input >= end { input := input - (end - start - 1); }
    var checkpoints := ShiftCheckpoints(state.checkpoints, start, end);
    next := Marks(input, Sort(checkpoints + [start]));
  }

  method ApplySummary(messages: seq<Message>, plan: Plan, summary: string, state: Marks) returns (applied: Applied)
    ensures applied == Compaction.ApplySummary(messages, plan, summary, state)
  {
    if plan.start < 0 || plan.end > |messages| || plan.start >= plan.end { return Rejected(OutOfBounds); }
    if plan.messages != messages[plan.start..plan.end] { return Rejected(RangeChanged); }
    var atStart := BalancedToolBoundary(messages, plan.start);
    var atEnd := BalancedToolBoundary(messages, plan.end);
    if !atStart || !atEnd { return Rejected(CutsGroup); }
    if plan.start <= state.input < plan.end { return Rejected(ContainsInput); }
    if Trim(summary) == "" { return Rejected(EmptySummary); }
    var next := MoveMarks(state, plan.start, plan.end);
    applied := Done(messages[..plan.start] + [Checkpoint(summary)] + messages[plan.end..], next);
  }
}
