/** A plan is sound, its summary is accepted, and a compaction disturbs nothing else. */
module CompactionProofs {
  import opened Common
  import opened Messages
  import opened RangeSelection
  import opened Compaction

  // ----- where positions and units lie ------------------------------------------------------

  /** The unit a position lies in. */
  lemma {:induction false} Locate(cs: seq<seq<Message>>, pos: nat) returns (k: nat)
    requires pos < Offset(cs, |cs|)
    ensures k < |cs| && Offset(cs, k) <= pos < Offset(cs, k + 1)
    decreases |cs|
  {
    assert cs != [];
    if pos < |cs[0]| {
      k := 0;
      assert Offset(cs, 1) == |cs[0]| + Offset(cs[1..], 0);
    } else {
      assert Offset(cs, |cs|) == |cs[0]| + Offset(cs[1..], |cs| - 1);
      k := Locate(cs[1..], pos - |cs[0]|);
      k := k + 1;
    }
  }

  lemma {:induction false} UnitLengthAt(ms: seq<Message>, k: nat)
    requires k < |Chunks(ms)|
    ensures Offset(Chunks(ms), k) < |ms|
    ensures UnitLength(ms[Offset(Chunks(ms), k)..]) == |Chunks(ms)[k]|
  {
    var cs := Chunks(ms);
    ChunkAt(ms, k);
    ChunksAreTiled(ms);
    FlattenChunks(ms);
    OffsetSplits(cs, k);
    assert Tiled(cs[k..]) by {
      assert forall j :: 0 <= j < |cs[k..]| ==> cs[k..][j] == cs[k + j];
    }
    TilingIsUnique(cs[k..]);
    assert Chunks(ms[Offset(cs, k)..])[0] == cs[k];
  }

  /** A position is cut by a tool group exactly when no unit starts there. */
  lemma CutIffInsideUnit(ms: seq<Message>, pos: nat)
    requires pos <= |ms|
    ensures CutByGroup(ms, pos) <==> !Boundary(ms, pos)
  {
    OffsetTotal(ms);
    if CutByGroup(ms, pos) {
      forall j | 0 <= j <= |Chunks(ms)| ensures Offset(Chunks(ms), j) != pos { StartIsNotCut(ms, j); }
    }
    if !Boundary(ms, pos) { InsideIsCut(ms, pos); }
  }

  /** A head starts a unit, and the unit is the whole of its group. */
  lemma HeadUnit(ms: seq<Message>, i: nat) returns (k: nat)
    requires i < |ms| && IsHead(ms[i])
    ensures k < |Chunks(ms)| && Offset(Chunks(ms), k) == i
    ensures Offset(Chunks(ms), k + 1) == i + 1 + ToolPrefix(ms[i + 1..])
  {
    var cs := Chunks(ms);
    OffsetTotal(ms);
    k := Locate(cs, i);
    ChunkAt(ms, k);
    ChunksAreTiled(ms);
    UnitLengthAt(ms, k);
    OffsetStep(cs, k);
    var o := Offset(cs, k);
    assert IsUnit(cs[k]) && cs[k][i - o] == ms[i];
    assert ms[o..][1..] == ms[o + 1..];
  }

  lemma {:induction false} GroupEndsByStart(ms: seq<Message>, i: nat, j: nat)
    requires i < |ms| && j <= |Chunks(ms)|
    ensures !GroupOver(ms, i, Offset(Chunks(ms), j))
  {
    if IsHead(ms[i]) {
      var k := HeadUnit(ms, i);
      StartsOutside(Chunks(ms), k, j);
    }
  }

  /** No unit starts inside another. */
  lemma StartsOutside(cs: seq<seq<Message>>, k: nat, j: nat)
    requires k < |cs| && j <= |cs|
    ensures Offset(cs, j) <= Offset(cs, k) || Offset(cs, k + 1) <= Offset(cs, j)
  {
    if k >= j { OffsetMonotone(cs, j, k); } else { OffsetMonotone(cs, k + 1, j); }
  }

  lemma {:induction false} StartIsNotCut(ms: seq<Message>, j: nat)
    requires j <= |Chunks(ms)|
    ensures !CutByGroup(ms, Offset(Chunks(ms), j))
  {
    forall i | 0 <= i < |ms| ensures !GroupOver(ms, i, Offset(Chunks(ms), j)) {
      GroupEndsByStart(ms, i, j);
    }
  }

  lemma InsideIsCut(ms: seq<Message>, pos: nat)
    requires pos <= |ms| && !Boundary(ms, pos)
    ensures CutByGroup(ms, pos)
  {
    var cs := Chunks(ms);
    OffsetTotal(ms);
    assert Offset(cs, |cs|) != pos && Offset(cs, 0) != pos;
    var k := Locate(cs, pos);
    assert Offset(cs, k) != pos;
    ChunkAt(ms, k);
    ChunksAreTiled(ms);
    UnitLengthAt(ms, k);
    var o := Offset(cs, k);
    assert IsUnit(cs[k]) && |cs[k]| > 1;
    assert ms[o..][1..] == ms[o + 1..];
    assert GroupOver(ms, o, pos);
  }

  function SystemPrefix(ms: seq<Message>): nat
    ensures SystemPrefix(ms) <= |ms|
    ensures forall i :: 0 <= i < SystemPrefix(ms) ==> ms[i].role == System
    ensures SystemPrefix(ms) < |ms| ==> ms[SystemPrefix(ms)].role != System
  {
    if ms == [] || ms[0].role != System then 0 else 1 + SystemPrefix(ms[1..])
  }

  /** Each message of the leading system block is a unit of its own. */
  lemma {:induction false} SystemUnits(ms: seq<Message>, k: nat)
    requires k < SystemPrefix(ms)
    ensures k < |Chunks(ms)| && Offset(Chunks(ms), k) == k && Offset(Chunks(ms), k + 1) == k + 1
    decreases |ms|
  {
    assert UnitLength(ms) == 1;
    if k > 0 { SystemUnits(ms[1..], k - 1); }
  }

  // ----- planner soundness ------------------------------------------------------------------

  /** What a plan must respect: it covers whole units `a` to `b`, none of them an open group;
      it spares the leading system block, the current input and the retained tail. */
  ghost predicate Respects(ms: seq<Message>, plan: Plan, input: int, retain: int, a: nat, b: nat) {
    var cs := Chunks(ms);
    && a < b <= |cs|
    && plan.start == Offset(cs, a) && plan.end == Offset(cs, b) && plan.start < plan.end <= |ms|
    && plan.messages == ms[plan.start..plan.end]
    && (forall k :: a <= k < b ==> !OpenGroup(cs[k]))
    && SystemPrefix(ms) <= plan.start
    && !(plan.start <= input < plan.end)
    && (plan.end <= input < |ms| || b <= |cs| - retain)
  }

  lemma {:induction false} GuardedUnit(mt: Meter, ms: seq<Message>, input: int, retain: int, k: nat)
    requires k < |Chunks(ms)|
    ensures |Guarded(mt, ms, input, retain)| == |Chunks(ms)| == |Units(mt, ms)|
    ensures LaidOut(Units(mt, ms), ms)
    ensures var us, g := Units(mt, ms), Guarded(mt, ms, input, retain);
      && g[k].bytes == us[k].bytes && g[k].start == us[k].start && g[k].end == us[k].end
      && (g[k].guarded <==> us[k].guarded || Leading(us, ms, k) || HoldsInput(us[k], input) || Recent(us, input, retain, k))
  {
    UnitsLaidOut(mt, ms);
  }

  lemma {:induction false} SystemIsLeading(mt: Meter, ms: seq<Message>, k: nat)
    requires k < SystemPrefix(ms)
    ensures k < |Units(mt, ms)| && LaidOut(Units(mt, ms), ms) && Leading(Units(mt, ms), ms, k)
  {
    UnitsLaidOut(mt, ms);
    SystemUnits(ms, k);
    forall j | 0 <= j <= k ensures var u := Units(mt, ms)[j]; u.end - u.start == 1 && ms[u.start].role == System {
      SystemUnits(ms, j);
      UnitIs(mt, ms, j);
    }
  }

  lemma {:induction false} SparesSystem(mt: Meter, ms: seq<Message>, input: int, retain: int, a: nat)
    requires a < |Chunks(ms)| && !Guarded(mt, ms, input, retain)[a].guarded
    ensures SystemPrefix(ms) <= Offset(Chunks(ms), a)
  {
    var n := SystemPrefix(ms);
    if a < n {
      SystemIsLeading(mt, ms, a);
      GuardedUnit(mt, ms, input, retain, a);
    } else if n > 0 {
      SystemUnits(ms, n - 1);
      OffsetMonotone(Chunks(ms), n, a);
    }
  }

  lemma {:induction false} SparesInput(mt: Meter, ms: seq<Message>, input: int, retain: int, a: nat, b: nat)
    requires a < b <= |Chunks(ms)|
    requires |Guarded(mt, ms, input, retain)| == |Chunks(ms)|
    requires forall k :: a <= k < b ==> !Guarded(mt, ms, input, retain)[k].guarded
    ensures !(Offset(Chunks(ms), a) <= input < Offset(Chunks(ms), b))
  {
    var cs := Chunks(ms);
    if Offset(cs, a) <= input < Offset(cs, b) {
      OffsetTotal(ms);
      OffsetMonotone(cs, b, |cs|);
      var k := Locate(cs, input);
      if k < a { OffsetMonotone(cs, k + 1, a); }
      if k >= b { OffsetMonotone(cs, b, k); }
      UnitIs(mt, ms, k);
      GuardedUnit(mt, ms, input, retain, k);
    }
  }

  lemma {:induction false} SparesTail(mt: Meter, ms: seq<Message>, input: int, retain: int, k: nat)
    requires k < |Chunks(ms)| && !Guarded(mt, ms, input, retain)[k].guarded
    requires input < Offset(Chunks(ms), k) || input >= |ms|
    ensures k < |Chunks(ms)| - retain
  {
    var us, cs := Units(mt, ms), Chunks(ms);
    GuardedUnit(mt, ms, input, retain, k);
    forall j | k <= j < |us| ensures !HoldsInput(us[j], input) {
      UnitIs(mt, ms, j);
      OffsetMonotone(cs, k, j);
    }
  }

  predicate Stretch(mt: Meter, ms: seq<Message>, u: Unit, from: nat, to: nat) {
    from <= to <= |ms| && u.bytes == Total(mt, ms[from..to])
  }

  /** The bytes of adjoining stretches add up to the bytes of the whole. */
  lemma {:induction false} StretchBytes(mt: Meter, ms: seq<Message>, cuts: seq<nat>, us: seq<Unit>, a: nat, b: nat)
    requires a < b <= |us| && |cuts| == |us| + 1
    requires forall k :: a <= k < b ==> Stretch(mt, ms, us[k], cuts[k], cuts[k + 1])
    ensures cuts[a] <= cuts[b] <= |ms|
    ensures Sum(us[a..b]) == Total(mt, ms[cuts[a]..cuts[b]])
    decreases b - a
  {
    SumPush(us, a, b - 1);
    assert Stretch(mt, ms, us[b - 1], cuts[b - 1], cuts[b]);
    if a + 1 < b {
      StretchBytes(mt, ms, cuts, us, a, b - 1);
      var i, j, k := cuts[a], cuts[b - 1], cuts[b];
      assert ms[i..k] == ms[i..j] + ms[j..k];
      TotalAppend(mt, ms[i..j], ms[j..k]);
    } else {
      assert us[a..a] == [];
    }
  }

  lemma {:induction false} RangeBytes(mt: Meter, ms: seq<Message>, us: seq<Unit>, a: nat, b: nat, max: int)
    requires a < b <= |Chunks(ms)| == |us| && max < MAX_INT
    requires forall k :: a <= k < b ==> us[k].bytes == Visible(mt, Chunks(ms)[k]) && us[k].bytes <= max
    ensures Offset(Chunks(ms), a) <= Offset(Chunks(ms), b) <= |ms|
    ensures Sum(us[a..b]) == Total(mt, ms[Offset(Chunks(ms), a)..Offset(Chunks(ms), b)])
  {
    var cs := Chunks(ms);
    var cuts: seq<nat> := seq(|cs| + 1, k requires 0 <= k <= |cs| => Offset(cs, k));
    forall k | a <= k < b ensures Stretch(mt, ms, us[k], cuts[k], cuts[k + 1]) {
      ChunkAt(ms, k);
      assert cuts[k] == Offset(cs, k) && cuts[k + 1] == Offset(cs, k + 1);
    }
    StretchBytes(mt, ms, cuts, us, a, b);
  }

  lemma {:induction false} UnguardedIsClosed(mt: Meter, ms: seq<Message>, input: int, retain: int, k: nat)
    requires k < |Chunks(ms)| && !Guarded(mt, ms, input, retain)[k].guarded
    ensures !OpenGroup(Chunks(ms)[k])
  {
    GuardedUnit(mt, ms, input, retain, k);
    UnitIs(mt, ms, k);
  }

  /** The unguarded units of a range, seen as a plan. */
  lemma {:induction false} UnguardedRangeRespects(
      mt: Meter, ms: seq<Message>, input: int, retain: int, a: nat, b: nat, plan: Plan)
    requires a < b <= |Chunks(ms)|
    requires forall k :: a <= k < b ==> !Guarded(mt, ms, input, retain)[k].guarded
    requires plan.start == Offset(Chunks(ms), a) && plan.end == Offset(Chunks(ms), b)
    requires plan.start < plan.end <= |ms| && plan.messages == ms[plan.start..plan.end]
    ensures Respects(ms, plan, input, retain, a, b)
  {
    forall k | a <= k < b ensures !OpenGroup(Chunks(ms)[k]) { UnguardedIsClosed(mt, ms, input, retain, k); }
    SparesSystem(mt, ms, input, retain, a);
    SparesInput(mt, ms, input, retain, a, b);
    if input < plan.start || input >= |ms| {
      OffsetMonotone(Chunks(ms), a, b - 1);
      SparesTail(mt, ms, input, retain, b - 1);
    }
  }

  /** Every plan covers whole closed units outside the system block, the input and the retained
      tail, and its visible bytes lie above the estimate and within the maximum. */
  lemma PlanIsSound(mt: Meter, ms: seq<Message>, st: Marks, opts: PlanOptions) returns (a: nat, b: nat)
    requires BuildPlan(mt, ms, st, opts).Range? && opts.WithDefaults().summaryMax < MAX_INT
    ensures var o, plan := opts.WithDefaults(), BuildPlan(mt, ms, st, opts).plan;
      && Respects(ms, plan, st.input, o.retain, a, b)
      && o.estimate < Visible(mt, plan.messages) <= o.summaryMax
  {
    var o := opts.WithDefaults();
    var us := Guarded(mt, ms, st.input, o.retain);
    FoundIsFeasible(us, 0, o.estimate, o.summaryMax);
    var r := FirstRange(us, 0, o.estimate, o.summaryMax).value;
    a, b := r.0, r.1;
    PlanInBounds(mt, ms, a, b);
    PlanIs(mt, ms, st, opts);
    UnguardedRangeRespects(mt, ms, st.input, o.retain, a, b, BuildPlan(mt, ms, st, opts).plan);
    forall k | a <= k < b ensures us[k].bytes == Visible(mt, Chunks(ms)[k]) {
      GuardedUnit(mt, ms, st.input, o.retain, k);
      UnitIs(mt, ms, k);
    }
    RangeBytes(mt, ms, us, a, b, o.summaryMax);
  }

  /** The plan of the units from `a` to `b`. */
  predicate PlanOver(ms: seq<Message>, plan: Plan, a: nat, b: nat) {
    && a < b <= |Chunks(ms)| && plan.start == Offset(Chunks(ms), a) && plan.end == Offset(Chunks(ms), b)
    && plan.start < plan.end <= |ms| && plan.messages == ms[plan.start..plan.end]
  }

  lemma {:induction false} VerdictIs(ms: seq<Message>, us: seq<Unit>, r: (nat, nat), max: int)
    requires InList(ms, us, r) && |us| == |Chunks(ms)|
    requires us[r.0].start == Offset(Chunks(ms), r.0) && us[r.1 - 1].end == Offset(Chunks(ms), r.1)
    ensures PlanOver(ms, Verdict(ms, us, Some(r), max).plan, r.0, r.1)
  {}

  /** Where the range that was found lies. */
  lemma {:induction false} FoundBounds(
      mt: Meter, ms: seq<Message>, input: int, retain: int, us: seq<Unit>, f: Option<(nat, nat)>, est: int, max: int)
    requires us == Guarded(mt, ms, input, retain) && f == FirstRange(us, 0, est, max) && f.Some?
    ensures InList(ms, us, f.value) && |us| == |Chunks(ms)|
    ensures us[f.value.0].start == Offset(Chunks(ms), f.value.0) && us[f.value.1 - 1].end == Offset(Chunks(ms), f.value.1)
  {
    FoundInList(mt, ms, input, retain, est, max);
    GuardedBounds(mt, ms, input, retain, f.value.0, f.value.1);
  }

  lemma PlanIs(mt: Meter, ms: seq<Message>, st: Marks, opts: PlanOptions)
    requires BuildPlan(mt, ms, st, opts).Range?
    ensures var o := opts.WithDefaults();
      var f := FirstRange(Guarded(mt, ms, st.input, o.retain), 0, o.estimate, o.summaryMax);
      f.Some? && PlanOver(ms, BuildPlan(mt, ms, st, opts).plan, f.value.0, f.value.1)
  {
    var o := opts.WithDefaults();
    var us := Guarded(mt, ms, st.input, o.retain);
    FoundBounds(mt, ms, st.input, o.retain, us, FirstRange(us, 0, o.estimate, o.summaryMax), o.estimate, o.summaryMax);
    VerdictIs(ms, us, FirstRange(us, 0, o.estimate, o.summaryMax).value, o.summaryMax);
  }

  /** Where a range of guarded units lies in the list. */
  lemma GuardedBounds(mt: Meter, ms: seq<Message>, input: int, retain: int, a: nat, b: nat)
    requires a < b <= |Chunks(ms)|
    ensures var us := Guarded(mt, ms, input, retain);
      us[a].start == Offset(Chunks(ms), a) && us[b - 1].end == Offset(Chunks(ms), b)
    ensures Offset(Chunks(ms), a) < Offset(Chunks(ms), b) <= |ms|
  {
    PlanInBounds(mt, ms, a, b);
    GuardedUnit(mt, ms, input, retain, a);
    GuardedUnit(mt, ms, input, retain, b - 1);
  }

  /** A planned range is accepted for every summary that is not blank, and only for those. */
  lemma PlanIsAcceptedIff(mt: Meter, ms: seq<Message>, st: Marks, opts: PlanOptions, summary: string)
    requires BuildPlan(mt, ms, st, opts).Range? && opts.WithDefaults().summaryMax < MAX_INT
    ensures ApplySummary(ms, BuildPlan(mt, ms, st, opts).plan, summary, st).Done? <==> Trim(summary) != ""
  {
    var a, b := PlanIsSound(mt, ms, st, opts);
    StartIsNotCut(ms, a);
    StartIsNotCut(ms, b);
  }

  // ----- planner completeness ---------------------------------------------------------------

  /** No message is smaller than this. */
  ghost predicate AtLeast(mt: Meter, floor: nat) { forall m :: mt.projected(m) >= floor }

  lemma ListIsAtLeast(mt: Meter, ms: seq<Message>, floor: nat)
    requires AtLeast(mt, floor) && floor <= MAX_INT && ms != []
    ensures Visible(mt, ms) >= floor
  {
    assert Weight(mt, ms[0]) >= mt.projected(ms[0]);
  }

  lemma UnitsAreAtLeast(mt: Meter, ms: seq<Message>, input: int, retain: int, floor: nat)
    requires AtLeast(mt, floor) && floor <= MAX_INT
    ensures AllAtLeast(Guarded(mt, ms, input, retain), floor)
  {
    var us := Guarded(mt, ms, input, retain);
    forall k | 0 <= k < |us| ensures us[k].bytes >= floor {
      GuardedUnit(mt, ms, input, retain, k);
      UnitIs(mt, ms, k);
      ChunkAt(ms, k);
      ListIsAtLeast(mt, Chunks(ms)[k], floor);
    }
  }

  /** The unguarded units leave no range that pays off and can be summarised. */
  predicate NothingToPlan(mt: Meter, ms: seq<Message>, st: Marks, opts: PlanOptions) {
    var o := opts.WithDefaults();
    !SomeFeasible(Guarded(mt, ms, st.input, o.retain), o.estimate, o.summaryMax)
  }

  /** Under generous options a failed plan means there was no range to find. */
  lemma PlansMissNothing(mt: Meter, ms: seq<Message>, st: Marks, opts: PlanOptions, floor: nat)
    requires AtLeast(mt, floor) && floor <= MAX_INT && !BuildPlan(mt, ms, st, opts).Range?
    requires Generous(opts.WithDefaults().estimate, opts.WithDefaults().summaryMax, floor)
    ensures NothingToPlan(mt, ms, st, opts)
  {
    var o := opts.WithDefaults();
    UnitsAreAtLeast(mt, ms, st.input, o.retain, floor);
    CompleteIff(o.estimate, o.summaryMax, floor);
  }

  /** As it is used: under the default sizes, whatever is retained. */
  lemma DefaultsMissNothing(mt: Meter, ms: seq<Message>, st: Marks, retain: int)
    requires !BuildPlan(mt, ms, st, PlanOptions(0, retain, 0)).Range?
    ensures NothingToPlan(mt, ms, st, PlanOptions(0, retain, 0))
  {
    PlansMissNothing(mt, ms, st, PlanOptions(0, retain, 0), 0);
  }

  predicate Plain(m: Message) { m.role == User && m.calls == [] }

  /** Plain messages are units of their own. */
  lemma {:induction false} PlainChunks(ms: seq<Message>, k: nat)
    requires k < |ms| && forall j :: 0 <= j < |ms| ==> Plain(ms[j])
    ensures |Chunks(ms)| == |ms| && Chunks(ms)[k] == [ms[k]]
    ensures Offset(Chunks(ms), k) == k && Offset(Chunks(ms), k + 1) == k + 1
    decreases |ms|
  {
    var rest := ms[1..];
    assert UnitLength(ms) == 1 && ms[..1] == [ms[0]];
    assert Chunks(ms) == [[ms[0]]] + Chunks(rest) && Chunks(ms)[1..] == Chunks(rest);
    if k > 0 {
      PlainChunks(rest, k - 1);
    } else if rest != [] {
      PlainChunks(rest, 0);
    }
  }

  /** Four plain messages are four units; of these the last one, the input, is guarded. */
  lemma PlainUnits(mt: Meter, ms: seq<Message>, retain: int, k: nat)
    requires |ms| == 4 && k < 4 && forall k :: 0 <= k < 4 ==> Plain(ms[k])
    ensures |Guarded(mt, ms, 3, retain)| == 4
    ensures Guarded(mt, ms, 3, retain)[k] == Unit(k, k + 1, Visible(mt, [ms[k]]), k == 3)
  {
    PlainChunks(ms, 0);
    PlainChunks(ms, k);
    PlainChunks(ms, 3);
    UnitIs(mt, ms, 0);
    UnitIs(mt, ms, k);
    UnitIs(mt, ms, 3);
    GuardedUnit(mt, ms, 3, retain, k);
    var us := Units(mt, ms);
    assert us[k] == Unit(k, k + 1, Visible(mt, [ms[k]]), false) && HoldsInput(us[3], 3);
    assert !Leading(us, ms, k) && !Recent(us, 3, retain, k) by {
      assert us[0].start == 0 && ms[0].role == User;
    }
  }

  /** A conversation the planner overlooks: the first two of three messages fill a segment up to the estimate,
      and the second and the third would have been a range. */
  lemma PlanOverlooks(mt: Meter, ms: seq<Message>, st: Marks, opts: PlanOptions, floor: nat)
    requires var o := opts.WithDefaults(); o.estimate < o.summaryMax < 2 * o.estimate && o.summaryMax <= MAX_INT
    requires 1 <= floor && 2 * floor <= opts.WithDefaults().estimate
    requires |ms| == 4 && st.input == 3 && forall k :: 0 <= k < 4 ==> Plain(ms[k])
    requires var o := opts.WithDefaults();
      && Weight(mt, ms[0]) == o.estimate - floor && Weight(mt, ms[1]) == floor
      && Weight(mt, ms[2]) == LastSize(o.estimate, o.summaryMax, floor)
    ensures !BuildPlan(mt, ms, st, opts).Range? && !NothingToPlan(mt, ms, st, opts)
  {
    var o := opts.WithDefaults();
    var us := Guarded(mt, ms, 3, o.retain);
    forall k: nat | k < 4 ensures |us| == 4 && us[k] == Unit(k, k + 1, Visible(mt, [ms[k]]), k == 3) {
      PlainUnits(mt, ms, o.retain, k);
    }
    assert us[0].bytes == Visible(mt, [ms[0]]) && us[1].bytes == Visible(mt, [ms[1]]) && us[2].bytes == Visible(mt, [ms[2]]);
    assert forall k :: 0 <= k < 4 ==> Total(mt, [ms[k]]) == Weight(mt, ms[k]);
    assert Overlooked(us, o.estimate, o.summaryMax, floor);
    OverlookedIsMissed(us, o.estimate, o.summaryMax, floor);
  }

  /** An encoder that spends `floor` bytes on a message and one on each character of its text. */
  function Encoder(floor: nat): Meter { Meter((m: Message) => floor + Letters(m.content), c => Letters(c)) }

  function Letters(content: seq<Block>): nat {
    if content == [] then 0 else (if content[0].Text? then |content[0].text| else 0) + Letters(content[1..])
  }

  function Says(n: nat): Message { Message(User, [Text(seq(n, _ => 'x'))], [], "", "", false) }

  lemma WeightOf(floor: nat, n: nat)
    ensures Weight(Encoder(floor), Says(n)) == floor + n
  {
    assert Letters(Says(n).content[1..]) == 0 && Images(Says(n).content) == 0;
  }

  /** The planner misses nothing, under these options and on all messages of at least `floor` bytes. */
  ghost predicate PlannerComplete(opts: PlanOptions, floor: nat) {
    forall mt, ms, st :: AtLeast(mt, floor) && !BuildPlan(mt, ms, st, opts).Range? ==> NothingToPlan(mt, ms, st, opts)
  }

  /** Exactly when the planner never overlooks a range, for every encoder and every conversation whose
      messages have at least `floor` bytes. */
  lemma PlannerCompleteIff(opts: PlanOptions, floor: nat)
    requires 1 <= floor <= MAX_INT && opts.WithDefaults().summaryMax <= MAX_INT
    ensures PlannerComplete(opts, floor) <==> Generous(opts.WithDefaults().estimate, opts.WithDefaults().summaryMax, floor)
  {
    var o := opts.WithDefaults();
    if Generous(o.estimate, o.summaryMax, floor) {
      forall mt, ms, st | AtLeast(mt, floor) && !BuildPlan(mt, ms, st, opts).Range? ensures NothingToPlan(mt, ms, st, opts) {
        PlansMissNothing(mt, ms, st, opts, floor);
      }
    } else {
      var mt, last := Encoder(floor), LastSize(o.estimate, o.summaryMax, floor);
      var ms := [Says(o.estimate - 2 * floor), Says(0), Says(last - floor), Says(0)];
      WeightOf(floor, o.estimate - 2 * floor);
      WeightOf(floor, 0);
      WeightOf(floor, last - floor);
      PlanOverlooks(mt, ms, Marks(3, []), opts, floor);
      assert AtLeast(mt, floor);
    }
  }
}
