/** The range scan of pi/harness/compaction.go on the sizes of units: what it finds, and exactly
    when it finds every range there is to find. */
module RangeSelection {
  import opened Common

  datatype Unit = Unit(start: nat, end: nat, bytes: nat, guarded: bool)

  predicate Eligible(u: Unit, max: int) { !u.guarded && u.bytes <= max }

  function Sum(us: seq<Unit>): nat { if us == [] then 0 else us[0].bytes + Sum(us[1..]) }

  /** How far a segment that already holds `acc` bytes can be extended from unit `e`. */
  function Reach(us: seq<Unit>, e: nat, acc: nat, max: int): nat
    requires e <= |us|
    ensures e <= Reach(us, e, acc, max) <= |us|
    ensures e < |us| && Eligible(us[e], max) && acc == 0 ==> e < Reach(us, e, acc, max)
    decreases |us| - e
  {
    if e < |us| && Eligible(us[e], max) && acc + us[e].bytes <= max then Reach(us, e + 1, acc + us[e].bytes, max)
    else e
  }

  /** The segments are cut greedily from the left; the first one above the estimate is taken. */
  function FirstRange(us: seq<Unit>, s: nat, est: int, max: int): Option<(nat, nat)>
    requires s <= |us|
    decreases |us| - s
  {
    if s == |us| then None
    else if !Eligible(us[s], max) then FirstRange(us, s + 1, est, max)
    else
      var e := Reach(us, s, 0, max);
      if Sum(us[s..e]) > est then Some((s, e)) else FirstRange(us, e, est, max)
  }

  predicate AllEligible(us: seq<Unit>, s: nat, e: nat, max: int)
    requires s <= e <= |us|
  {
    forall k :: s <= k < e ==> Eligible(us[k], max)
  }

  /** A contiguous range of unguarded units whose size pays off and can be summarised. */
  predicate Feasible(us: seq<Unit>, s: nat, e: nat, est: int, max: int) {
    s < e <= |us| && AllEligible(us, s, e, max) && est < Sum(us[s..e]) <= max
  }

  predicate SomeFeasible(us: seq<Unit>, est: int, max: int) {
    exists s, e :: 0 <= s < e <= |us| && Feasible(us, s, e, est, max)
  }

  // ----- sums -----------------------------------------------------------------------------

  lemma {:induction false} SumAppend(a: seq<Unit>, b: seq<Unit>)
    ensures Sum(a + b) == Sum(a) + Sum(b)
  {
    if a == [] {
      assert a + b == b;
    } else {
      assert (a + b)[1..] == a[1..] + b;
      SumAppend(a[1..], b);
    }
  }

  lemma SumSplit(us: seq<Unit>, s: nat, m: nat, e: nat)
    requires s <= m <= e <= |us|
    ensures Sum(us[s..e]) == Sum(us[s..m]) + Sum(us[m..e])
  {
    assert us[s..e] == us[s..m] + us[m..e];
    SumAppend(us[s..m], us[m..e]);
  }

  lemma SumPush(us: seq<Unit>, s: nat, e: nat)
    requires s <= e < |us|
    ensures Sum(us[s..e + 1]) == Sum(us[s..e]) + us[e].bytes
  {
    SumSplit(us, s, e, e + 1);
    assert us[e..e + 1] == [us[e]];
  }

  // ----- soundness ------------------------------------------------------------------------

  lemma {:induction false} ReachIs(us: seq<Unit>, s: nat, e: nat, acc: nat, max: int)
    requires s <= e <= |us| && acc == Sum(us[s..e]) && AllEligible(us, s, e, max) && (s < e ==> acc <= max)
    ensures var r := Reach(us, e, acc, max);
      && AllEligible(us, s, r, max)
      && (s < r ==> Sum(us[s..r]) <= max)
      && (r < |us| && Eligible(us[r], max) ==> Sum(us[s..r]) + us[r].bytes > max)
    decreases |us| - e
  {
    if e < |us| && Eligible(us[e], max) && acc + us[e].bytes <= max {
      SumPush(us, s, e);
      ReachIs(us, s, e + 1, acc + us[e].bytes, max);
    }
  }

  lemma {:induction false} ReachFrom(us: seq<Unit>, s: nat, max: int)
    requires s < |us| && Eligible(us[s], max)
    ensures var r := Reach(us, s, 0, max);
      && s < r && AllEligible(us, s, r, max) && Sum(us[s..r]) <= max
      && (r < |us| && Eligible(us[r], max) ==> Sum(us[s..r]) + us[r].bytes > max)
  {
    assert us[s..s] == [];
    ReachIs(us, s, s, 0, max);
  }

  /** What is found is feasible and cannot be extended to the right. */
  lemma {:induction false} FoundIsFeasible(us: seq<Unit>, s: nat, est: int, max: int)
    requires s <= |us| && FirstRange(us, s, est, max).Some?
    ensures var (a, b) := FirstRange(us, s, est, max).value;
      && s <= a && Feasible(us, a, b, est, max)
      && (b < |us| && Eligible(us[b], max) ==> Sum(us[a..b]) + us[b].bytes > max)
    decreases |us| - s
  {
    if !Eligible(us[s], max) {
      FoundIsFeasible(us, s + 1, est, max);
    } else {
      ReachFrom(us, s, max);
      var e := Reach(us, s, 0, max);
      if Sum(us[s..e]) <= est { FoundIsFeasible(us, e, est, max); }
    }
  }

  // ----- completeness ---------------------------------------------------------------------

  lemma SumMonotone(us: seq<Unit>, s: nat, a: nat, b: nat, e: nat)
    requires s <= a <= b <= e <= |us|
    ensures Sum(us[a..b]) <= Sum(us[s..e])
  {
    SumSplit(us, s, a, e);
    SumSplit(us, a, b, e);
  }

  lemma {:induction false} FirstCounts(us: seq<Unit>, s: nat, max: int)
    requires s < |us| && Eligible(us[s], max)
    ensures Sum(us[s..Reach(us, s, 0, max)]) >= us[s].bytes
  {
    assert us[s..s] == [];
    SumPush(us, s, s);
    SumMonotone(us, s, s, s + 1, Reach(us, s, 0, max));
  }

  predicate AllAtLeast(us: seq<Unit>, floor: nat) { forall k :: 0 <= k < |us| ==> us[k].bytes >= floor }

  /** Sizes under which nothing can be overlooked: a segment and its next unit, both at most the estimate,
      never exceed the maximum together, or no two units fit into a segment that is thrown away. */
  predicate Generous(est: int, max: int, floor: nat) { max <= est || max >= 2 * est || 2 * floor > est }

  /** Two units of a segment weigh at least twice the floor. */
  lemma TwoUnits(us: seq<Unit>, s: nat, a: nat, e: nat, floor: nat)
    requires s < a < e <= |us| && AllAtLeast(us, floor)
    ensures Sum(us[s..e]) >= 2 * floor
  {
    SumSplit(us, s, a, e);
    SumMonotone(us, s, s, s + 1, a);
    SumMonotone(us, a, a, a + 1, e);
    assert us[s..s] == [] && us[a..a] == [];
    SumPush(us, s, s);
    SumPush(us, a, a);
  }

  /** A range of at most `max` that begins in a segment and goes beyond it begins behind its first unit. */
  lemma {:induction false} Crossing(us: seq<Unit>, s: nat, e: nat, max: int, floor: nat, a: nat, b: nat)
    requires s <= a < e < b <= |us| && AllAtLeast(us, floor) && Eligible(us[e], max)
    requires Sum(us[a..b]) <= max < Sum(us[s..e]) + us[e].bytes
    ensures Sum(us[s..e]) >= 2 * floor
    ensures Sum(us[e..Reach(us, e, 0, max)]) >= us[e].bytes
  {
    FirstCounts(us, e, max);
    SumMonotone(us, a, a, e + 1, b);
    SumPush(us, a, e);
    TwoUnits(us, s, a, e, floor);
  }

  /** Under generous sizes, a scan that finds nothing has missed nothing. */
  lemma {:induction false} NothingMissed(us: seq<Unit>, s: nat, est: int, max: int, floor: nat, a: nat, b: nat)
    requires s <= |us| && Generous(est, max, floor) && AllAtLeast(us, floor) && FirstRange(us, s, est, max) == None
    requires s <= a && Feasible(us, a, b, est, max)
    ensures false
    decreases |us| - s
  {
    if !Eligible(us[s], max) {
      NothingMissed(us, s + 1, est, max, floor, a, b);
    } else {
      ReachFrom(us, s, max);
      var e := Reach(us, s, 0, max);
      if a >= e {
        NothingMissed(us, e, est, max, floor, a, b);
      } else if b <= e {
        SumMonotone(us, s, a, b, e);
      } else {
        Crossing(us, s, e, max, floor, a, b);
      }
    }
  }

  /** The largest unit that, behind one of `floor` bytes, still makes a feasible range. */
  function LastSize(est: int, max: int, floor: nat): int { if max - floor < est then max - floor else est }

  /** Three units in front of a guarded one: the first two fill a segment up to the estimate, which is thrown
      away when the third does not fit. */
  predicate Overlooked(us: seq<Unit>, est: int, max: int, floor: nat) {
    && |us| == 4 && us[3].guarded && !us[0].guarded && !us[1].guarded && !us[2].guarded
    && us[0].bytes == est - floor && us[1].bytes == floor && us[2].bytes == LastSize(est, max, floor)
  }

  /** The second and the third unit would have been a feasible range. */
  lemma {:induction false} OverlookedIsMissed(us: seq<Unit>, est: int, max: int, floor: nat)
    requires est < max < 2 * est && 1 <= floor && 2 * floor <= est && Overlooked(us, est, max, floor)
    ensures FirstRange(us, 0, est, max) == None && Feasible(us, 1, 3, est, max)
  {
    assert us[0..0] == [] && us[1..1] == [] && us[2..2] == [];
    SumPush(us, 0, 0);
    SumPush(us, 0, 1);
    SumPush(us, 1, 1);
    SumPush(us, 1, 2);
    SumPush(us, 2, 2);
    assert Reach(us, 2, est, max) == 2;
    assert Reach(us, 1, est - floor, max) == 2;
    assert Reach(us, 0, 0, max) == 2;
    assert Reach(us, 3, us[2].bytes, max) == 3;
    assert Reach(us, 2, 0, max) == 3;
    assert FirstRange(us, 4, est, max) == None;
    assert FirstRange(us, 3, est, max) == None;
    assert FirstRange(us, 2, est, max) == None;
  }

  lemma MissedExample(est: int, max: int, floor: nat) returns (us: seq<Unit>)
    requires est < max < 2 * est && 1 <= floor && 2 * floor <= est
    ensures AllAtLeast(us, floor) && FirstRange(us, 0, est, max) == None && Feasible(us, 1, 3, est, max)
  {
    us := [Unit(0, 1, est - floor, false), Unit(1, 2, floor, false),
           Unit(2, 3, LastSize(est, max, floor), false), Unit(3, 4, floor, true)];
    OverlookedIsMissed(us, est, max, floor);
  }

  ghost predicate FindsAll(est: int, max: int, floor: nat) {
    forall us :: AllAtLeast(us, floor) && FirstRange(us, 0, est, max) == None ==> !SomeFeasible(us, est, max)
  }

  /** The scan fails only when there is nothing to find, on every list of units of at least `floor` bytes,
      exactly under generous sizes: on all lists whatsoever, exactly when the maximum is at most the estimate
      or at least twice the estimate. */
  lemma CompleteIff(est: int, max: int, floor: nat)
    requires est > 0
    ensures FindsAll(est, max, floor) <==> Generous(est, max, floor)
    ensures FindsAll(est, max, 0) <==> max <= est || max >= 2 * est
  {
    FindsAllIff(est, max, floor);
    FindsAllIff(est, max, 0);
  }

  lemma FindsAllIff(est: int, max: int, floor: nat)
    requires est > 0
    ensures FindsAll(est, max, floor) <==> Generous(est, max, floor)
  {
    if Generous(est, max, floor) {
      forall us | AllAtLeast(us, floor) && FirstRange(us, 0, est, max) == None ensures !SomeFeasible(us, est, max) {
        if s, e :| 0 <= s < e <= |us| && Feasible(us, s, e, est, max) {
          NothingMissed(us, 0, est, max, floor, s, e);
        }
      }
    } else {
      var us := MissedExample(est, max, if floor == 0 then 1 else floor);
      assert SomeFeasible(us, est, max) && AllAtLeast(us, floor);
    }
  }
}
