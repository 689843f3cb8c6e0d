/** What planning and applying a compaction decide, in terms of the messages and their sizes alone. */
module CompactionLaws {
  import opened Common
  import opened Messages
  import opened RangeSelection
  import opened Compaction
  import opened CompactionProofs
  import opened SummaryText

  // ----- which range --------------------------------------------------------------------------

  /** A piece of the division: one unit that cannot be summarised, or as many as can be summarised together. */
  predicate Piece(us: seq<Unit>, s: nat, e: nat, max: int) {
    && s < e <= |us|
    && if us[s].guarded || us[s].bytes > max then e == s + 1
       else
         && (forall k :: s <= k < e ==> !us[k].guarded && us[k].bytes <= max) && Sum(us[s..e]) <= max
         && (e < |us| && !us[e].guarded && us[e].bytes <= max ==> Sum(us[s..e]) + us[e].bytes > max)
  }

  predicate PaysOff(us: seq<Unit>, s: nat, e: nat, est: int, max: int)
    requires s < e <= |us|
  {
    !us[s].guarded && us[s].bytes <= max && Sum(us[s..e]) > est
  }

  /** Pieces side by side from unit `from` on. */
  predicate Division(us: seq<Unit>, from: nat, cuts: seq<nat>, max: int) {
    && cuts != [] && cuts[0] == from
    && forall i :: 0 < i < |cuts| ==> Piece(us, cuts[i - 1], cuts[i], max)
  }

  /** None of the pieces pays off. */
  predicate NonePays(us: seq<Unit>, cuts: seq<nat>, est: int, max: int) {
    forall i :: 0 < i < |cuts| ==> cuts[i - 1] < cuts[i] <= |us| && !PaysOff(us, cuts[i - 1], cuts[i], est, max)
  }

  lemma {:induction false} FoundIsFirst(us: seq<Unit>, s: nat, est: int, max: int) returns (cuts: seq<nat>)
    requires s <= |us|
    ensures Division(us, s, cuts, max) && NonePays(us, cuts, est, max)
    ensures var last := cuts[|cuts| - 1];
      match FirstRange(us, s, est, max)
      case None => last == |us|
      case Some(r) => r.0 == last && Piece(us, last, r.1, max) && PaysOff(us, last, r.1, est, max)
    decreases |us| - s
  {
    cuts := [s];
    if s < |us| {
      if Eligible(us[s], max) { ReachFrom(us, s, max); }
      var e := if Eligible(us[s], max) then Reach(us, s, 0, max) else s + 1;
      assert Piece(us, s, e, max);
      if !PaysOff(us, s, e, est, max) {
        var rest := FoundIsFirst(us, e, est, max);
        cuts := [s] + rest;
        assert forall i :: 0 < i < |cuts| ==> cuts[i] == rest[i - 1];
      }
    }
  }

  lemma PieceEnds(us: seq<Unit>, s: nat, d: nat, e: nat, max: int)
    requires Piece(us, s, d, max) && Piece(us, s, e, max)
    ensures e <= d
  {
    if d < e && Eligible(us[s], max) {
      SumPush(us, s, d);
      SumMonotone(us, s, s, d + 1, e);
    }
  }

  /** There is one division only: where a piece begins, it ends. */
  lemma PieceIsUnique(us: seq<Unit>, s: nat, d: nat, e: nat, max: int)
    requires Piece(us, s, d, max) && Piece(us, s, e, max)
    ensures d == e
  {
    PieceEnds(us, s, d, e, max);
    PieceEnds(us, s, e, d, max);
  }

  lemma OversizedIff(us: seq<Unit>, max: int)
    ensures Oversized(us, max) <==> exists k :: 0 <= k < |us| && !us[k].guarded && us[k].bytes > max
  {
    if Oversized(us, max) { var u :| u in us && Wide(u, max); }
    forall k | 0 <= k < |us| && !us[k].guarded && us[k].bytes > max ensures Oversized(us, max) {
      assert us[k] in us && Wide(us[k], max);
    }
  }

  /** The units cut off, the plan covers the first piece of the division that pays off; without one there is no
      plan, and the reason given is an unguarded unit that is too large for a summary, if there is one. */
  lemma PlanDecides(mt: Meter, ms: seq<Message>, st: Marks, opts: PlanOptions) returns (cuts: seq<nat>, e: nat)
    ensures var o := opts.WithDefaults(); var us := Guarded(mt, ms, st.input, o.retain);
      && Division(us, 0, cuts, o.summaryMax) && NonePays(us, cuts, o.estimate, o.summaryMax)
      && var s := cuts[|cuts| - 1];
         match BuildPlan(mt, ms, st, opts)
         case Range(plan) =>
           && Piece(us, s, e, o.summaryMax) && PaysOff(us, s, e, o.estimate, o.summaryMax)
           && plan.start == us[s].start && plan.end == us[e - 1].end
         case UncompactableUnit => s == |us| && exists k :: 0 <= k < |us| && !us[k].guarded && us[k].bytes > o.summaryMax
         case NoSafeRange => s == |us| && forall k :: 0 <= k < |us| ==> us[k].guarded || us[k].bytes <= o.summaryMax
  {
    var o := opts.WithDefaults();
    var us := Guarded(mt, ms, st.input, o.retain);
    cuts := FoundIsFirst(us, 0, o.estimate, o.summaryMax);
    var found := FirstRange(us, 0, o.estimate, o.summaryMax);
    e := if found.Some? then found.value.1 else 0;
    OversizedIff(us, o.summaryMax);
  }

  // ----- which units are guarded --------------------------------------------------------------

  /** Unit `k` and all before it are single system messages. */
  predicate InSystemBlock(ms: seq<Message>, k: nat) {
    var cs := Chunks(ms);
    k < |cs| && forall j :: 0 <= j <= k ==> |cs[j]| == 1 && cs[j] != [] && cs[j][0].role == System
  }

  /** A unit is guarded exactly if it is a group that is not closed, belongs to the leading system block, holds the
      input, or is one of the last ones, as many as are to be kept, and all of those lie behind the input. */
  lemma GuardedIff(mt: Meter, ms: seq<Message>, input: int, retain: int, k: nat)
    requires k < |Chunks(ms)|
    ensures var cs, u := Chunks(ms), Guarded(mt, ms, input, retain)[k];
      && u.start == Offset(cs, k) && u.end == Offset(cs, k + 1) && u.bytes == Visible(mt, cs[k])
      && (u.guarded <==>
        || OpenGroup(cs[k]) || InSystemBlock(ms, k) || Offset(cs, k) <= input < Offset(cs, k + 1)
        || (k >= |cs| - retain && !(Offset(cs, k) <= input < |ms|)))
  {
    var cs, us := Chunks(ms), Units(mt, ms);
    GuardedUnit(mt, ms, input, retain, k);
    UnitIs(mt, ms, k);
    assert InSystemBlock(ms, k) <==> Leading(us, ms, k) by { BlockIsLeading(mt, ms, k); }
    assert (forall j :: k <= j < |us| ==> !HoldsInput(us[j], input)) <==> !(Offset(cs, k) <= input < |ms|) by {
      InputBehind(mt, ms, input, k);
    }
  }

  lemma {:induction false} BlockIsLeading(mt: Meter, ms: seq<Message>, k: nat)
    requires k < |Chunks(ms)|
    ensures |Units(mt, ms)| == |Chunks(ms)| && LaidOut(Units(mt, ms), ms)
    ensures InSystemBlock(ms, k) <==> Leading(Units(mt, ms), ms, k)
  {
    UnitsLaidOut(mt, ms);
    var cs := Chunks(ms);
    forall j | 0 <= j <= k
      ensures var u := Units(mt, ms)[j]; u.end - u.start == |cs[j]| && cs[j] != [] && cs[j][0] == ms[u.start]
    {
      UnitIs(mt, ms, j);
      ChunkAt(ms, j);
      OffsetStep(cs, j);
    }
  }

  lemma {:induction false} InputBehind(mt: Meter, ms: seq<Message>, input: int, k: nat)
    requires k < |Chunks(ms)| == |Units(mt, ms)|
    ensures (forall j :: k <= j < |Units(mt, ms)| ==> !HoldsInput(Units(mt, ms)[j], input))
       <==> !(Offset(Chunks(ms), k) <= input < |ms|)
  {
    var cs, us := Chunks(ms), Units(mt, ms);
    OffsetTotal(ms);
    if Offset(cs, k) <= input < |ms| {
      var j := Locate(cs, input);
      if j < k { OffsetMonotone(cs, j + 1, k); }
      UnitIs(mt, ms, j);
      assert HoldsInput(us[j], input);
    } else {
      forall j | k <= j < |us| ensures !HoldsInput(us[j], input) {
        UnitIs(mt, ms, j);
        OffsetMonotone(cs, k, j);
      }
    }
  }

  // ----- applying -----------------------------------------------------------------------------

  /** A plan is applied exactly if its range lies in the list, still holds what was planned, begins and ends
      between two units, spares the input, and the summary is not blank; otherwise the first of these that fails
      is the reason. What is applied replaces the range by one checkpoint, and moves the input with it. */
  lemma ApplyDecides(ms: seq<Message>, plan: Plan, summary: string, st: Marks)
    ensures var a := ApplySummary(ms, plan, summary, st);
      if !(0 <= plan.start < plan.end <= |ms|) then a == Rejected(OutOfBounds)
      else if ms[plan.start..plan.end] != plan.messages then a == Rejected(RangeChanged)
      else if !Boundary(ms, plan.start) || !Boundary(ms, plan.end) then a == Rejected(CutsGroup)
      else if plan.start <= st.input < plan.end then a == Rejected(ContainsInput)
      else if Trim(summary) == "" then a == Rejected(EmptySummary)
      else
        && a.Done? && |a.messages| == |ms| - (plan.end - plan.start) + 1
        && a.messages[..plan.start] == ms[..plan.start] && a.messages[plan.start + 1..] == ms[plan.end..]
        && a.messages[plan.start] == Checkpoint(summary)
        && a.marks.input == (if st.input < plan.start then st.input else st.input - |ms| + |a.messages|)
  {
    if 0 <= plan.start < plan.end <= |ms| {
      CutIffInsideUnit(ms, plan.start);
      CutIffInsideUnit(ms, plan.end);
    }
  }

  /** Zero or less stands for 32 KiB of input, five units to keep and a summary of 2 KiB; any other size is meant as
      it is. */
  lemma DefaultsAre(o: PlanOptions)
    ensures PlanOptions(0, 0, 0).WithDefaults() == PlanOptions(32768, 5, 2048)
    ensures o.summaryMax <= 0 && o.retain <= 0 && o.estimate <= 0 ==> o.WithDefaults() == PlanOptions(0, 0, 0).WithDefaults()
    ensures o.summaryMax > 0 && o.retain > 0 && o.estimate > 0 ==> o.WithDefaults() == o
  {}

  // ----- the text of a checkpoint --------------------------------------------------------------

  /** White space as Unicode has it, by code point. */
  lemma SpacesAre(c: char)
    ensures IsSpace(c) <==>
      var n := c as int;
      || 9 <= n <= 13 || n == 32 || n == 133 || n == 160 || n == 5760 || 8192 <= n <= 8202
      || n == 8232 || n == 8233 || n == 8239 || n == 8287 || n == 12288
  {}

  /** A checkpoint is a message of the user with one text: the trimmed summary, escaped, between its tags. */
  lemma CheckpointIs(summary: string)
    ensures var m := Checkpoint(summary);
      && m.role == User && m.calls == [] && m.callId == "" && !m.isError && |m.content| == 1 && m.content[0].Text?
      && m.content[0].text == "<compacted-summary untrusted=\"true\">" + "\n" + NOTE + "\n"
           + ReplaceAll(Trim(summary), "</compacted-summary>", "< /compacted-summary>") + "\n" + "</compacted-summary>"
  {}

  predicate AllSpace(s: string) { forall i :: 0 <= i < |s| ==> IsSpace(s[i]) }

  lemma {:induction false} TrimLeftIs(s: string) returns (i: nat)
    ensures i <= |s| && TrimLeft(s) == s[i..] && AllSpace(s[..i]) && (i < |s| ==> !IsSpace(s[i]))
  {
    i := 0;
    if s != [] && IsSpace(s[0]) {
      i := TrimLeftIs(s[1..]);
      assert s[..i + 1] == [s[0]] + s[1..][..i] && s[1..][i..] == s[i + 1..];
      i := i + 1;
    } else {
      assert s[0..] == s;
    }
  }

  lemma {:induction false} TrimRightIs(s: string) returns (j: nat)
    ensures j <= |s| && TrimRight(s) == s[..j] && AllSpace(s[j..]) && (j > 0 ==> !IsSpace(s[j - 1]))
  {
    j := |s|;
    if s != [] && IsSpace(s[|s| - 1]) {
      j := TrimRightIs(s[..|s| - 1]);
      assert s[j..] == s[..|s| - 1][j..] + [s[|s| - 1]] && s[..|s| - 1][..j] == s[..j];
    } else {
      assert s[..|s|] == s;
    }
  }

  /** Trimming takes away the spaces around a text, all of them and nothing else. */
  lemma TrimIs(s: string) returns (i: nat, j: nat)
    ensures i <= j <= |s| && Trim(s) == s[i..j] && AllSpace(s[..i]) && AllSpace(s[j..])
    ensures i < j ==> !IsSpace(s[i]) && !IsSpace(s[j - 1])
    ensures Trim(s) == "" <==> AllSpace(s)
  {
    i := TrimLeftIs(s);
    var k := TrimRightIs(s[i..]);
    j := i + k;
    assert s[i..][..k] == s[i..j] && s[i..][k..] == s[j..];
    if i < j { assert s[i..][k - 1] == s[j - 1]; }
    if Trim(s) == "" { assert s == s[..i] + s[j..]; }
  }

  function Join(pieces: seq<string>, glue: string): string {
    if pieces == [] then "" else if |pieces| == 1 then pieces[0] else pieces[0] + glue + Join(pieces[1..], glue)
  }

  lemma {:induction false} JoinCons(piece: string, rest: seq<string>, glue: string)
    requires rest != []
    ensures Join([piece] + rest, glue) == piece + glue + Join(rest, glue)
  {
    assert ([piece] + rest)[1..] == rest;
  }

  /** Lengthening the first piece lengthens the text. */
  lemma {:induction false} JoinLonger(c: char, pieces: seq<string>, glue: string)
    requires pieces != []
    ensures Join([[c] + pieces[0]] + pieces[1..], glue) == [c] + Join(pieces, glue)
    ensures pieces[0] <= Join(pieces, glue)
  {
    if |pieces| > 1 {
      JoinCons([c] + pieces[0], pieces[1..], glue);
      assert [c] + pieces[0] + glue + Join(pieces[1..], glue) == [c] + (pieces[0] + glue + Join(pieces[1..], glue));
    }
  }

  predicate Free(s: string, tag: string) { forall i :: 0 <= i <= |s| ==> !At(s, tag, i) }

  lemma StartCarries(a: string, b: string, tag: string)
    requires a <= b
    ensures At(a, tag, 0) ==> At(b, tag, 0)
  {
    if At(a, tag, 0) { assert b[..|tag|] == a[..|tag|]; }
  }

  lemma BehindFirst(c: char, piece: string, tag: string, i: nat)
    requires 0 < i
    ensures At([c] + piece, tag, i) ==> At(piece, tag, i - 1)
  {
    if At([c] + piece, tag, i) { BehindPrefix([c], piece, tag, i); }
  }

  lemma FreeLonger(c: char, piece: string, s: string, tag: string)
    requires Free(piece, tag) && piece <= s && !At([c] + s, tag, 0)
    ensures Free([c] + piece, tag)
  {
    forall i | 0 <= i <= |piece| + 1 ensures !At([c] + piece, tag, i) {
      if i > 0 { BehindFirst(c, piece, tag, i); } else { StartCarries([c] + piece, [c] + s, tag); }
    }
  }

  /** Replacing a tag cuts the text at its occurrences, from the left, and joins the pieces with what stands for it. */
  lemma {:induction false} ReplacedPieces(s: string, tag: string, sub: string) returns (pieces: seq<string>)
    requires tag != ""
    ensures pieces != [] && Join(pieces, tag) == s && Join(pieces, sub) == ReplaceAll(s, tag, sub)
    ensures forall p :: 0 <= p < |pieces| ==> Free(pieces[p], tag)
    decreases |s|
  {
    if |s| < |tag| {
      pieces := [s];
    } else if s[..|tag|] == tag {
      var rest := ReplacedPieces(s[|tag|..], tag, sub);
      pieces := [""] + rest;
      JoinCons("", rest, tag);
      JoinCons("", rest, sub);
      assert s == tag + s[|tag|..];
    } else {
      var rest := ReplacedPieces(s[1..], tag, sub);
      pieces := [[s[0]] + rest[0]] + rest[1..];
      JoinLonger(s[0], rest, tag);
      JoinLonger(s[0], rest, sub);
      assert s == [s[0]] + s[1..];
      FreeLonger(s[0], rest[0], s[1..], tag);
    }
  }

  // ----- groups and sizes ---------------------------------------------------------------------

  /** The message at `i` answers this call. */
  predicate AnswersAt(c: seq<Message>, call: Call, i: nat) { 0 < i < |c| && c[i].callId == call.id }

  predicate IsAnswer(c: seq<Message>, i: nat)
    requires c != []
  {
    exists call :: call in c[0].calls && AnswersAt(c, call, i)
  }

  /** Every call has an answer, every result answers a call, and no two results answer the same one. */
  ghost predicate Matched(c: seq<Message>)
    requires c != []
  {
    && (forall call :: call in c[0].calls ==> exists i :: AnswersAt(c, call, i))
    && (forall i :: 0 < i < |c| ==> IsAnswer(c, i))
    && (forall i, j :: 0 < i < j < |c| ==> c[i].callId != c[j].callId)
  }

  lemma CompleteIsMatched(c: seq<Message>)
    requires Complete(c)
    ensures Matched(c)
  {
    var ids, calls := ResultIds(c[1..]), c[0].calls;
    assert forall i :: 0 < i < |c| ==> ids[i - 1] == c[i].callId;
    forall call | call in calls ensures exists i :: AnswersAt(c, call, i) {
      assert call.id in CallIds(calls);
      var k :| 0 <= k < |ids| && ids[k] == call.id;
      assert AnswersAt(c, call, k + 1);
    }
    forall i | 0 < i < |c| ensures IsAnswer(c, i) {
      assert ids[i - 1] in CallIds(calls);
      var call :| call in calls && call.id == ids[i - 1];
      assert AnswersAt(c, call, i);
    }
    forall i, j | 0 < i < j < |c| ensures c[i].callId != c[j].callId { assert ids[i - 1] != ids[j - 1]; }
  }

  lemma MatchedIsComplete(c: seq<Message>)
    requires c != [] && Matched(c)
    ensures Complete(c)
  {
    var ids, calls := ResultIds(c[1..]), c[0].calls;
    assert forall i :: 0 <= i < |ids| ==> ids[i] == c[i + 1].callId;
    forall i, j | 0 <= i < j < |ids| ensures ids[i] != ids[j] { assert c[i + 1].callId != c[j + 1].callId; }
    forall x ensures x in ids <==> x in CallIds(calls) {
      if x in ids {
        var k :| 0 <= k < |ids| && ids[k] == x;
        assert IsAnswer(c, k + 1);
        var call :| call in calls && AnswersAt(c, call, k + 1);
      }
      if x in CallIds(calls) {
        var call :| call in calls && call.id == x;
        var i :| AnswersAt(c, call, i);
        assert ids[i - 1] == x;
      }
    }
  }

  /** A group is complete exactly if calls and results match one by one; it is open if it makes calls and they do
      not. */
  lemma CompleteIff(c: seq<Message>)
    requires c != []
    ensures Complete(c) <==> Matched(c)
    ensures OpenGroup(c) <==> c[0].role == Assistant && c[0].calls != [] && !Matched(c)
  {
    if Complete(c) { CompleteIsMatched(c); }
    if Matched(c) { MatchedIsComplete(c); }
  }

  /** The first unit of a list is one message, or a message of the assistant that makes calls with all the tool
      results right behind it. */
  lemma UnitIsGroup(ms: seq<Message>)
    requires ms != []
    ensures var n := UnitLength(ms);
      && (ms[0].role != Assistant || ms[0].calls == [] ==> n == 1)
      && (ms[0].role == Assistant && ms[0].calls != [] ==>
            && (forall i :: 1 <= i < n ==> ms[i].role == Tool) && (n < |ms| ==> ms[n].role != Tool))
  {
    forall i | 1 <= i < UnitLength(ms) ensures ms[i] == ms[1..][i - 1] {}
  }

  /** Where the images of a content stand, from position `k` on. */
  function ImagesFrom(content: seq<Block>, k: nat): set<nat> { set i: nat | k <= i < |content| && content[i].Image? }

  lemma {:induction false} ImagesAre(content: seq<Block>, k: nat)
    requires k <= |content|
    ensures Images(content[k..]) == |ImagesFrom(content, k)|
    decreases |content| - k
  {
    var here := ImagesFrom(content, k);
    if k == |content| {
      assert here == {};
    } else {
      ImagesAre(content, k + 1);
      assert content[k..][1..] == content[k + 1..] && content[k..][0] == content[k];
      var rest := ImagesFrom(content, k + 1);
      if content[k].Image? { assert here == rest + {k}; } else { assert here == rest; }
    }
  }

  /** A list weighs what its messages weigh: the bytes of each, and 4096 for every image, up to the largest int. */
  lemma {:induction false} SizeIs(mt: Meter, ms: seq<Message>, m: Message)
    ensures Total(mt, []) == 0
    ensures Total(mt, ms + [m]) == Total(mt, ms) + mt.projected(m) + 4096 * |ImagesFrom(m.content, 0)|
    ensures Visible(mt, ms) == if Total(mt, ms) <= 0x7FFF_FFFF_FFFF_FFFF then Total(mt, ms) else 0x7FFF_FFFF_FFFF_FFFF
    ensures forall b: nat :: var sum := Visible(mt, ms) + b;
      SaturatingAdd(Visible(mt, ms), b) == if sum <= 0x7FFF_FFFF_FFFF_FFFF then sum else 0x7FFF_FFFF_FFFF_FFFF
  {
    ImagesAre(m.content, 0);
    assert m.content[0..] == m.content;
    TotalAppend(mt, ms, [m]);
    assert [m][1..] == [];
  }
}
