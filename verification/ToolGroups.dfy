/** What appending, pruning and compaction do to the tool groups of a list. */
module ToolGroups {
  import opened Messages
  import opened Compaction
  import opened CompactionProofs
  import opened Prune

  /** A unit that is neither an open group nor a result without its call. */
  predicate Regular(c: seq<Message>)
    requires c != []
  {
    !OpenGroup(c) && c[0].role != Tool
  }

  /** What the loop appends: closed units. */
  predicate ClosedBatch(b: seq<Message>) {
    forall k :: 0 <= k < |Chunks(b)| ==> Chunks(b)[k] != [] && Regular(Chunks(b)[k])
  }

  predicate IsCheckpoint(m: Message) { m.role == User && m.calls == [] && m.callId == "" }

  /** The open groups of a list, in order. */
  function OpenOf(cs: seq<seq<Message>>): seq<seq<Message>> {
    if cs == [] then [] else (if OpenGroup(cs[0]) then [cs[0]] else []) + OpenOf(cs[1..])
  }

  predicate NoStray(cs: seq<seq<Message>>) { forall k :: 0 <= k < |cs| ==> cs[k] != [] && cs[k][0].role != Tool }

  lemma {:induction false} OpenAppend(a: seq<seq<Message>>, b: seq<seq<Message>>)
    ensures OpenOf(a + b) == OpenOf(a) + OpenOf(b)
  {
    if a == [] {
      assert a + b == b;
    } else {
      assert (a + b)[1..] == a[1..] + b;
      OpenAppend(a[1..], b);
    }
  }

  lemma {:induction false} NoneOpen(cs: seq<seq<Message>>)
    requires forall k :: 0 <= k < |cs| ==> !OpenGroup(cs[k])
    ensures OpenOf(cs) == []
  {
    if cs != [] { NoneOpen(cs[1..]); }
  }

  lemma {:induction false} OpenPointwise(a: seq<seq<Message>>, b: seq<seq<Message>>)
    requires |a| == |b| && forall k :: 0 <= k < |a| ==> LikeUnits(a[k], b[k])
    ensures OpenOf(a) == OpenOf(b)
  {
    if a != [] { OpenPointwise(a[1..], b[1..]); }
  }

  lemma ShapeUnit(a: seq<Message>, b: seq<Message>)
    requires SameShape(a, b) && a != []
    ensures UnitLength(a) == UnitLength(b)
    ensures SameShape(a[..UnitLength(a)], b[..UnitLength(a)]) && SameShape(a[UnitLength(a)..], b[UnitLength(a)..])
  {
    assert a[0].(content := []) == b[0].(content := []);
    ShapeToolPrefix(a[1..], b[1..]);
  }

  /** Lists of the same shape fall into units of the same shape. */
  lemma {:induction false} ShapeChunks(a: seq<Message>, b: seq<Message>, k: nat)
    requires SameShape(a, b)
    ensures |Chunks(a)| == |Chunks(b)|
    ensures k < |Chunks(a)| ==> SameShape(Chunks(a)[k], Chunks(b)[k])
    ensures k <= |Chunks(a)| ==> Offset(Chunks(a), k) == Offset(Chunks(b), k)
    decreases |a|
  {
    if a != [] {
      ShapeUnit(a, b);
      var n := UnitLength(a);
      var p, q := Chunks(a[n..]), Chunks(b[n..]);
      ShapeChunks(a[n..], b[n..], if k > 0 then k - 1 else 0);
      assert Chunks(a) == [a[..n]] + p && Chunks(b) == [b[..n]] + q;
      assert Chunks(a)[1..] == p && Chunks(b)[1..] == q;
    }
  }

  /** The unit of a complete group is the whole group. */
  lemma CompleteUnit(ms: seq<Message>, h: nat) returns (j: nat)
    requires h < |ms| && CompleteAt(ms, h)
    ensures j < |Chunks(ms)| && !OpenGroup(Chunks(ms)[j])
    ensures Offset(Chunks(ms), j) == h && Offset(Chunks(ms), j + 1) == GroupEnd(ms, h)
  {
    j := HeadUnit(ms, h);
    ChunkAt(ms, j);
  }

  lemma UnitsApart(cs: seq<seq<Message>>, j: nat, k: nat, i: int)
    requires j < |cs| && k < |cs|
    requires Offset(cs, j) <= i < Offset(cs, j + 1) && Offset(cs, k) <= i < Offset(cs, k + 1)
    ensures j == k
  {
    if j < k { OffsetMonotone(cs, j + 1, k); }
    if k < j { OffsetMonotone(cs, k + 1, j); }
  }

  /** No result of an open group is exposed: its unit would be the unit of a complete group. */
  lemma OpenIsNotExposed(ms: seq<Message>, count: int, k: nat, i: nat)
    requires k < |Chunks(ms)| && OpenGroup(Chunks(ms)[k])
    requires Offset(Chunks(ms), k) <= i < Offset(Chunks(ms), k + 1)
    ensures !Exposed(ms, count, i)
  {
    if Exposed(ms, count, i) {
      var h :| 0 <= h < |ms| && h < Cutoff(ms, count) && ResultOf(ms, h, i);
      var j := CompleteUnit(ms, h);
      UnitsApart(Chunks(ms), j, k, i);
    }
  }

  lemma UnitUntouched(ms: seq<Message>, ps: seq<Message>, k: nat)
    requires SameShape(ms, ps) && k < |Chunks(ms)|
    requires forall i :: 0 <= i < |ms| && Offset(Chunks(ms), k) <= i < Offset(Chunks(ms), k + 1) ==> ps[i] == ms[i]
    ensures k < |Chunks(ps)| && Chunks(ps)[k] == Chunks(ms)[k]
  {
    ShapeChunks(ms, ps, k);
    ShapeChunks(ms, ps, k + 1);
    ChunkAt(ms, k);
    ChunkAt(ps, k);
    var from, to := Offset(Chunks(ms), k), Offset(Chunks(ms), k + 1);
    assert ms[from..to] == ps[from..to];
  }

  lemma {:induction false} PruneKeepsOpen(mt: Meter, o: PruneOptions, ms: seq<Message>, k: nat)
    requires k < |Chunks(ms)| && OpenGroup(Chunks(ms)[k])
    ensures k < |Chunks(Pruned(mt, o, ms))| && Chunks(Pruned(mt, o, ms))[k] == Chunks(ms)[k]
  {
    PrunedShape(mt, o, ms);
    forall i | 0 <= i < |ms| && Offset(Chunks(ms), k) <= i < Offset(Chunks(ms), k + 1)
      ensures Pruned(mt, o, ms)[i] == ms[i]
    {
      OpenIsNotExposed(ms, o.protectGroups, k, i);
    }
    UnitUntouched(ms, Pruned(mt, o, ms), k);
  }

  lemma ShapeOpen(p: seq<Message>, q: seq<Message>)
    requires SameShape(p, q) && p != []
    ensures OpenGroup(p) <==> OpenGroup(q)
    ensures p[0].role == q[0].role
  {
    ShapeComplete(p, q);
    assert p[0].(content := []) == q[0].(content := []);
  }

  predicate SameGroups(ms: seq<Message>, ns: seq<Message>) {
    OpenOf(Chunks(ns)) == OpenOf(Chunks(ms)) && (NoStray(Chunks(ms)) ==> NoStray(Chunks(ns)))
  }

  lemma AppendGroups(ms: seq<Message>, b: seq<Message>)
    requires ClosedBatch(b)
    ensures SameGroups(ms, ms + b)
  {
    if b != [] { assert Chunks(b)[0][0] == b[0]; }
    ChunksAppend(ms, b);
    OpenAppend(Chunks(ms), Chunks(b));
    NoneOpen(Chunks(b));
  }

  predicate LikeUnits(p: seq<Message>, q: seq<Message>) {
    p != [] && q != [] && (OpenGroup(p) <==> OpenGroup(q)) && (OpenGroup(p) ==> p == q) && p[0].role == q[0].role
  }

  lemma PruneGroups(mt: Meter, o: PruneOptions, ms: seq<Message>)
    ensures SameGroups(ms, Pruned(mt, o, ms))
  {
    var cs, ps := Chunks(ms), Chunks(Pruned(mt, o, ms));
    PrunedShape(mt, o, ms);
    ShapeChunks(ms, Pruned(mt, o, ms), 0);
    forall k | 0 <= k < |cs| ensures LikeUnits(cs[k], ps[k]) {
      ShapeChunks(ms, Pruned(mt, o, ms), k);
      ChunkAt(ms, k);
      ShapeOpen(cs[k], ps[k]);
      if OpenGroup(cs[k]) { PruneKeepsOpen(mt, o, ms, k); }
    }
    OpenPointwise(cs, ps);
  }

  /** A middle part without open groups does not show. */
  lemma {:induction false} OpenAround(x: seq<seq<Message>>, y: seq<seq<Message>>, z: seq<seq<Message>>)
    requires forall k :: 0 <= k < |y| ==> !OpenGroup(y[k])
    ensures OpenOf(x + y + z) == OpenOf(x) + OpenOf(z)
  {
    NoneOpen(y);
    OpenAppend(x + y, z);
    OpenAppend(x, y);
  }

  lemma {:induction false} OpenSplice(cs: seq<seq<Message>>, a: nat, b: nat, m: Message)
    requires a < b <= |cs| && IsCheckpoint(m) && forall k :: a <= k < b ==> !OpenGroup(cs[k])
    ensures OpenOf(SpliceUnits(cs, a, b, m)) == OpenOf(cs)
  {
    assert cs == cs[..a] + cs[a..b] + cs[b..];
    OpenAround(cs[..a], cs[a..b], cs[b..]);
    OpenAround(cs[..a], [[m]], cs[b..]);
  }

  lemma StraySplice(cs: seq<seq<Message>>, a: nat, b: nat, m: Message)
    requires a < b <= |cs| && IsCheckpoint(m) && NoStray(cs)
    ensures NoStray(SpliceUnits(cs, a, b, m))
  {}

  lemma {:induction false} SpliceGroups(ms: seq<Message>, a: nat, b: nat, m: Message)
    requires a < b <= |Chunks(ms)| && IsCheckpoint(m)
    requires forall k :: a <= k < b ==> !OpenGroup(Chunks(ms)[k])
    requires Offset(Chunks(ms), a) <= Offset(Chunks(ms), b) <= |ms|
    ensures SameGroups(ms, Splice(ms, Offset(Chunks(ms), a), Offset(Chunks(ms), b), m))
  {
    ChunksSplice(ms, a, b, m);
    OpenSplice(Chunks(ms), a, b, m);
    if NoStray(Chunks(ms)) { StraySplice(Chunks(ms), a, b, m); }
  }
}
