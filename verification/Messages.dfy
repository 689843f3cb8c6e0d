/** Messages of a run, and the tool-call units compaction and pruning work on
    (pi/harness/prune.go, compaction.go, meter.go). */
module Messages {
  import opened Common

  datatype Role = System | User | Assistant | Tool

  datatype Block = Text(text: string) | Image(url: string)

  datatype Message = Message(
    role: Role, content: seq<Block>, calls: seq<Call>, callId: string, toolName: string, isError: bool)

  // ----- sizes ----------------------------------------------------------------------------

  const MAX_INT: nat := 0x7FFF_FFFF_FFFF_FFFF
  const IMAGE_BYTES: nat := 1024 * 4

  /** The JSON encoder, seen only through the byte lengths it yields: of a message's visible
      projection and of its content. */
  datatype Meter = Meter(projected: Message -> nat, content: seq<Block> -> nat)

  function Images(content: seq<Block>): nat {
    if content == [] then 0 else (if content[0].Image? then 1 else 0) + Images(content[1..])
  }

  function Weight(mt: Meter, m: Message): nat { Images(m.content) * IMAGE_BYTES + mt.projected(m) }

  /** Exact visible bytes of a list. */
  function Total(mt: Meter, ms: seq<Message>): nat {
    if ms == [] then 0 else Weight(mt, ms[0]) + Total(mt, ms[1..])
  }

  /** What the saturating accumulation reports. */
  function Visible(mt: Meter, ms: seq<Message>): nat {
    if Total(mt, ms) > MAX_INT then MAX_INT else Total(mt, ms)
  }

  function ContentTotal(mt: Meter, ms: seq<Message>): nat {
    if ms == [] then 0 else mt.content(ms[0].content) + ContentTotal(mt, ms[1..])
  }

  function SaturatingAdd(a: nat, b: nat): nat { if b > 0 && a > MAX_INT - b then MAX_INT else a + b }

  lemma {:induction false} TotalAppend(mt: Meter, a: seq<Message>, b: seq<Message>)
    ensures Total(mt, a + b) == Total(mt, a) + Total(mt, b)
  {
    if a == [] {
      assert a + b == b;
    } else {
      assert (a + b)[1..] == a[1..] + b;
      TotalAppend(mt, a[1..], b);
    }
  }

  // ----- units ----------------------------------------------------------------------------

  predicate IsHead(m: Message) { m.role == Assistant && m.calls != [] }

  function ToolPrefix(ms: seq<Message>): nat
    ensures ToolPrefix(ms) <= |ms|
    ensures forall i :: 0 <= i < ToolPrefix(ms) ==> ms[i].role == Tool
    ensures ToolPrefix(ms) < |ms| ==> ms[ToolPrefix(ms)].role != Tool
  {
    if ms == [] || ms[0].role != Tool then 0 else 1 + ToolPrefix(ms[1..])
  }

  /** The first unit: an assistant with calls and the tool results right behind it, or one message. */
  function UnitLength(ms: seq<Message>): (n: nat)
    requires ms != []
    ensures 1 <= n <= |ms|
  {
    if IsHead(ms[0]) then 1 + ToolPrefix(ms[1..]) else 1
  }

  /** The list cut into its units. */
  function Chunks(ms: seq<Message>): seq<seq<Message>>
    decreases |ms|
  {
    if ms == [] then [] else [ms[..UnitLength(ms)]] + Chunks(ms[UnitLength(ms)..])
  }

  function Flatten(cs: seq<seq<Message>>): seq<Message> {
    if cs == [] then [] else cs[0] + Flatten(cs[1..])
  }

  lemma {:induction false} FlattenCons(c: seq<Message>, cs: seq<seq<Message>>)
    ensures Flatten([c] + cs) == c + Flatten(cs)
  {
    assert ([c] + cs)[1..] == cs;
  }

  lemma TakeAndDrop(ms: seq<Message>, n: nat)
    requires n <= |ms|
    ensures ms[..n] + ms[n..] == ms
  {}

  lemma {:induction false} FlattenChunks(ms: seq<Message>)
    ensures Flatten(Chunks(ms)) == ms
    decreases |ms|
  {
    if ms != [] {
      var n := UnitLength(ms);
      FlattenChunks(ms[n..]);
      FlattenCons(ms[..n], Chunks(ms[n..]));
      TakeAndDrop(ms, n);
    }
  }

  function CallIds(calls: seq<Call>): set<string> { set c | c in calls :: c.id }

  predicate Distinct(s: seq<string>) { forall i, j :: 0 <= i < j < |s| ==> s[i] != s[j] }

  function ResultIds(ms: seq<Message>): seq<string> { seq(|ms|, i requires 0 <= i < |ms| => ms[i].callId) }

  /** A group is complete when its results answer its calls: none missing, foreign or repeated. */
  predicate Complete(c: seq<Message>) {
    && c != []
    && var ids := ResultIds(c[1..]);
    && Distinct(ids)
    && (set x | x in ids) == CallIds(c[0].calls)
  }

  predicate OpenGroup(c: seq<Message>) { c != [] && IsHead(c[0]) && !Complete(c) }

  /** Every unit is one message, or a head followed by tool results only. */
  predicate IsUnit(c: seq<Message>) {
    && c != []
    && (|c| > 1 ==> IsHead(c[0]))
    && (forall i :: 1 <= i < |c| ==> c[i].role == Tool)
  }

  // ----- cutting and joining --------------------------------------------------------------

  /** Where unit `k` starts. */
  function Offset(cs: seq<seq<Message>>, k: nat): nat
    requires k <= |cs|
  {
    if k == 0 then 0 else |cs[0]| + Offset(cs[1..], k - 1)
  }

  /** `k` is the start of a unit, or the end of the list. */
  predicate Boundary(ms: seq<Message>, k: nat) {
    exists j :: 0 <= j <= |Chunks(ms)| && Offset(Chunks(ms), j) == k
  }

  lemma {:induction false} OffsetSplits(cs: seq<seq<Message>>, k: nat)
    requires k <= |cs|
    ensures Offset(cs, k) == |Flatten(cs[..k])| <= |Flatten(cs)|
    ensures Flatten(cs)[..Offset(cs, k)] == Flatten(cs[..k])
    ensures Flatten(cs)[Offset(cs, k)..] == Flatten(cs[k..])
  {
    if k > 0 {
      OffsetSplits(cs[1..], k - 1);
      assert cs[..k][1..] == cs[1..][..k - 1] && cs[k..] == cs[1..][k - 1..];
    }
  }

  /** A tiling: every part is a unit, and no result stands behind a group it could belong to. */
  predicate Tiled(cs: seq<seq<Message>>) {
    && (forall k :: 0 <= k < |cs| ==> IsUnit(cs[k]))
    && (forall k :: 0 < k < |cs| && IsHead(cs[k - 1][0]) ==> cs[k][0].role != Tool)
  }

  lemma {:induction false} ChunksAreTiled(ms: seq<Message>)
    ensures Tiled(Chunks(ms))
    decreases |ms|
  {
    if ms != [] {
      var n := UnitLength(ms);
      var rest := Chunks(ms[n..]);
      ChunksAreTiled(ms[n..]);
      if rest != [] {
        assert rest[0][0] == ms[n];
        assert forall k :: 0 < k < |Chunks(ms)| ==> Chunks(ms)[k] == rest[k - 1];
      }
    }
  }

  lemma {:induction false} ToolPrefixOf(a: seq<Message>, b: seq<Message>)
    requires forall i :: 0 <= i < |a| ==> a[i].role == Tool
    requires b == [] || b[0].role != Tool
    ensures ToolPrefix(a + b) == |a|
  {
    if a == [] {
      assert a + b == b;
    } else {
      assert (a + b)[1..] == a[1..] + b;
      ToolPrefixOf(a[1..], b);
    }
  }

  /** The first part of a tiling is the first unit of the list. */
  lemma FirstUnit(c: seq<Message>, rest: seq<Message>)
    requires IsUnit(c) && (IsHead(c[0]) ==> rest == [] || rest[0].role != Tool)
    ensures UnitLength(c + rest) == |c|
  {
    assert (c + rest)[1..] == c[1..] + rest;
    if IsHead(c[0]) { ToolPrefixOf(c[1..], rest); }
  }

  /** A tiling is the only one its list has. */
  lemma {:induction false} TilingIsUnique(cs: seq<seq<Message>>)
    requires Tiled(cs)
    ensures Chunks(Flatten(cs)) == cs
  {
    if cs != [] {
      var c, rest := cs[0], Flatten(cs[1..]);
      assert Tiled(cs[1..]) by {
        assert forall k :: 0 <= k < |cs[1..]| ==> cs[1..][k] == cs[k + 1];
      }
      TilingIsUnique(cs[1..]);
      if |cs| > 1 { assert rest[0] == cs[1][0]; }
      FirstUnit(c, rest);
      assert (c + rest)[..|c|] == c && (c + rest)[|c|..] == rest;
    }
  }

  lemma {:induction false} FlattenAppend(a: seq<seq<Message>>, b: seq<seq<Message>>)
    ensures Flatten(a + b) == Flatten(a) + Flatten(b)
  {
    if a == [] {
      assert a + b == b;
    } else {
      assert (a + b)[1..] == a[1..] + b;
      FlattenAppend(a[1..], b);
    }
  }

  /** Appending messages that do not begin with a tool result leaves every unit as it was. */
  lemma {:induction false} ChunksAppend(a: seq<Message>, b: seq<Message>)
    requires b == [] || b[0].role != Tool
    ensures Chunks(a + b) == Chunks(a) + Chunks(b)
  {
    ChunksAreTiled(a);
    ChunksAreTiled(b);
    FlattenChunks(a);
    FlattenChunks(b);
    FlattenAppend(Chunks(a), Chunks(b));
    TilingIsUnique(Chunks(a) + Chunks(b));
  }

  function SpliceUnits(cs: seq<seq<Message>>, a: nat, b: nat, m: Message): seq<seq<Message>>
    requires a <= b <= |cs|
  {
    cs[..a] + [[m]] + cs[b..]
  }

  lemma SpliceTiled(cs: seq<seq<Message>>, a: nat, b: nat, m: Message)
    requires Tiled(cs) && a <= b <= |cs| && m.role != Tool && !IsHead(m)
    ensures Tiled(SpliceUnits(cs, a, b, m))
  {
    var t := SpliceUnits(cs, a, b, m);
    assert forall k :: 0 <= k < a ==> t[k] == cs[k];
    assert t[a] == [m];
    assert forall k :: a < k < |t| ==> t[k] == cs[b + k - a - 1];
  }

  lemma SpliceFlat(cs: seq<seq<Message>>, a: nat, b: nat, m: Message)
    requires a <= b <= |cs|
    ensures Flatten(SpliceUnits(cs, a, b, m)) == Flatten(cs[..a]) + [m] + Flatten(cs[b..])
  {
    FlattenAppend(cs[..a] + [[m]], cs[b..]);
    FlattenAppend(cs[..a], [[m]]);
    assert Flatten([[m]]) == [m];
  }

  /** Replacing the units from `a` to `b` by one plain message replaces exactly those units. */
  lemma {:induction false} ChunksSplice(ms: seq<Message>, a: nat, b: nat, m: Message)
    requires a <= b <= |Chunks(ms)| && m.role != Tool && !IsHead(m)
    ensures var cs := Chunks(ms);
      && Offset(cs, a) <= Offset(cs, b) <= |ms|
      && Chunks(ms[..Offset(cs, a)] + [m] + ms[Offset(cs, b)..]) == SpliceUnits(cs, a, b, m)
  {
    var cs := Chunks(ms);
    ChunksAreTiled(ms);
    FlattenChunks(ms);
    OffsetSplits(cs, a);
    OffsetSplits(cs, b);
    OffsetMonotone(cs, a, b);
    SpliceTiled(cs, a, b, m);
    SpliceFlat(cs, a, b, m);
    TilingIsUnique(SpliceUnits(cs, a, b, m));
  }

  lemma {:induction false} OffsetMonotone(cs: seq<seq<Message>>, a: nat, b: nat)
    requires a <= b <= |cs|
    ensures Offset(cs, a) <= Offset(cs, b)
  {
    if a > 0 { OffsetMonotone(cs[1..], a - 1, b - 1); }
  }

  lemma {:induction false} OffsetStep(cs: seq<seq<Message>>, k: nat)
    requires k < |cs|
    ensures Offset(cs, k + 1) == Offset(cs, k) + |cs[k]|
  {
    if k > 0 { OffsetStep(cs[1..], k - 1); }
  }

  lemma {:induction false} OffsetTotal(ms: seq<Message>)
    ensures Offset(Chunks(ms), |Chunks(ms)|) == |ms|
  {
    OffsetSplits(Chunks(ms), |Chunks(ms)|);
    FlattenChunks(ms);
    assert Chunks(ms)[..|Chunks(ms)|] == Chunks(ms);
  }

  /** Unit `k` is the stretch of messages between its offsets. */
  lemma ChunkAt(ms: seq<Message>, k: nat)
    requires k < |Chunks(ms)|
    ensures var cs := Chunks(ms);
      Offset(cs, k) < Offset(cs, k + 1) <= |ms| && cs[k] == ms[Offset(cs, k)..Offset(cs, k + 1)]
  {
    var cs := Chunks(ms);
    ChunksAreTiled(ms);
    FlattenChunks(ms);
    OffsetStep(cs, k);
    OffsetSplits(cs, k);
    OffsetSplits(cs, k + 1);
    assert cs[k..][0] == cs[k];
    assert ms[Offset(cs, k)..][..|cs[k]|] == cs[k];
  }
}
