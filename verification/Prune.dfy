/** Pruning old read-only tool results (pi/harness/prune.go). */
module Prune {
  import opened Messages

  const PRUNED_PREFIX := "[工具结果已裁剪]"

  datatype PruneOptions = PruneOptions(
    enable: bool, protectGroups: int, maxBytes: int, keepErrors: bool, tools: set<string>)

  // ----- groups by position -----------------------------------------------------------------

  function GroupEnd(ms: seq<Message>, h: nat): (e: nat)
    requires h < |ms|
    ensures h < e <= |ms|
  {
    h + 1 + ToolPrefix(ms[h + 1..])
  }

  predicate CompleteAt(ms: seq<Message>, h: nat)
    requires h < |ms|
  {
    IsHead(ms[h]) && Complete(ms[h..GroupEnd(ms, h)])
  }

  /** Heads of complete groups from position `i` on, in order. */
  function CompleteHeads(ms: seq<Message>, i: nat): seq<nat>
    requires i <= |ms|
    decreases |ms| - i
  {
    if i == |ms| then [] else (if CompleteAt(ms, i) then [i] else []) + CompleteHeads(ms, i + 1)
  }

  /** Complete groups starting at or behind this position are protected. */
  function Cutoff(ms: seq<Message>, count: int): nat {
    var hs := CompleteHeads(ms, 0);
    if count <= 0 then |ms| else if |hs| <= count then 0 else hs[|hs| - count]
  }

  /** Message `i` is a result of the complete group headed by `h`. */
  predicate ResultOf(ms: seq<Message>, h: nat, i: nat)
    requires h < |ms|
  {
    CompleteAt(ms, h) && h < i < GroupEnd(ms, h)
  }

  predicate Exposed(ms: seq<Message>, count: int, i: nat) {
    exists h :: 0 <= h < |ms| && h < Cutoff(ms, count) && ResultOf(ms, h, i)
  }

  // ----- one message ------------------------------------------------------------------------

  function Decimal(n: nat): string {
    if n < 10 then ["0123456789"[n]] else Decimal(n / 10) + ["0123456789"[n % 10]]
  }

  function Placeholder(tool: string, size: nat): seq<Block> {
    [Text(PRUNED_PREFIX + " tool=" + tool + "，原 " + Decimal(size) + " 字节。如仍需要，请重新执行对应只读工具。")]
  }

  predicate IsMarker(content: seq<Block>) {
    |content| == 1 && content[0].Text? && PRUNED_PREFIX <= content[0].text
  }

  predicate Prunes(mt: Meter, o: PruneOptions, m: Message) {
    && m.role == Tool
    && m.toolName in o.tools
    && !(m.isError && o.keepErrors)
    && mt.content(m.content) > o.maxBytes
    && !IsMarker(m.content)
    && mt.content(Placeholder(m.toolName, mt.content(m.content))) < mt.content(m.content)
  }

  function PruneMessage(mt: Meter, o: PruneOptions, m: Message): Message {
    if Prunes(mt, o, m) then m.(content := Placeholder(m.toolName, mt.content(m.content))) else m
  }

  function PrunedAt(mt: Meter, o: PruneOptions, ms: seq<Message>, i: nat): Message
    requires i < |ms|
  {
    if o.enable && Exposed(ms, o.protectGroups, i) then PruneMessage(mt, o, ms[i]) else ms[i]
  }

  function Pruned(mt: Meter, o: PruneOptions, ms: seq<Message>): (r: seq<Message>)
    ensures |r| == |ms|
  {
    seq(|ms|, i requires 0 <= i < |ms| => PrunedAt(mt, o, ms, i))
  }

  // ----- shape ------------------------------------------------------------------------------

  /** The same messages, up to their content. */
  predicate SameShape(a: seq<Message>, b: seq<Message>) {
    |a| == |b| && forall i :: 0 <= i < |a| ==> a[i].(content := []) == b[i].(content := [])
  }

  lemma PrunedShape(mt: Meter, o: PruneOptions, ms: seq<Message>)
    ensures SameShape(ms, Pruned(mt, o, ms))
    ensures forall i :: 0 <= i < |ms| && ms[i].role != Tool ==> Pruned(mt, o, ms)[i] == ms[i]
  {}

  lemma {:induction false} ShapeToolPrefix(a: seq<Message>, b: seq<Message>)
    requires SameShape(a, b)
    ensures ToolPrefix(a) == ToolPrefix(b)
  {
    if a != [] {
      assert a[0].(content := []) == b[0].(content := []);
      ShapeToolPrefix(a[1..], b[1..]);
    }
  }

  lemma ShapeComplete(a: seq<Message>, b: seq<Message>)
    requires SameShape(a, b)
    ensures Complete(a) <==> Complete(b)
  {
    if a != [] {
      assert a[0].(content := []) == b[0].(content := []);
      forall i | 0 <= i < |a[1..]| ensures a[1..][i].callId == b[1..][i].callId {
        assert a[i + 1].(content := []) == b[i + 1].(content := []);
      }
      assert ResultIds(a[1..]) == ResultIds(b[1..]);
    }
  }

  lemma ShapeCompleteAt(a: seq<Message>, b: seq<Message>, h: nat)
    requires SameShape(a, b) && h < |a|
    ensures GroupEnd(a, h) == GroupEnd(b, h) && (CompleteAt(a, h) <==> CompleteAt(b, h))
  {
    assert a[h].(content := []) == b[h].(content := []);
    ShapeToolPrefix(a[h + 1..], b[h + 1..]);
    ShapeComplete(a[h..GroupEnd(a, h)], b[h..GroupEnd(b, h)]);
  }

  lemma {:induction false} ShapeHeads(a: seq<Message>, b: seq<Message>, i: nat)
    requires SameShape(a, b) && i <= |a|
    ensures CompleteHeads(a, i) == CompleteHeads(b, i)
    decreases |a| - i
  {
    if i < |a| {
      ShapeHeads(a, b, i + 1);
      ShapeCompleteAt(a, b, i);
      assert CompleteAt(a, i) <==> CompleteAt(b, i);
    }
  }

  lemma ShapeExposed(a: seq<Message>, b: seq<Message>, count: int, i: nat)
    requires SameShape(a, b)
    ensures Exposed(a, count, i) <==> Exposed(b, count, i)
  {
    ShapeHeads(a, b, 0);
    forall h | 0 <= h < |a| ensures ResultOf(a, h, i) <==> ResultOf(b, h, i) {
      ShapeCompleteAt(a, b, h);
    }
  }

  // ----- results ----------------------------------------------------------------------------

  lemma PrunedOnce(mt: Meter, o: PruneOptions, m: Message)
    ensures PruneMessage(mt, o, PruneMessage(mt, o, m)) == PruneMessage(mt, o, m)
  {
    var size := mt.content(m.content);
    var p := Placeholder(m.toolName, size);
    assert PRUNED_PREFIX <= p[0].text;
    assert IsMarker(p);
  }

  /** Pruning a pruned list changes nothing. */
  lemma PruneIsIdempotent(mt: Meter, o: PruneOptions, ms: seq<Message>)
    ensures Pruned(mt, o, Pruned(mt, o, ms)) == Pruned(mt, o, ms)
  {
    var once := Pruned(mt, o, ms);
    PrunedShape(mt, o, ms);
    forall i | 0 <= i < |ms| ensures Pruned(mt, o, once)[i] == once[i] {
      ShapeExposed(ms, once, o.protectGroups, i);
      PrunedOnce(mt, o, ms[i]);
    }
  }

  lemma {:induction false} BytesPointwise(mt: Meter, a: seq<Message>, b: seq<Message>)
    requires |a| == |b| && forall i :: 0 <= i < |a| ==>
      b[i] == a[i] || mt.content(b[i].content) < mt.content(a[i].content)
    ensures ContentTotal(mt, b) <= ContentTotal(mt, a)
    ensures ContentTotal(mt, b) == ContentTotal(mt, a) <==> a == b
  {
    if a != [] {
      BytesPointwise(mt, a[1..], b[1..]);
      assert a == [a[0]] + a[1..] && b == [b[0]] + b[1..];
    }
  }

  /** Content bytes strictly drop exactly when some message was pruned, and never grow. */
  lemma {:induction false} PruneShrinksIffChanged(mt: Meter, o: PruneOptions, ms: seq<Message>)
    ensures ContentTotal(mt, Pruned(mt, o, ms)) <= ContentTotal(mt, ms)
    ensures ContentTotal(mt, Pruned(mt, o, ms)) < ContentTotal(mt, ms) <==> Pruned(mt, o, ms) != ms
  {
    BytesPointwise(mt, ms, Pruned(mt, o, ms));
  }

  // ----- which groups are exposed -------------------------------------------------------------

  lemma {:induction false} HeadAt(ms: seq<Message>, i: nat, k: nat)
    requires i <= |ms| && k < |CompleteHeads(ms, i)|
    ensures i <= CompleteHeads(ms, i)[k] < |ms| && CompleteAt(ms, CompleteHeads(ms, i)[k])
    decreases |ms| - i
  {
    var rest := CompleteHeads(ms, i + 1);
    if !CompleteAt(ms, i) {
      assert CompleteHeads(ms, i) == rest;
      HeadAt(ms, i + 1, k);
    } else if k > 0 {
      assert CompleteHeads(ms, i)[k] == rest[k - 1];
      HeadAt(ms, i + 1, k - 1);
    }
  }

  lemma {:induction false} HeadsAscend(ms: seq<Message>, i: nat, j: nat, k: nat)
    requires i <= |ms| && j < k < |CompleteHeads(ms, i)|
    ensures CompleteHeads(ms, i)[j] < CompleteHeads(ms, i)[k]
    decreases |ms| - i
  {
    var rest := CompleteHeads(ms, i + 1);
    if !CompleteAt(ms, i) {
      assert CompleteHeads(ms, i) == rest;
      HeadsAscend(ms, i + 1, j, k);
    } else if j > 0 {
      assert CompleteHeads(ms, i)[j] == rest[j - 1] && CompleteHeads(ms, i)[k] == rest[k - 1];
      HeadsAscend(ms, i + 1, j - 1, k - 1);
    } else {
      assert CompleteHeads(ms, i)[k] == rest[k - 1];
      HeadAt(ms, i + 1, k - 1);
    }
  }

  lemma {:induction false} EveryHeadIsListed(ms: seq<Message>, i: nat, h: nat)
    requires i <= h < |ms| && CompleteAt(ms, h)
    ensures h in CompleteHeads(ms, i)
    decreases |ms| - i
  {
    if i < h { EveryHeadIsListed(ms, i + 1, h); }
  }

  lemma ResultIsTool(ms: seq<Message>, g: nat, i: nat)
    requires g < i < |ms| && i < GroupEnd(ms, g)
    ensures ms[i].role == Tool
  {
    assert ms[g + 1..][i - g - 1] == ms[i];
  }

  /** Two groups never share a result: the later one would have to be headed by a tool message. */
  lemma ResultsAreDisjoint(ms: seq<Message>, g: nat, h: nat, i: nat)
    requires g < |ms| && h < |ms| && ResultOf(ms, g, i) && ResultOf(ms, h, i)
    ensures g == h
  {
    if g < h { ResultIsTool(ms, g, h); }
    if h < g { ResultIsTool(ms, h, g); }
  }

  /** Of the complete groups, in order, exactly the last `count` are protected. */
  lemma {:induction false} ExposedIffOld(ms: seq<Message>, count: int, k: nat, i: nat)
    requires k < |CompleteHeads(ms, 0)| && CompleteHeads(ms, 0)[k] < |ms|
    requires ResultOf(ms, CompleteHeads(ms, 0)[k], i)
    ensures Exposed(ms, count, i) <==> k < |CompleteHeads(ms, 0)| - (if count > 0 then count else 0)
  {
    var hs := CompleteHeads(ms, 0);
    var h := hs[k];
    assert Exposed(ms, count, i) <==> h < Cutoff(ms, count) by {
      forall g | 0 <= g < |ms| && ResultOf(ms, g, i) ensures g == h { ResultsAreDisjoint(ms, g, h, i); }
    }
    if 0 < count < |hs| {
      var c := |hs| - count;
      if k < c { HeadsAscend(ms, 0, k, c); }
      if c < k { HeadsAscend(ms, 0, c, k); }
    }
  }

  /** Pruning touches the results of complete groups older than the protected ones, and nothing else. */
  lemma PrunesOnlyOldGroups(mt: Meter, o: PruneOptions, ms: seq<Message>, i: nat) returns (k: nat)
    requires i < |ms| && Pruned(mt, o, ms)[i] != ms[i]
    ensures k < |CompleteHeads(ms, 0)| - (if o.protectGroups > 0 then o.protectGroups else 0)
    ensures k < |CompleteHeads(ms, 0)| && CompleteHeads(ms, 0)[k] < |ms| && ResultOf(ms, CompleteHeads(ms, 0)[k], i)
    ensures Prunes(mt, o, ms[i]) && IsMarker(Pruned(mt, o, ms)[i].content)
  {
    var h :| 0 <= h < |ms| && h < Cutoff(ms, o.protectGroups) && ResultOf(ms, h, i);
    EveryHeadIsListed(ms, 0, h);
    k :| 0 <= k < |CompleteHeads(ms, 0)| && CompleteHeads(ms, 0)[k] == h;
    ExposedIffOld(ms, o.protectGroups, k, i);
    var p := Placeholder(ms[i].toolName, mt.content(ms[i].content));
    assert PRUNED_PREFIX <= p[0].text;
  }

  // ----- exactly what is pruned ---------------------------------------------------------------

  /** The number a row of digits stands for. */
  function Number(s: string): int {
    if s == [] then 0 else 10 * Number(s[..|s| - 1]) + (s[|s| - 1] as int - '0' as int)
  }

  lemma {:induction false} DecimalReads(n: nat)
    ensures Number(Decimal(n)) == n && Decimal(n) != []
  {
    if n < 10 {
      assert Decimal(n) == ["0123456789"[n]];
    } else {
      DecimalReads(n / 10);
      assert Decimal(n)[..|Decimal(n)| - 1] == Decimal(n / 10);
    }
  }

  /** The marker that stands for a content names the tool and how many bytes there were. */
  ghost predicate MarkerFor(content: seq<Block>, tool: string, size: nat) {
    exists digits: string :: Number(digits) == size
      && content == [Text("[工具结果已裁剪]" + " tool=" + tool + "，原 " + digits + " 字节。如仍需要，请重新执行对应只读工具。")]
  }

  lemma PlaceholderTells(tool: string, size: nat)
    ensures MarkerFor(Placeholder(tool, size), tool, size)
  {
    DecimalReads(size);
    assert Number(Decimal(size)) == size;
  }

  /** A message changes exactly if pruning is on and the message is a result of an old complete group, of a tool
      on the list, no error to be kept, longer than allowed, no marker yet and longer than its marker would be;
      then its content becomes that marker, and nothing else of it changes. */
  lemma PrunedIff(mt: Meter, o: PruneOptions, ms: seq<Message>, i: nat)
    requires i < |ms|
    ensures var m, size, r := ms[i], mt.content(ms[i].content), Pruned(mt, o, ms)[i];
      && (r != m <==>
        && o.enable && Exposed(ms, o.protectGroups, i) && m.toolName in o.tools && (m.isError ==> !o.keepErrors)
        && size > o.maxBytes && mt.content(Placeholder(m.toolName, size)) < size
        && !(|m.content| == 1 && m.content[0].Text? && "[工具结果已裁剪]" <= m.content[0].text))
      && (r != m ==> r == m.(content := r.content) && MarkerFor(r.content, m.toolName, size))
  {
    var m, size := ms[i], mt.content(ms[i].content);
    PlaceholderTells(m.toolName, size);
    if o.enable && Exposed(ms, o.protectGroups, i) {
      var h :| 0 <= h < |ms| && h < Cutoff(ms, o.protectGroups) && ResultOf(ms, h, i);
      ResultIsTool(ms, h, i);
      if Prunes(mt, o, m) { assert PruneMessage(mt, o, m).content != m.content; }
    }
  }
}
