/** The scanning loops of pi/harness: bytes, tool groups, units and their guards. */
module HarnessScan {
  import opened Common
  import opened Messages
  import opened RangeSelection
  import opened Compaction
  import opened CompactionProofs
  import opened Prune

  // ----- bytes --------------------------------------------------------------------------------

  function Saturated(n: nat): nat { if n > MAX_INT then MAX_INT else n }

  lemma {:induction false} ImagesAppend(a: seq<Block>, b: Block)
    ensures Images(a + [b]) == Images(a) + if b.Image? then 1 else 0
  {
    if a == [] {
      assert a + [b] == [b];
    } else {
      assert (a + [b])[1..] == a[1..] + [b];
      ImagesAppend(a[1..], b);
    }
  }

  method VisibleMessagesBytes(mt: Meter, messages: seq<Message>) returns (total: nat)
    ensures total == Visible(mt, messages)
  {
    total := 0;
    for i := 0 to |messages|
      invariant total == Visible(mt, messages[..i])
    {
      var content := messages[i].content;
      ghost var before := Total(mt, messages[..i]);
      for j := 0 to |content|
        invariant total == Saturated(before + Images(content[..j]) * IMAGE_BYTES)
      {
        assert content[..j + 1] == content[..j] + [content[j]];
        ImagesAppend(content[..j], content[j]);
        if content[j].Image? {
          total := SaturatingAdd(total, IMAGE_BYTES);
        }
      }
      assert content[..|content|] == content;
      total := SaturatingAdd(total, mt.projected(messages[i]));
      assert messages[..i + 1] == messages[..i] + [messages[i]];
      TotalAppend(mt, messages[..i], [messages[i]]);
      assert Total(mt, [messages[i]]) == Weight(mt, messages[i]);
    }
    assert messages[..|messages|] == messages;
  }

  method ContentBytes(mt: Meter, messages: seq<Message>) returns (total: nat)
    ensures total == ContentTotal(mt, messages)
  {
    total := 0;
    for i := 0 to |messages|
      invariant total + ContentTotal(mt, messages[i..]) == ContentTotal(mt, messages)
    {
      total := total + mt.content(messages[i].content);
      assert messages[i..][1..] == messages[i + 1..];
    }
  }

  // ----- tool groups --------------------------------------------------------------------------

  datatype ToolGroup = ToolGroup(start: nat, results: seq<nat>, complete: bool)

  function GroupOf(ms: seq<Message>, h: nat): ToolGroup
    requires h < |ms|
  {
    ToolGroup(h, Span(h + 1, GroupEnd(ms, h)), CompleteAt(ms, h))
  }

  /** The groups headed from position `i` on. */
  function GroupsFrom(ms: seq<Message>, i: nat): seq<ToolGroup>
    requires i <= |ms|
    decreases |ms| - i
  {
    if i == |ms| then [] else (if IsHead(ms[i]) then [GroupOf(ms, i)] else []) + GroupsFrom(ms, i + 1)
  }

  lemma EqualBySize(a: set<string>, b: set<string>)
    requires a <= b && |a| == |b|
    ensures a == b
  {
    if x :| x in b && x !in a {
      assert a <= b - {x};
      SubsetSize(a, b - {x});
    }
  }

  lemma {:induction false} SubsetSize(a: set<string>, b: set<string>)
    requires a <= b
    ensures |a| <= |b|
  {
    if x :| x in a {
      SubsetSize(a - {x}, b - {x});
    }
  }

  /** One more id keeps the ids distinct exactly when it is new. */
  lemma DistinctSnoc(s: seq<string>, x: string)
    ensures Distinct(s + [x]) <==> Distinct(s) && x !in s
  {
    var t := s + [x];
    if Distinct(t) {
      forall i | 0 <= i < |s| ensures s[i] != x { assert t[i] != t[|s|]; }
      forall i, j | 0 <= i < j < |s| ensures s[i] != s[j] { assert t[i] != t[j]; }
    }
  }

  function IdSet(ids: seq<string>): set<string> { set x | x in ids }

  method WantedIds(calls: seq<Call>) returns (want: set<string>)
    ensures want == CallIds(calls)
  {
    want := {};
    for i := 0 to |calls|
      invariant want == CallIds(calls[..i])
    {
      want := want + {calls[i].id};
      assert calls[..i + 1] == calls[..i] + [calls[i]];
    }
    assert calls[..|calls|] == calls;
  }

  lemma SpanSnoc(from: nat, to: nat)
    requires from <= to
    ensures Span(from, to + 1) == Span(from, to) + [to]
  {}

  /** Where the scan behind a head stops, and what it has seen by then. */
  lemma ScanStops(ms: seq<Message>, index: nat, cursor: nat)
    requires index < cursor <= |ms| && IsHead(ms[index])
    requires forall i :: index < i < cursor ==> ms[i].role == Tool
    requires cursor == |ms| || ms[cursor].role != Tool
    ensures GroupEnd(ms, index) == cursor
    ensures var ids := ResultIds(ms[index + 1..cursor]);
      CompleteAt(ms, index) <==> Distinct(ids) && IdSet(ids) == CallIds(ms[index].calls)
  {
    assert ms[index + 1..] == ms[index + 1..cursor] + ms[cursor..];
    ToolPrefixOf(ms[index + 1..cursor], ms[cursor..]);
    assert ms[index..cursor][1..] == ms[index + 1..cursor];
  }

  lemma ScanOne(ms: seq<Message>, from: nat, cursor: nat)
    requires from <= cursor < |ms|
    ensures var ids, id := ResultIds(ms[from..cursor]), ms[cursor].callId;
      && ResultIds(ms[from..cursor + 1]) == ids + [id]
      && (Distinct(ids + [id]) <==> Distinct(ids) && id !in IdSet(ids))
      && IdSet(ids + [id]) == IdSet(ids) + {id}
  {
    assert ms[from..cursor + 1] == ms[from..cursor] + [ms[cursor]];
    DistinctSnoc(ResultIds(ms[from..cursor]), ms[cursor].callId);
  }

  /** The inner loop: the run of results from `from` on, checked against the wanted ids. */
  method ScanResults(messages: seq<Message>, from: nat, want: set<string>)
    returns (cursor: nat, seen: set<string>, valid: bool, results: seq<nat>)
    requires from <= |messages|
    ensures from <= cursor <= |messages|
    ensures forall i :: from <= i < cursor ==> messages[i].role == Tool
    ensures cursor == |messages| || messages[cursor].role != Tool
    ensures seen == IdSet(ResultIds(messages[from..cursor]))
    ensures valid <==> Distinct(ResultIds(messages[from..cursor])) && seen <= want
    ensures results == Span(from, cursor)
  {
    cursor, seen, valid, results := from, {}, true, [];
    while cursor < |messages| && messages[cursor].role == Tool
      invariant from <= cursor <= |messages|
      invariant forall i :: from <= i < cursor ==> messages[i].role == Tool
      invariant seen == IdSet(ResultIds(messages[from..cursor]))
      invariant valid <==> Distinct(ResultIds(messages[from..cursor])) && seen <= want
      invariant results == Span(from, cursor)
    {
      ScanOne(messages, from, cursor);
      SpanSnoc(from, cursor);
      var id := messages[cursor].callId;
      if id !in want {
        valid := false;
      } else if id in seen {
        valid := false;
      }
      seen := seen + {id};
      results := results + [cursor];
      cursor := cursor + 1;
    }
  }

  /** The results behind one head. */
  method ScanGroup(messages: seq<Message>, index: nat) returns (group: ToolGroup)
    requires index < |messages| && IsHead(messages[index])
    ensures group == GroupOf(messages, index)
  {
    var want := WantedIds(messages[index].calls);
    var cursor, seen, valid, results := ScanResults(messages, index + 1, want);
    ScanStops(messages, index, cursor);
    if valid && |seen| == |want| { EqualBySize(seen, want); }
    group := ToolGroup(index, results, valid && |seen| == |want|);
  }

  lemma GroupsStep(ms: seq<Message>, index: nat, groups: seq<ToolGroup>)
    requires index < |ms|
    ensures groups + GroupsFrom(ms, index) ==
      (if IsHead(ms[index]) then groups + [GroupOf(ms, index)] else groups) + GroupsFrom(ms, index + 1)
  {}

  method ScanToolGroups(messages: seq<Message>) returns (groups: seq<ToolGroup>)
    ensures groups == GroupsFrom(messages, 0)
  {
    groups := [];
    for index := 0 to |messages|
      invariant groups + GroupsFrom(messages, index) == GroupsFrom(messages, 0)
    {
      GroupsStep(messages, index, groups);
      if IsHead(messages[index]) {
        var group := ScanGroup(messages, index);
        groups := groups + [group];
      }
    }
  }

  // ----- units --------------------------------------------------------------------------------

  lemma {:induction false} GroupsAre(ms: seq<Message>, i: nat, g: ToolGroup)
    requires i <= |ms|
    ensures g in GroupsFrom(ms, i) <==> i <= g.start < |ms| && IsHead(ms[g.start]) && g == GroupOf(ms, g.start)
    decreases |ms| - i
  {
    if i < |ms| {
      var first, rest := if IsHead(ms[i]) then [GroupOf(ms, i)] else [], GroupsFrom(ms, i + 1);
      GroupsAre(ms, i + 1, g);
      assert g in first + rest <==> g in first || g in rest;
    }
  }

  ghost predicate Indexes(ms: seq<Message>, byStart: map<nat, ToolGroup>) {
    forall h: nat :: (h in byStart <==> h < |ms| && IsHead(ms[h])) && (h in byStart ==> byStart[h] == GroupOf(ms, h))
  }

  method IndexGroups(messages: seq<Message>) returns (byStart: map<nat, ToolGroup>)
    ensures Indexes(messages, byStart)
  {
    var groups := ScanToolGroups(messages);
    byStart := map[];
    for i := 0 to |groups|
      invariant forall h: nat :: h in byStart <==> exists k :: 0 <= k < i && groups[k].start == h
      invariant forall h: nat :: h in byStart ==> byStart[h] in groups && byStart[h].start == h
    {
      byStart := byStart[groups[i].start := groups[i]];
    }
    forall h: nat
      ensures h in byStart <==> h < |messages| && IsHead(messages[h])
      ensures h in byStart ==> byStart[h] == GroupOf(messages, h)
    {
      if h in byStart { GroupsAre(messages, 0, byStart[h]); }
      if h < |messages| && IsHead(messages[h]) {
        GroupsAre(messages, 0, GroupOf(messages, h));
        var k :| 0 <= k < |groups| && groups[k] == GroupOf(messages, h);
      }
    }
  }

  /** What the splitting loop has to know about the unit that starts at `index`. */
  lemma UnitFrom(ms: seq<Message>, index: nat)
    requires index < |ms|
    ensures var end := if IsHead(ms[index]) then GroupEnd(ms, index) else index + 1;
      && index < end <= |ms|
      && Chunks(ms[index..]) == [ms[index..end]] + Chunks(ms[end..])
      && (OpenGroup(ms[index..end]) <==> IsHead(ms[index]) && !CompleteAt(ms, index))
  {
    var end := if IsHead(ms[index]) then GroupEnd(ms, index) else index + 1;
    var rest := ms[index..];
    assert rest[1..] == ms[index + 1..];
    assert end == index + UnitLength(rest);
    assert rest[..end - index] == ms[index..end] && rest[end - index..] == ms[end..];
  }

  function UnitAt(mt: Meter, ms: seq<Message>, index: nat): Unit
    requires index < |ms|
  {
    var end := if IsHead(ms[index]) then GroupEnd(ms, index) else index + 1;
    Unit(index, end, Visible(mt, ms[index..end]), IsHead(ms[index]) && !CompleteAt(ms, index))
  }

  predicate SplitTo(mt: Meter, ms: seq<Message>, units: seq<Unit>, index: nat, all: seq<Unit>) {
    index <= |ms| && units + UnitsFrom(mt, Chunks(ms[index..]), index) == all
  }

  lemma SplitStep(mt: Meter, ms: seq<Message>, units: seq<Unit>, index: nat, all: seq<Unit>)
    requires index < |ms| && SplitTo(mt, ms, units, index, all)
    ensures SplitTo(mt, ms, units + [UnitAt(mt, ms, index)], UnitAt(mt, ms, index).end, all)
  {
    UnitFrom(ms, index);
    var u := UnitAt(mt, ms, index);
    UnitsStep(mt, ms[index..u.end], Chunks(ms[u.end..]), index);
    AppendFirst(units, u, UnitsFrom(mt, Chunks(ms[u.end..]), u.end), all);
  }

  lemma AppendFirst<T>(a: seq<T>, x: T, rest: seq<T>, all: seq<T>)
    requires a + ([x] + rest) == all
    ensures (a + [x]) + rest == all
  {}

  lemma {:induction false} UnitsStep(mt: Meter, c: seq<Message>, cs: seq<seq<Message>>, at: nat)
    ensures UnitsFrom(mt, [c] + cs, at) == [Unit(at, at + |c|, Visible(mt, c), OpenGroup(c))] + UnitsFrom(mt, cs, at + |c|)
  {
    assert ([c] + cs)[1..] == cs;
  }

  /** The body of the splitting loop. */
  method MeasureUnit(mt: Meter, messages: seq<Message>, byStart: map<nat, ToolGroup>, index: nat) returns (unit: Unit)
    requires index < |messages| && Indexes(messages, byStart)
    ensures unit == UnitAt(mt, messages, index)
  {
    var end, open := index + 1, false;
    if index in byStart {
      var group := byStart[index];
      if |group.results| > 0 { end := group.results[|group.results| - 1] + 1; }
      open := !group.complete;
    }
    var bytes := VisibleMessagesBytes(mt, messages[index..end]);
    unit := Unit(index, end, bytes, open);
  }

  method SplitCompactionUnits(mt: Meter, messages: seq<Message>) returns (units: seq<Unit>)
    ensures units == Units(mt, messages)
  {
    var byStart := IndexGroups(messages);
    units := [];
    var index := 0;
    assert messages[0..] == messages;
    while index < |messages|
      invariant SplitTo(mt, messages, units, index, Units(mt, messages))
      decreases |messages| - index
    {
      var unit := MeasureUnit(mt, messages, byStart, index);
      SplitStep(mt, messages, units, index, Units(mt, messages));
      units := units + [unit];
      index := unit.end;
    }
  }
}
