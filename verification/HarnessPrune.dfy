/** Pruning as pi/harness/prune.go does it: scan the groups, mark, overwrite. */
module HarnessPrune {
  import opened Messages
  import opened Prune
  import opened HarnessScan

  datatype PruneStats = PruneStats(pruned: nat, bytesBefore: nat, bytesAfter: nat)

  function CompleteOnly(groups: seq<ToolGroup>): seq<ToolGroup> {
    if groups == [] then [] else (if groups[0].complete then [groups[0]] else []) + CompleteOnly(groups[1..])
  }

  predicate ResultIn(groups: seq<ToolGroup>, i: nat) { exists g :: g in groups && i in g.results }

  function LastGroups(groups: seq<ToolGroup>, count: int): seq<ToolGroup> {
    if count <= 0 then [] else if |groups| > count then groups[|groups| - count..] else groups
  }

  lemma ResultInSnoc(groups: seq<ToolGroup>, g: ToolGroup, i: nat)
    ensures ResultIn(groups + [g], i) <==> ResultIn(groups, i) || i in g.results
  {
    if i in g.results { assert g in groups + [g]; }
    if ResultIn(groups, i) {
      var h :| h in groups && i in h.results;
      assert h in groups + [g];
    }
  }

  /** All result positions of some groups, as the marking loops collect them. */
  method CollectResults(groups: seq<ToolGroup>) returns (indexes: set<nat>)
    ensures forall i: nat :: i in indexes <==> ResultIn(groups, i)
  {
    indexes := {};
    for k := 0 to |groups|
      invariant forall i: nat :: i in indexes <==> ResultIn(groups[..k], i)
    {
      ghost var before := indexes;
      indexes := indexes + (set x | x in groups[k].results);
      assert groups[..k + 1] == groups[..k] + [groups[k]];
      forall i: nat ensures i in indexes <==> ResultIn(groups[..k + 1], i) {
        ResultInSnoc(groups[..k], groups[k], i);
      }
    }
    assert groups[..|groups|] == groups;
  }

  method SelectComplete(groups: seq<ToolGroup>) returns (complete: seq<ToolGroup>)
    ensures complete == CompleteOnly(groups)
  {
    complete := [];
    assert groups[0..] == groups;
    for k := 0 to |groups|
      invariant complete + CompleteOnly(groups[k..]) == CompleteOnly(groups)
    {
      assert groups[k..][1..] == groups[k + 1..];
      if groups[k].complete { complete := complete + [groups[k]]; }
    }
    assert groups[|groups|..] == [];
  }

  method ProtectedToolResultIndexes(groups: seq<ToolGroup>, count: int) returns (indexes: set<nat>)
    ensures forall i: nat :: i in indexes <==> ResultIn(LastGroups(CompleteOnly(groups), count), i)
  {
    if count <= 0 { return {}; }
    var complete := SelectComplete(groups);
    if |complete| > count { complete := complete[|complete| - count..]; }
    indexes := CollectResults(complete);
  }

  // ----- what the marks mean ------------------------------------------------------------------

  predicate ListedAt(ms: seq<Message>, complete: seq<ToolGroup>, hs: seq<nat>, k: nat) {
    k < |complete| && k < |hs| && hs[k] < |ms| && complete[k] == GroupOf(ms, hs[k])
  }

  lemma {:induction false} CompleteCons(g: ToolGroup, rest: seq<ToolGroup>)
    ensures CompleteOnly([g] + rest) == if g.complete then [g] + CompleteOnly(rest) else CompleteOnly(rest)
  {
    assert ([g] + rest)[1..] == rest;
  }

  /** The complete groups, in order, are the groups of the complete heads. */
  lemma {:induction false} CompleteGroupsAre(ms: seq<Message>, i: nat, k: nat)
    requires i <= |ms|
    ensures |CompleteOnly(GroupsFrom(ms, i))| == |CompleteHeads(ms, i)|
    ensures k < |CompleteHeads(ms, i)| ==> ListedAt(ms, CompleteOnly(GroupsFrom(ms, i)), CompleteHeads(ms, i), k)
    decreases |ms| - i
  {
    if i < |ms| {
      var rest := GroupsFrom(ms, i + 1);
      CompleteGroupsAre(ms, i + 1, if CompleteAt(ms, i) && k > 0 then k - 1 else k);
      if IsHead(ms[i]) {
        CompleteCons(GroupOf(ms, i), rest);
      } else {
        assert GroupsFrom(ms, i) == rest;
      }
    }
  }

  lemma InResults(ms: seq<Message>, h: nat, i: nat)
    requires h < |ms|
    ensures i in GroupOf(ms, h).results <==> h < i < GroupEnd(ms, h)
  {
    var r := GroupOf(ms, h).results;
    if h < i < GroupEnd(ms, h) { assert r[i - h - 1] == i; }
  }

  /** A position is exposed exactly when it is marked prunable and not marked protected. */
  lemma {:induction false} MarksMean(ms: seq<Message>, count: int, i: nat)
    ensures var complete := CompleteOnly(GroupsFrom(ms, 0));
      Exposed(ms, count, i) <==> ResultIn(complete, i) && !ResultIn(LastGroups(complete, count), i)
  {
    var complete, hs := CompleteOnly(GroupsFrom(ms, 0)), CompleteHeads(ms, 0);
    CompleteGroupsAre(ms, 0, 0);
    if Exposed(ms, count, i) {
      var h :| 0 <= h < |ms| && h < Cutoff(ms, count) && ResultOf(ms, h, i);
      EveryHeadIsListed(ms, 0, h);
      var k :| 0 <= k < |hs| && hs[k] == h;
      MarkedGroup(ms, count, k, i);
    }
    if ResultIn(complete, i) {
      var g :| g in complete && i in g.results;
      var k :| 0 <= k < |complete| && complete[k] == g;
      CompleteGroupsAre(ms, 0, k);
      HeadAt(ms, 0, k);
      InResults(ms, hs[k], i);
      MarkedGroup(ms, count, k, i);
    }
  }

  /** Group `j` of the complete ones holds position `i` only if it is the group `i` belongs to. */
  lemma {:induction false} HolderIs(ms: seq<Message>, k: nat, j: nat, i: nat)
    requires k < |CompleteHeads(ms, 0)| && CompleteHeads(ms, 0)[k] < |ms|
    requires ResultOf(ms, CompleteHeads(ms, 0)[k], i) && j < |CompleteHeads(ms, 0)|
    ensures ListedAt(ms, CompleteOnly(GroupsFrom(ms, 0)), CompleteHeads(ms, 0), j)
    ensures i in CompleteOnly(GroupsFrom(ms, 0))[j].results <==> j == k
  {
    var hs := CompleteHeads(ms, 0);
    CompleteGroupsAre(ms, 0, j);
    HeadAt(ms, 0, j);
    InResults(ms, hs[j], i);
    if ResultOf(ms, hs[j], i) {
      ResultsAreDisjoint(ms, hs[k], hs[j], i);
      if j < k { HeadsAscend(ms, 0, j, k); }
      if k < j { HeadsAscend(ms, 0, k, j); }
    }
  }

  /** In a tail of the groups, exactly the group of `i` holds it. */
  lemma InTail(groups: seq<ToolGroup>, from: nat, k: nat, i: nat)
    requires from <= |groups| && k < |groups|
    requires forall j :: 0 <= j < |groups| ==> (i in groups[j].results <==> j == k)
    ensures ResultIn(groups[from..], i) <==> k >= from
  {
    if k >= from { assert groups[from..][k - from] == groups[k]; }
    if ResultIn(groups[from..], i) {
      var g :| g in groups[from..] && i in g.results;
      var j :| 0 <= j < |groups[from..]| && groups[from..][j] == g;
      assert groups[from + j] == g;
    }
  }

  /** For a result of complete group `k`. */
  lemma {:induction false} MarkedGroup(ms: seq<Message>, count: int, k: nat, i: nat)
    requires k < |CompleteHeads(ms, 0)| && CompleteHeads(ms, 0)[k] < |ms|
    requires ResultOf(ms, CompleteHeads(ms, 0)[k], i)
    ensures var complete := CompleteOnly(GroupsFrom(ms, 0));
      && ResultIn(complete, i)
      && (Exposed(ms, count, i) <==> !ResultIn(LastGroups(complete, count), i))
  {
    var complete := CompleteOnly(GroupsFrom(ms, 0));
    CompleteGroupsAre(ms, 0, k);
    forall j | 0 <= j < |complete| ensures i in complete[j].results <==> j == k { HolderIs(ms, k, j, i); }
    assert complete[k] in complete;
    ExposedIffOld(ms, count, k, i);
    if count > 0 {
      InTail(complete, if |complete| > count then |complete| - count else 0, k, i);
    }
  }

  // ----- the pruning loop ---------------------------------------------------------------------

  method PruneOne(mt: Meter, opts: PruneOptions, message: Message, exposed: bool) returns (pruned: bool, next: Message)
    ensures next == if exposed then PruneMessage(mt, opts, message) else message
    ensures pruned <==> next != message
  {
    pruned, next := false, message;
    if message.role != Tool || !exposed { return; }
    if message.toolName !in opts.tools { return; }
    if message.isError && opts.keepErrors { return; }
    var size := mt.content(message.content);
    if size <= opts.maxBytes || IsMarker(message.content) { return; }
    var placeholder := Placeholder(message.toolName, size);
    if mt.content(placeholder) >= size { return; }
    pruned, next := true, message.(content := placeholder);
  }

  /** In how many of the first `n` positions the lists differ. */
  function Differences(a: seq<Message>, b: seq<Message>, n: nat): nat
    requires n <= |a| == |b|
  {
    if n == 0 then 0 else Differences(a, b, n - 1) + if a[n - 1] == b[n - 1] then 0 else 1
  }

  lemma {:induction false} SameDifferences(a: seq<Message>, b: seq<Message>, c: seq<Message>, n: nat)
    requires n <= |a| == |b| == |c| && forall i :: 0 <= i < n ==> b[i] == c[i]
    ensures Differences(a, b, n) == Differences(a, c, n)
  {
    if n > 0 { SameDifferences(a, b, c, n - 1); }
  }

  lemma {:induction false} NoDifference(a: seq<Message>, b: seq<Message>, n: nat)
    requires n <= |a| == |b|
    ensures Differences(a, b, n) == 0 <==> a[..n] == b[..n]
  {
    if n > 0 {
      NoDifference(a, b, n - 1);
      assert a[..n] == a[..n - 1] + [a[n - 1]] && b[..n] == b[..n - 1] + [b[n - 1]];
    }
  }

  predicate Overwritten(mt: Meter, opts: PruneOptions, exposed: set<nat>, i: nat, m: Message, r: Message) {
    r == if i in exposed then PruneMessage(mt, opts, m) else m
  }

  /** Overwriting the exposed results one by one. */
  method Overwrite(mt: Meter, messages: seq<Message>, opts: PruneOptions, exposed: set<nat>)
    returns (result: seq<Message>, count: nat)
    ensures |result| == |messages|
    ensures forall i: nat :: i < |messages| ==> Overwritten(mt, opts, exposed, i, messages[i], result[i])
    ensures count == Differences(messages, result, |messages|)
  {
    var cells := new Message[|messages|](i requires 0 <= i < |messages| => messages[i]);
    count := 0;
    for index := 0 to |messages|
      invariant forall i: nat :: i < index ==> Overwritten(mt, opts, exposed, i, messages[i], cells[i])
      invariant forall i :: index <= i < |messages| ==> cells[i] == messages[i]
      invariant count == Differences(messages, cells[..], index)
    {
      ghost var before := cells[..];
      var pruned, next := PruneOne(mt, opts, messages[index], index in exposed);
      if pruned {
        cells[index] := next;
        count := count + 1;
      }
      SameDifferences(messages, before, cells[..], index);
    }
    result := cells[..];
  }

  /** The positions the pruning loop may overwrite. */
  method ExposedResults(messages: seq<Message>, protectGroups: int) returns (exposed: set<nat>)
    ensures forall i: nat :: i < |messages| ==> (i in exposed <==> Exposed(messages, protectGroups, i))
  {
    var groups := ScanToolGroups(messages);
    var protected := ProtectedToolResultIndexes(groups, protectGroups);
    var complete := SelectComplete(groups);
    var prunable := CollectResults(complete);
    forall i: nat | i < |messages| ensures i in prunable - protected <==> Exposed(messages, protectGroups, i) {
      MarksMean(messages, protectGroups, i);
    }
    exposed := prunable - protected;
  }

  lemma OverwrittenIsPruned(mt: Meter, opts: PruneOptions, ms: seq<Message>, exposed: set<nat>, result: seq<Message>)
    requires opts.enable && |result| == |ms|
    requires forall i: nat :: i < |ms| ==> (i in exposed <==> Exposed(ms, opts.protectGroups, i))
    requires forall i: nat :: i < |ms| ==> Overwritten(mt, opts, exposed, i, ms[i], result[i])
    ensures result == Pruned(mt, opts, ms)
  {
    forall i: nat | i < |ms| ensures result[i] == Pruned(mt, opts, ms)[i] {
      assert Overwritten(mt, opts, exposed, i, ms[i], result[i]);
    }
  }

  method PruneToolResults(mt: Meter, messages: seq<Message>, opts: PruneOptions)
    returns (result: seq<Message>, stats: PruneStats)
    ensures result == Pruned(mt, opts, messages)
    ensures stats.bytesBefore == ContentTotal(mt, messages) && stats.bytesAfter == ContentTotal(mt, result)
    ensures |result| == |messages| && stats.pruned == Differences(messages, result, |messages|)
    ensures stats.pruned > 0 <==> result != messages
  {
    var before := ContentBytes(mt, messages);
    NoDifference(messages, messages, |messages|);
    if !opts.enable { return messages, PruneStats(0, before, before); }
    var exposed := ExposedResults(messages, opts.protectGroups);
    var count;
    result, count := Overwrite(mt, messages, opts, exposed);
    OverwrittenIsPruned(mt, opts, messages, exposed, result);
    NoDifference(messages, result, |messages|);
    assert messages[..|messages|] == messages && result[..|messages|] == result;
    var after := ContentBytes(mt, result);
    stats := PruneStats(count, before, after);
  }
}
