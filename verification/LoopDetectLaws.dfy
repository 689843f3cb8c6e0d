/** What the loop detector decides and keeps, in numbers: the window of sixteen, the third call and the fifth
    outcome. */
module LoopDetectLaws {
  import opened Common
  import opened LoopDetect
  import opened LoopDetectProofs

  /** `s` is among the last `n` of `w`. */
  predicate AmongLast(w: seq<Signature>, n: nat, s: Signature) {
    exists k :: 0 <= k < |w| && |w| - n <= k && w[k] == s
  }

  lemma LastHolds(w: seq<Signature>, n: nat, s: Signature)
    ensures s in Last(w, n) <==> AmongLast(w, n, s)
  {
    var r := Last(w, n);
    if s in r {
      var k :| 0 <= k < |r| && r[k] == s;
      assert w[|w| - |r| + k] == s;
    }
    if AmongLast(w, n, s) {
      var k :| 0 <= k < |w| && |w| - n <= k && w[k] == s;
      assert r[k - (|w| - |r|)] == s;
    }
  }

  /** The signature is among the fifteen before each call of the batch. */
  predicate AlwaysNear(h: seq<Signature>, batch: seq<Signature>, s: Signature) {
    forall j :: 0 <= j < |batch| ==> AmongLast(h + batch[..j], 15, s)
  }

  /** A batch that is committed leaves the last sixteen signatures, and of what was known of a signature exactly
      that which was among the fifteen before each of its calls. */
  lemma {:induction false} CommitDecides(d: State, batch: seq<Signature>, s: Signature)
    requires batch != []
    ensures var w, e := d.history + batch, Commit(d, batch);
      && |e.history| == (if |w| < 16 then |w| else 16) && e.history == w[|w| - |e.history|..]
      && (s in e.stable <==> s in d.stable && AlwaysNear(d.history, batch, s))
      && (s in e.stable ==> e.stable[s] == d.stable[s])
      && (s in e.warned <==> s in d.warned && AlwaysNear(d.history, batch, s))
      && e.criticals == d.criticals
  {
    CommitHistory(d, batch);
    CommitForgetsOnly(d, batch);
    CommitKeepsMarkIff(d, batch, s);
    forall j | 0 <= j < |batch| ensures s in Last(d.history + batch[..j], 15) <==> AmongLast(d.history + batch[..j], 15, s) {
      LastHolds(d.history + batch[..j], 15, s);
    }
  }

  /** Where `s` stands among the last sixteen of `w`. */
  function Copies(w: seq<Signature>, s: Signature): set<nat> {
    set k: nat | k < |w| && |w| - 16 <= k && w[k] == s
  }

  /** Where `s` stands in `w` from position `from` on. */
  function CopiesFrom(w: seq<Signature>, from: nat, s: Signature): set<nat> {
    set k: nat | from <= k < |w| && w[k] == s
  }

  lemma {:induction false} CountIs(w: seq<Signature>, from: nat, s: Signature)
    requires from <= |w|
    ensures Count(w[from..], s) == |CopiesFrom(w, from, s)|
    decreases |w| - from
  {
    var here := CopiesFrom(w, from, s);
    if from == |w| {
      assert here == {} && w[from..] == [];
    } else {
      CountIs(w, from + 1, s);
      assert w[from..][1..] == w[from + 1..] && w[from..][0] == w[from];
      var rest := CopiesFrom(w, from + 1, s);
      if w[from] == s { assert here == rest + {from}; } else { assert here == rest; }
    }
  }

  lemma LastFrom(w: seq<Signature>, n: nat) returns (from: nat)
    ensures from <= |w| && Last(w, n) == w[from..] && (from > 0 ==> from == |w| - n) && |w| - n <= from
  {
    from := if |w| <= n then 0 else |w| - n;
    assert w[0..] == w;
  }

  lemma {:induction false} ProjectedCount(d: State, before: seq<Signature>, s: Signature)
    ensures Count(Projected(d, before), s) == |Copies(d.history + before, s)|
  {
    var w := d.history + before;
    var from := LastFrom(w, 16);
    CountIs(w, from, s);
    assert Copies(w, s) == CopiesFrom(w, from, s);
  }

  /** The i-th call of a batch has had the same outcome five times in a row. */
  predicate FiveTimes(d: State, batch: seq<Signature>, i: nat)
    requires i < |batch|
  {
    batch[i] in d.stable && d.stable[batch[i]].count >= 5
  }

  /** The i-th call of a batch is at least the third of its kind among the sixteen before it, and was not warned of. */
  predicate ThirdTime(d: State, batch: seq<Signature>, i: nat)
    requires i < |batch|
  {
    |Copies(d.history + batch[..i], batch[i])| + 1 >= 3 && batch[i] !in d.warned
  }

  /** The first position at which something is so. */
  predicate FirstFive(d: State, batch: seq<Signature>, i: nat)
    requires i < |batch|
  {
    FiveTimes(d, batch, i) && forall j :: 0 <= j < i ==> !FiveTimes(d, batch, j)
  }

  predicate FirstThird(d: State, batch: seq<Signature>, i: nat)
    requires i < |batch|
  {
    ThirdTime(d, batch, i) && forall j :: 0 <= j < i ==> !ThirdTime(d, batch, j)
  }

  /** The intervention for the first call that has had its outcome five times, and if there is none, for the first
      that is the third of its kind. */
  lemma BestIs(d: State, batch: seq<Signature>, best: Option<Intervention>) returns (i: nat)
    requires best == Best(d, batch)
    ensures best == None <==> forall j :: 0 <= j < |batch| ==> !FiveTimes(d, batch, j) && !ThirdTime(d, batch, j)
    ensures best.Some? && best.value.pattern == StableOutcome <==> exists j :: 0 <= j < |batch| && FiveTimes(d, batch, j)
    ensures best.Some? ==> i < |batch| && best.value.sig == batch[i]
    ensures best.Some? && best.value.pattern == StableOutcome ==>
      FirstFive(d, batch, i) && best.value.count == d.stable[batch[i]].count
    ensures best.Some? && best.value.pattern == RepeatedCall ==>
      FirstThird(d, batch, i) && best.value.count == |Copies(d.history + batch[..i], batch[i])| + 1
  {
    FirstCriticalIs(d, batch, 0);
    FirstRepeatedIs(d, batch, 0);
    forall j | 0 <= j < |batch| ensures Repeated(d, batch, j) <==> ThirdTime(d, batch, j) {
      ProjectedCount(d, batch[..j], batch[j]);
    }
    forall j | 0 <= j < |batch| ensures Critical(d, batch[j]) <==> FiveTimes(d, batch, j) {}
    var c, r := FirstCritical(d, batch, 0), FirstRepeated(d, batch, 0);
    i := if c.Some? then c.value else if r.Some? then r.value else 0;
    if r.Some? { ProjectedCount(d, batch[..r.value], batch[r.value]); }
  }

  /** Whether a batch is admitted: it is blocked exactly if one of its calls has repeated its outcome five times,
      at first with a chance to recover and then for good; otherwise a reminder is sent exactly if one of them is
      the third of its kind. The intervention names the first such call. What is admitted is committed; what
      ends the run is not. */
  lemma AdmissionDecides(d: State, batch: seq<Signature>) returns (i: nat)
    ensures var (e, a) := Admit(d, batch);
      && (a.decision.Allow? <==>
          forall j :: 0 <= j < |batch| ==> !FiveTimes(d, batch, j) && !ThirdTime(d, batch, j))
      && (a.decision.Recover? || a.decision.Terminate? <==> exists j :: 0 <= j < |batch| && FiveTimes(d, batch, j))
      && (a.decision.Recover? ==> d.criticals == 0) && (a.decision.Terminate? ==> d.criticals > 0)
      && (a.decision.Allow? ==> a.intervention == None && e == Commit(d, batch))
      && (a.decision.Warn? ==>
        && i < |batch| && FirstThird(d, batch, i)
        && a.intervention ==
             Some(Intervention(RepeatedCall, |Copies(d.history + batch[..i], batch[i])| + 1, batch[i]))
        && e == Commit(d.(warned := d.warned + {batch[i]}), batch))
      && (a.decision.Recover? || a.decision.Terminate? ==>
        && i < |batch| && FirstFive(d, batch, i)
        && a.intervention == Some(Intervention(StableOutcome, d.stable[batch[i]].count, batch[i])))
      && (a.decision.Recover? ==> e == Commit(d.(criticals := 1), batch))
      && (a.decision.Terminate? ==> e == d.(criticals := d.criticals + 1))
  {
    var best := Best(d, batch);
    i := BestIs(d, batch, best);
  }

  // ----- what counts as the same call ---------------------------------------------------------

  function Before(excluded: set<string>, calls: seq<Call>, i: nat): set<nat>
    requires i <= |calls|
  {
    set j: nat | j < i && calls[j].name !in excluded
  }

  function Seen(excluded: set<string>, c: Call): seq<Signature> { if c.name in excluded then [] else [SigOf(c)] }

  lemma {:induction false} SignaturesJoin(excluded: set<string>, a: seq<Call>, b: seq<Call>)
    ensures Signatures(excluded, a + b) == Signatures(excluded, a) + Signatures(excluded, b)
    decreases |a|
  {
    if a == [] {
      assert a + b == b;
    } else {
      var rest, head := a[1..], Seen(excluded, a[0]);
      assert (a + b)[0] == a[0] && (a + b)[1..] == rest + b;
      SignaturesJoin(excluded, rest, b);
      assert head + (Signatures(excluded, rest) + Signatures(excluded, b))
          == head + Signatures(excluded, rest) + Signatures(excluded, b);
    }
  }

  lemma BeforeStep(excluded: set<string>, calls: seq<Call>, i: nat)
    requires i < |calls|
    ensures |Before(excluded, calls, i + 1)| == |Before(excluded, calls, i)| + if calls[i].name in excluded then 0 else 1
  {
    var earlier, now := Before(excluded, calls, i), Before(excluded, calls, i + 1);
    if calls[i].name in excluded { assert now == earlier; } else { assert now == earlier + {i}; }
  }

  lemma {:induction false} SignatureCount(excluded: set<string>, calls: seq<Call>, i: nat)
    requires i <= |calls|
    ensures |Signatures(excluded, calls[..i])| == |Before(excluded, calls, i)|
  {
    if i == 0 {
      assert Before(excluded, calls, 0) == {};
    } else {
      var c := calls[i - 1];
      SignatureCount(excluded, calls, i - 1);
      assert calls[..i] == calls[..i - 1] + [c];
      SignaturesJoin(excluded, calls[..i - 1], [c]);
      OneSignature(excluded, c);
      BeforeStep(excluded, calls, i - 1);
    }
  }

  lemma {:induction false} OneSignature(excluded: set<string>, c: Call)
    ensures Signatures(excluded, [c]) == Seen(excluded, c)
  {
    assert [c][1..] == [];
  }

  /** The detector sees the calls whose tools are not excluded, all of them and in order, by tool and arguments. */
  lemma {:induction false} SignaturesAre(excluded: set<string>, calls: seq<Call>, i: nat)
    requires i < |calls|
    ensures |Signatures(excluded, calls)| == |Before(excluded, calls, |calls|)|
    ensures calls[i].name !in excluded ==>
      var k := |Before(excluded, calls, i)|;
      k < |Signatures(excluded, calls)| && Signatures(excluded, calls)[k] == Signature(calls[i].name, calls[i].args)
  {
    SignatureCount(excluded, calls, |calls|);
    assert calls[..|calls|] == calls;
    SignatureCount(excluded, calls, i);
    OneSignature(excluded, calls[i]);
    assert calls == calls[..i] + ([calls[i]] + calls[i + 1..]);
    SignaturesJoin(excluded, calls[..i], [calls[i]] + calls[i + 1..]);
    SignaturesJoin(excluded, [calls[i]], calls[i + 1..]);
  }

  /** An outcome is counted on exactly if it is the one before; another one starts the count anew, and takes back
      the reminder of a signature that had an outcome. Nothing else changes. */
  lemma NoteDecides(d: State, sig: Signature, o: Outcome)
    ensures var e := Note(d, sig, o);
      && e.history == d.history && e.criticals == d.criticals && e.stable.Keys == d.stable.Keys + {sig}
      && e.stable[sig].outcome == o
      && e.stable[sig].count == (if sig in d.stable && d.stable[sig].outcome == o then d.stable[sig].count + 1 else 1)
      && (forall s :: s in d.stable && s != sig ==> e.stable[s] == d.stable[s])
      && (forall s :: s in e.warned <==> s in d.warned && !(s == sig && sig in d.stable && d.stable[sig].outcome != o))
  {}
}
