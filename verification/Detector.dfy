/** The detector object: its methods compute the operations of LoopDetect in place. */
module Detector {
  import opened Common
  import opened LoopDetect
  import P = LoopDetectProofs

  class Detector {
    const disabled: bool
    const excluded: set<string>
    var history: seq<Signature>
    var stable: map<Signature, Stable>
    var warned: set<Signature>
    var criticals: nat

    ghost function View(): State
      reads this
    {
      State(history, stable, warned, criticals)
    }

    ghost predicate Valid()
      reads this
    {
      |history| <= HISTORY_SIZE
    }

    constructor (off: bool, names: set<string>)
      ensures Valid() && View() == FRESH && disabled == off && excluded == names
    {
      disabled, excluded := off, names;
      history, stable, warned, criticals := [], map[], {}, 0;
    }

    /** Forgets every signature the window no longer holds. */
    method CleanUnreferenced()
      modifies `stable, `warned
      ensures stable == map s | s in old(stable) && s in history :: old(stable)[s]
      ensures warned == set s | s in old(warned) && s in history
    {
      var referenced := set s | s in history;
      var rest := stable.Keys;
      while rest != {}
        invariant rest <= old(stable).Keys && warned == old(warned)
        invariant stable == map s | s in old(stable) && (s in rest || s in history) :: old(stable)[s]
        decreases rest
      {
        var s :| s in rest;
        if s !in referenced { stable := stable - {s}; }
        rest := rest - {s};
      }
      rest := warned;
      while rest != {}
        invariant rest <= old(warned)
        invariant stable == map s | s in old(stable) && s in history :: old(stable)[s]
        invariant warned == set s | s in old(warned) && (s in rest || s in history)
        decreases rest
      {
        var s :| s in rest;
        if s !in referenced { warned := warned - {s}; }
        rest := rest - {s};
      }
    }

    method Push(sig: Signature)
      modifies `history, `stable, `warned
      ensures View() == Insert(old(View()), sig) && Valid()
    {
      while |history| >= HISTORY_SIZE
        invariant Last(history, HISTORY_SIZE - 1) == Last(old(history), HISTORY_SIZE - 1)
        invariant stable == old(stable) && warned == old(warned)
        decreases |history|
      {
        history := history[1..];
      }
      CleanUnreferenced();
      history := history + [sig];
    }

    method CommitBatch(batch: seq<Signature>)
      requires Valid()
      modifies `history, `stable, `warned
      ensures View() == Commit(old(View()), batch) && Valid()
    {
      var i := 0;
      while i < |batch|
        invariant 0 <= i <= |batch| && Valid()
        invariant Commit(View(), batch[i..]) == Commit(old(View()), batch)
      {
        assert batch[i..][1..] == batch[i + 1..];
        Push(batch[i]);
        i := i + 1;
      }
    }

    /** The critical rule first, then the reminder; an earlier or more serious one stays. */
    method Consider(best: Option<Intervention>, projected: seq<Signature>, ghost batch: seq<Signature>, sig: Signature)
      returns (better: Option<Intervention>)
      requires best == Best(View(), batch) && projected == Projected(View(), batch)
      ensures better == Best(View(), batch + [sig])
    {
      BestPush(View(), batch, sig);
      better := best;
      if sig in stable && stable[sig].count >= CRITICAL_THRESHOLD {
        if better.None? || better.value.pattern != StableOutcome {
          better := Some(Intervention(StableOutcome, stable[sig].count, sig));
        }
      }
      var count := CountIn(projected, sig);
      if count + 1 >= WARNING_THRESHOLD && sig !in warned && better.None? {
        better := Some(Intervention(RepeatedCall, count + 1, sig));
      }
    }

    /** The window projected call by call, and the most serious intervention so far. */
    method Project(calls: seq<Call>) returns (batch: seq<Signature>, best: Option<Intervention>)
      requires Valid()
      ensures batch == Signatures(excluded, calls) && best == Best(View(), batch)
    {
      var projected := history;
      batch, best := [], None;
      assert history + [] == history;
      var i := 0;
      while i < |calls|
        invariant 0 <= i <= |calls|
        invariant batch == Signatures(excluded, calls[..i])
        invariant projected == Projected(View(), batch)
        invariant best == Best(View(), batch)
      {
        var call := calls[i];
        SignaturesPush(excluded, calls, i);
        if call.name !in excluded {
          var sig := SigOf(call);
          ProjectedPush(View(), batch, sig);
          best := Consider(best, projected, batch, sig);
          if |projected| >= HISTORY_SIZE { projected := projected[1..]; }
          projected := projected + [sig];
          batch := batch + [sig];
        }
        i := i + 1;
      }
      assert calls[..i] == calls;
    }

    /** One atomic admission of a whole batch. */
    method AdmitBatch(calls: seq<Call>) returns (a: Admission)
      requires Valid()
      modifies `history, `stable, `warned, `criticals
      ensures Valid()
      ensures disabled ==> a == Admission(Allow, None) && View() == old(View())
      ensures !disabled ==> (View(), a) == Admit(old(View()), Signatures(excluded, calls))
    {
      if disabled { return Admission(Allow, None); }
      var batch, best := Project(calls);
      if best.None? {
        CommitBatch(batch);
        return Admission(Allow, None);
      }
      if best.value.pattern != StableOutcome {
        warned := warned + {best.value.sig};
        CommitBatch(batch);
        return Admission(Warn, best);
      }
      criticals := criticals + 1;
      if criticals == 1 {
        CommitBatch(batch);
        return Admission(Recover, best);
      }
      return Admission(Terminate, best);
    }

    /** The event does not belong to the end of this call. */
    static predicate Differs(c: Call, e: Event) { e.phase != End || e.id != c.id || e.name != c.name }

    /** Confirmed outcomes. Misaligned input changes nothing. */
    method RecordBatch(calls: seq<Call>, events: seq<Event>)
      modifies `stable, `warned
      ensures disabled || !Aligned(calls, events) ==> View() == old(View())
      ensures |calls| != |events| ==> View() == old(View())
      ensures forall i :: 0 <= i < |calls| == |events| && Differs(calls[i], events[i]) ==> View() == old(View())
      ensures !disabled && Aligned(calls, events) ==> View() == NoteAll(old(View()), excluded, calls, events)
    {
      if disabled || |calls| != |events| { return; }
      var i := 0;
      while i < |calls|
        invariant 0 <= i <= |calls|
        invariant forall j :: 0 <= j < i ==>
          events[j].phase == End && calls[j].id == events[j].id && calls[j].name == events[j].name
      {
        if events[i].phase != End || calls[i].id != events[i].id || calls[i].name != events[i].name { return; }
        i := i + 1;
      }
      i := 0;
      while i < |calls|
        invariant 0 <= i <= |calls|
        invariant NoteAll(View(), excluded, calls[i..], events[i..]) == NoteAll(old(View()), excluded, calls, events)
        invariant history == old(history) && criticals == old(criticals)
      {
        assert calls[i..][1..] == calls[i + 1..] && events[i..][1..] == events[i + 1..];
        if calls[i].name !in excluded {
          var sig, outcome := SigOf(calls[i]), events[i].outcome;
          if sig in stable && stable[sig].outcome == outcome {
            stable := stable[sig := Stable(outcome, stable[sig].count + 1)];
          } else {
            if sig in stable { warned := warned - {sig}; }
            stable := stable[sig := Stable(outcome, 1)];
          }
        }
        i := i + 1;
      }
    }
  }

  method CountIn(s: seq<Signature>, sig: Signature) returns (n: nat)
    ensures n == Count(s, sig)
  {
    n := 0;
    var i := 0;
    while i < |s|
      invariant 0 <= i <= |s|
      invariant n + Count(s[i..], sig) == Count(s, sig)
    {
      assert s[i..][1..] == s[i + 1..];
      if s[i] == sig { n := n + 1; }
      i := i + 1;
    }
  }

  lemma {:induction false} SignaturesPush(excluded: set<string>, calls: seq<Call>, i: nat)
    requires i < |calls|
    ensures Signatures(excluded, calls[..i + 1]) ==
      Signatures(excluded, calls[..i]) + if calls[i].name in excluded then [] else [SigOf(calls[i])]
    decreases |calls|
  {
    if i == 0 {
      assert calls[..1][1..] == [] && calls[..0] == [];
    } else {
      SignaturesPush(excluded, calls[1..], i - 1);
      assert calls[..i + 1][1..] == calls[1..][..i] && calls[..i][1..] == calls[1..][..i - 1];
    }
  }

  lemma {:induction false} FirstCriticalPush(d: State, batch: seq<Signature>, sig: Signature, i: nat)
    requires i <= |batch|
    ensures FirstCritical(d, batch + [sig], i) ==
      if FirstCritical(d, batch, i).Some? then FirstCritical(d, batch, i)
      else if Critical(d, sig) then Some(|batch|) else None
    decreases |batch| - i
  {
    if i < |batch| { FirstCriticalPush(d, batch, sig, i + 1); }
  }

  lemma {:induction false} FirstRepeatedPush(d: State, batch: seq<Signature>, sig: Signature, i: nat)
    requires i <= |batch|
    ensures FirstRepeated(d, batch + [sig], i) ==
      if FirstRepeated(d, batch, i).Some? then FirstRepeated(d, batch, i)
      else if Count(Projected(d, batch), sig) + 1 >= WARNING_THRESHOLD && sig !in d.warned then Some(|batch|)
      else None
    decreases |batch| - i
  {
    var more := batch + [sig];
    assert more[..i] == batch[..i];
    if i < |batch| {
      FirstRepeatedPush(d, batch, sig, i + 1);
    } else {
      assert more[..i] == batch && more[i] == sig;
    }
  }

  /** What one more call adds to the choice of an intervention. */
  function Prefer(d: State, batch: seq<Signature>, sig: Signature): Option<Intervention> {
    var b := Best(d, batch);
    var n := Count(Projected(d, batch), sig) + 1;
    if b.Some? && b.value.pattern == StableOutcome then b
    else if Critical(d, sig) then Some(Intervention(StableOutcome, d.stable[sig].count, sig))
    else if b.Some? then b
    else if n >= WARNING_THRESHOLD && sig !in d.warned then Some(Intervention(RepeatedCall, n, sig))
    else None
  }

  lemma BestPush(d: State, batch: seq<Signature>, sig: Signature)
    ensures Best(d, batch + [sig]) == Prefer(d, batch, sig)
  {
    FirstCriticalPush(d, batch, sig, 0);
    FirstRepeatedPush(d, batch, sig, 0);
    FirstCriticalIs(d, batch, 0);
    FirstRepeatedIs(d, batch, 0);
    var r := FirstRepeated(d, batch + [sig], 0);
    if r.Some? {
      assert (batch + [sig])[..r.value] == batch[..r.value];
    }
  }

  /** The window slides by one. */
  lemma ProjectedPush(d: State, batch: seq<Signature>, sig: Signature)
    ensures Projected(d, batch + [sig]) ==
      (if |Projected(d, batch)| >= HISTORY_SIZE then Projected(d, batch)[1..] else Projected(d, batch)) + [sig]
  {
    assert d.history + (batch + [sig]) == d.history + batch + [sig];
  }
}
