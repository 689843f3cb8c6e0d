/** The detector's state is a function of what happened, and what a whole run can show. */
module LoopDetectProofs {
  import opened Common
  import opened LoopDetect

  // ----- windows --------------------------------------------------------------------------

  lemma LastOfLast<T>(s: seq<T>, b: seq<T>, n: nat)
    ensures Last(Last(s, n) + b, n) == Last(s + b, n)
  {}

  lemma ShorterLast<T>(s: seq<T>, m: nat, n: nat)
    requires m <= n
    ensures Last(Last(s, n), m) == Last(s, m)
  {}

  /** Committing a batch leaves exactly the window the admission projected. */
  lemma {:induction false} CommitHistory(d: State, batch: seq<Signature>)
    ensures |batch| > 0 || |d.history| <= HISTORY_SIZE ==> Commit(d, batch).history == Projected(d, batch)
    decreases |batch|
  {
    if batch == [] {
      assert d.history + batch == d.history;
    } else {
      var e := Insert(d, batch[0]);
      CommitHistory(e, batch[1..]);
      assert d.history + batch == (d.history + [batch[0]]) + batch[1..];
      LastOfLast(d.history + [batch[0]], batch[1..], HISTORY_SIZE);
      assert e.history == Last(d.history + [batch[0]], HISTORY_SIZE);
    }
  }

  predicate InWindow(d: State) {
    (forall s :: s in d.stable ==> s in d.history) && (forall s :: s in d.warned ==> s in d.history)
  }

  /** After a commit that inserts anything, every signature with state is inside the window. */
  lemma {:induction false} CommitStateInWindow(d: State, batch: seq<Signature>)
    requires batch != []
    ensures InWindow(Commit(d, batch)) && |Commit(d, batch).history| <= 16
    decreases |batch|
  {
    var e := Insert(d, batch[0]);
    assert InWindow(e);
    if batch[1..] != [] { CommitStateInWindow(e, batch[1..]); }
  }

  // ----- the trace, one item at a time ----------------------------------------------------

  lemma InsertAgrees(d: State, t: Trace, sig: Signature, s: Signature)
    requires Agrees(d, t, s) && Last(d.history, HISTORY_SIZE - 1) == Remaining(t)
    ensures Agrees(Insert(d, sig), Then(t, Inserted(sig)), s)
  {
    assert s in Insert(d, sig).stable <==> s in d.stable && s in Remaining(t);
    assert s in Insert(d, sig).warned <==> s in d.warned && s in Remaining(t);
  }

  lemma InsertRefines(d: State, t: Trace, sig: Signature)
    requires Refines(d, t)
    ensures Refines(Insert(d, sig), Then(t, Inserted(sig)))
  {
    ShorterLast(Inserts(t), HISTORY_SIZE - 1, HISTORY_SIZE);
    forall s ensures Agrees(Insert(d, sig), Then(t, Inserted(sig)), s) {
      assert Agrees(d, t, s);
      InsertAgrees(d, t, sig, s);
    }
    LastOfLast(Inserts(t), [sig], HISTORY_SIZE);
    assert Last(Last(Inserts(t), HISTORY_SIZE) + [sig], HISTORY_SIZE) == Last(d.history, HISTORY_SIZE - 1) + [sig];
  }

  lemma RemindRefines(d: State, t: Trace, sig: Signature)
    requires Refines(d, t)
    ensures Refines(d.(warned := d.warned + {sig}), Then(t, Warned(sig)))
  {
    forall s ensures Agrees(d.(warned := d.warned + {sig}), Then(t, Warned(sig)), s) {
      assert Agrees(d, t, s);
    }
  }

  lemma {:induction false} StreakPush(os: seq<Outcome>, o: Outcome)
    ensures Streak(os + [o]) == if os != [] && os[|os| - 1] == o then Streak(os) + 1 else 1
  {
    assert (os + [o])[..|os|] == os;
  }

  lemma NoteRefines(d: State, t: Trace, sig: Signature, o: Outcome)
    requires Refines(d, t)
    ensures Refines(Note(d, sig, o), Then(t, Noted(sig, o)))
  {
    StreakPush(Outcomes(t, sig), o);
    forall s ensures Agrees(Note(d, sig, o), Then(t, Noted(sig, o)), s) {
      assert Agrees(d, t, s) && Agrees(d, t, sig);
    }
  }

  lemma CriticalsRefine(d: State, t: Trace, c: nat)
    requires Refines(d, t)
    ensures Refines(d.(criticals := c), t)
  {
    forall s ensures Agrees(d.(criticals := c), t, s) {
      assert Agrees(d, t, s);
    }
  }

  // ----- batches --------------------------------------------------------------------------

  function AfterInserts(t: Trace, batch: seq<Signature>): Trace
    decreases |batch|
  {
    if batch == [] then t else AfterInserts(Then(t, Inserted(batch[0])), batch[1..])
  }

  function AfterNotes(t: Trace, excluded: set<string>, calls: seq<Call>, events: seq<Event>): Trace
    requires |calls| == |events|
    decreases |calls|
  {
    if calls == [] then t
    else
      var u := if calls[0].name in excluded then t else Then(t, Noted(SigOf(calls[0]), events[0].outcome));
      AfterNotes(u, excluded, calls[1..], events[1..])
  }

  lemma {:induction false} CommitRefines(d: State, t: Trace, batch: seq<Signature>)
    requires Refines(d, t)
    ensures Refines(Commit(d, batch), AfterInserts(t, batch))
    decreases |batch|
  {
    if batch != [] {
      InsertRefines(d, t, batch[0]);
      CommitRefines(Insert(d, batch[0]), Then(t, Inserted(batch[0])), batch[1..]);
    }
  }

  lemma {:induction false} NoteAllRefines(
      d: State, t: Trace, excluded: set<string>, calls: seq<Call>, events: seq<Event>)
    requires Refines(d, t) && |calls| == |events|
    ensures Refines(NoteAll(d, excluded, calls, events), AfterNotes(t, excluded, calls, events))
    decreases |calls|
  {
    if calls != [] {
      if calls[0].name in excluded {
        NoteAllRefines(d, t, excluded, calls[1..], events[1..]);
      } else {
        var sig, o := SigOf(calls[0]), events[0].outcome;
        NoteRefines(d, t, sig, o);
        NoteAllRefines(Note(d, sig, o), Then(t, Noted(sig, o)), excluded, calls[1..], events[1..]);
      }
    }
  }

  function AfterAdmit(t: Trace, d: State, batch: seq<Signature>): Trace {
    match Admit(d, batch).1.decision
    case Allow => AfterInserts(t, batch)
    case Warn => AfterInserts(Then(t, Warned(Best(d, batch).value.sig)), batch)
    case Recover => AfterInserts(t, batch)
    case Terminate => t
  }

  lemma AdmitRefines(d: State, t: Trace, batch: seq<Signature>)
    requires Refines(d, t)
    ensures Refines(Admit(d, batch).0, AfterAdmit(t, d, batch))
  {
    match Admit(d, batch).1.decision
    case Allow => CommitRefines(d, t, batch);
    case Warn =>
      var sig := Best(d, batch).value.sig;
      RemindRefines(d, t, sig);
      CommitRefines(d.(warned := d.warned + {sig}), Then(t, Warned(sig)), batch);
    case Recover =>
      CriticalsRefine(d, t, 1);
      CommitRefines(d.(criticals := 1), t, batch);
    case Terminate =>
      CriticalsRefine(d, t, d.criticals + 1);
  }

  // ----- what an admission decides, in terms of the trace ----------------------------------

  predicate Stuck(t: Trace, sig: Signature) { Streak(Outcomes(t, sig)) >= 5 }

  /** A batch is blocked exactly when one of its calls has five or more equal outcomes in a row
      since it last left the window. */
  lemma BlockedIffStuck(d: State, t: Trace, batch: seq<Signature>)
    requires Refines(d, t)
    ensures var a := Admit(d, batch).1;
      (a.decision == Recover || a.decision == Terminate) <==> exists i :: 0 <= i < |batch| && Stuck(t, batch[i])
  {
    FirstCriticalIs(d, batch, 0);
    forall i | 0 <= i < |batch| ensures Critical(d, batch[i]) <==> Stuck(t, batch[i]) {
      assert Agrees(d, t, batch[i]);
    }
  }

  predicate DueForReminder(t: Trace, batch: seq<Signature>, i: nat)
    requires i < |batch|
  {
    && Count(Last(Inserts(t) + batch[..i], 16), batch[i]) + 1 >= 3
    && !Reminded(t, batch[i])
  }

  /** A batch is admitted with a reminder exactly when nothing blocks it and one of its calls is
      at least the third of its kind in the window it would see, with no reminder in force. */
  lemma WarnedIffRepeated(d: State, t: Trace, batch: seq<Signature>)
    requires Refines(d, t)
    ensures Admit(d, batch).1.decision == Warn <==>
      && (forall i :: 0 <= i < |batch| ==> !Stuck(t, batch[i]))
      && (exists i :: 0 <= i < |batch| && DueForReminder(t, batch, i))
  {
    BlockedIffStuck(d, t, batch);
    FirstRepeatedIs(d, batch, 0);
    forall i | 0 <= i < |batch| ensures Repeated(d, batch, i) <==> DueForReminder(t, batch, i) {
      assert Agrees(d, t, batch[i]);
      LastOfLast(Inserts(t), batch[..i], HISTORY_SIZE);
    }
  }

  // ----- runs -----------------------------------------------------------------------------

  /** One turn of the loop: a batch and, if it is executed, its end events. */
  datatype Turn = Turn(calls: seq<Call>, events: seq<Event>)

  predicate Proper(turns: seq<Turn>) { forall i :: 0 <= i < |turns| ==> Aligned(turns[i].calls, turns[i].events) }

  function DecisionOf(d: State, excluded: set<string>, x: Turn): Decision {
    Admit(d, Signatures(excluded, x.calls)).1.decision
  }

  function Step(d: State, excluded: set<string>, x: Turn): State
    requires |x.calls| == |x.events|
  {
    var r := Admit(d, Signatures(excluded, x.calls)).0;
    if DecisionOf(d, excluded, x) in {Allow, Warn} then NoteAll(r, excluded, x.calls, x.events) else r
  }

  function AfterStep(t: Trace, d: State, excluded: set<string>, x: Turn): Trace
    requires |x.calls| == |x.events|
  {
    var u := AfterAdmit(t, d, Signatures(excluded, x.calls));
    if DecisionOf(d, excluded, x) in {Allow, Warn} then AfterNotes(u, excluded, x.calls, x.events) else u
  }

  /** A detector with the trace of what happened to it and the signatures of all committed batches. */
  datatype Traced = Traced(d: State, t: Trace, committed: seq<Signature>)

  function Advance(p: Traced, excluded: set<string>, x: Turn): Traced
    requires |x.calls| == |x.events|
  {
    Traced(Step(p.d, excluded, x), AfterStep(p.t, p.d, excluded, x),
           if DecisionOf(p.d, excluded, x) == Terminate then p.committed
           else p.committed + Signatures(excluded, x.calls))
  }

  /** A run stops at the first Terminate. */
  function Play(p: Traced, excluded: set<string>, turns: seq<Turn>): Traced
    requires Proper(turns)
    decreases |turns|
  {
    if turns == [] then p
    else
      var q := Advance(p, excluded, turns[0]);
      if DecisionOf(p.d, excluded, turns[0]) == Terminate then q else Play(q, excluded, turns[1..])
  }

  const START: Traced := Traced(FRESH, Begin, [])

  function Decisions(d: State, excluded: set<string>, turns: seq<Turn>): seq<Decision>
    requires Proper(turns)
    decreases |turns|
  {
    if turns == [] then []
    else
      var x := DecisionOf(d, excluded, turns[0]);
      if x == Terminate then [x] else [x] + Decisions(Step(d, excluded, turns[0]), excluded, turns[1..])
  }

  lemma StepRefines(d: State, t: Trace, excluded: set<string>, x: Turn)
    requires Refines(d, t) && |x.calls| == |x.events|
    ensures Refines(Step(d, excluded, x), AfterStep(t, d, excluded, x))
  {
    var batch := Signatures(excluded, x.calls);
    AdmitRefines(d, t, batch);
    if DecisionOf(d, excluded, x) in {Allow, Warn} {
      NoteAllRefines(Admit(d, batch).0, AfterAdmit(t, d, batch), excluded, x.calls, x.events);
    }
  }

  lemma {:induction false} RunRefinesFrom(p: Traced, excluded: set<string>, turns: seq<Turn>)
    requires Refines(p.d, p.t) && Proper(turns)
    ensures var q := Play(p, excluded, turns); Refines(q.d, q.t)
    decreases |turns|
  {
    if turns != [] {
      StepRefines(p.d, p.t, excluded, turns[0]);
      if DecisionOf(p.d, excluded, turns[0]) != Terminate {
        RunRefinesFrom(Advance(p, excluded, turns[0]), excluded, turns[1..]);
      }
    }
  }

  lemma {:induction false} InsertsOfInserts(t: Trace, batch: seq<Signature>)
    ensures Inserts(AfterInserts(t, batch)) == Inserts(t) + batch
    decreases |batch|
  {
    if batch == [] {
      assert Inserts(t) + batch == Inserts(t);
    } else {
      InsertsOfInserts(Then(t, Inserted(batch[0])), batch[1..]);
      assert Inserts(t) + [batch[0]] + batch[1..] == Inserts(t) + batch;
    }
  }

  lemma {:induction false} InsertsOfNotes(t: Trace, excluded: set<string>, calls: seq<Call>, events: seq<Event>)
    requires |calls| == |events|
    ensures Inserts(AfterNotes(t, excluded, calls, events)) == Inserts(t)
    decreases |calls|
  {
    if calls != [] {
      var u := if calls[0].name in excluded then t else Then(t, Noted(SigOf(calls[0]), events[0].outcome));
      InsertsOfNotes(u, excluded, calls[1..], events[1..]);
    }
  }

  lemma {:induction false} InsertsOfStep(t: Trace, d: State, excluded: set<string>, x: Turn)
    requires |x.calls| == |x.events|
    ensures Inserts(AfterStep(t, d, excluded, x)) ==
      if DecisionOf(d, excluded, x) == Terminate then Inserts(t) else Inserts(t) + Signatures(excluded, x.calls)
  {
    var batch := Signatures(excluded, x.calls);
    InsertsOfNotes(AfterAdmit(t, d, batch), excluded, x.calls, x.events);
    InsertsOfInserts(if DecisionOf(d, excluded, x) == Warn then Then(t, Warned(Best(d, batch).value.sig)) else t, batch);
  }

  lemma {:induction false} InsertsOfPlay(p: Traced, excluded: set<string>, turns: seq<Turn>)
    requires Proper(turns) && Inserts(p.t) == p.committed
    ensures var q := Play(p, excluded, turns); Inserts(q.t) == q.committed
    decreases |turns|
  {
    if turns != [] {
      InsertsOfStep(p.t, p.d, excluded, turns[0]);
      if DecisionOf(p.d, excluded, turns[0]) != Terminate {
        InsertsOfPlay(Advance(p, excluded, turns[0]), excluded, turns[1..]);
      }
    }
  }

  /** Refinement: after any run from a fresh detector, the state is what the trace says, and the
      history is exactly the last sixteen unexcluded signatures of all committed batches. */
  lemma {:induction false} RunRefines(excluded: set<string>, turns: seq<Turn>)
    requires Proper(turns)
    ensures var q := Play(START, excluded, turns);
      Refines(q.d, q.t) && q.d.history == Last(q.committed, 16)
  {
    forall s ensures Agrees(FRESH, Begin, s) {}
    RunRefinesFrom(START, excluded, turns);
    InsertsOfPlay(START, excluded, turns);
  }

  // ----- how far a loop can get -------------------------------------------------------------

  lemma {:induction false} CommitForgetsOnly(d: State, batch: seq<Signature>)
    ensures var e := Commit(d, batch);
      e.criticals == d.criticals && forall s :: s in e.stable ==> s in d.stable && e.stable[s] == d.stable[s]
    decreases |batch|
  {
    if batch != [] { CommitForgetsOnly(Insert(d, batch[0]), batch[1..]); }
  }

  function CountOf(d: State, s: Signature): nat { if s in d.stable then d.stable[s].count else 0 }

  lemma {:induction false} NoteAllBound(d: State, excluded: set<string>, calls: seq<Call>, events: seq<Event>, s: Signature)
    requires |calls| == |events|
    ensures var e := NoteAll(d, excluded, calls, events);
      e.criticals == d.criticals && CountOf(e, s) <= CountOf(d, s) + Count(Signatures(excluded, calls), s)
    decreases |calls|
  {
    if calls != [] {
      var sig := SigOf(calls[0]);
      if calls[0].name in excluded {
        NoteAllBound(d, excluded, calls[1..], events[1..], s);
        assert Signatures(excluded, calls) == Signatures(excluded, calls[1..]);
      } else {
        NoteAllBound(Note(d, sig, events[0].outcome), excluded, calls[1..], events[1..], s);
        assert Signatures(excluded, calls)[1..] == Signatures(excluded, calls[1..]);
      }
    }
  }

  predicate AtMost(excluded: set<string>, x: Turn, m: nat) {
    forall i :: 0 <= i < |Signatures(excluded, x.calls)| ==>
      Count(Signatures(excluded, x.calls), Signatures(excluded, x.calls)[i]) <= m
  }

  lemma {:induction false} CountZero(b: seq<Signature>, s: Signature)
    ensures Count(b, s) > 0 <==> s in b
  {
    if b != [] {
      CountZero(b[1..], s);
      assert s in b <==> s == b[0] || s in b[1..];
    }
  }

  lemma AdmitBound(d: State, batch: seq<Signature>, s: Signature)
    ensures CountOf(Admit(d, batch).0, s) <= CountOf(d, s)
    ensures Admit(d, batch).1.decision in {Allow, Warn} && s in batch ==> CountOf(d, s) < CRITICAL_THRESHOLD
  {
    FirstCriticalIs(d, batch, 0);
    CommitForgetsOnly(d, batch);
    CommitForgetsOnly(d.(criticals := 1), batch);
    if Best(d, batch).Some? {
      CommitForgetsOnly(d.(warned := d.warned + {Best(d, batch).value.sig}), batch);
    }
    if s in batch {
      var i :| 0 <= i < |batch| && batch[i] == s;
    }
  }

  lemma StepBound(d: State, excluded: set<string>, x: Turn, m: nat, s: Signature)
    requires |x.calls| == |x.events| && AtMost(excluded, x, m)
    requires CountOf(d, s) <= CRITICAL_THRESHOLD - 1 + m
    ensures CountOf(Step(d, excluded, x), s) <= CRITICAL_THRESHOLD - 1 + m
  {
    var batch := Signatures(excluded, x.calls);
    AdmitBound(d, batch, s);
    CountZero(batch, s);
    NoteAllBound(Admit(d, batch).0, excluded, x.calls, x.events, s);
    if s in batch {
      var i :| 0 <= i < |batch| && batch[i] == s;
    }
  }

  /** However long a run is, with at most m copies of a signature per batch no streak the
      detector knows of exceeds 4 + m. */
  lemma {:induction false} StreaksAreBounded(p: Traced, excluded: set<string>, turns: seq<Turn>, m: nat, s: Signature)
    requires Proper(turns) && forall i :: 0 <= i < |turns| ==> AtMost(excluded, turns[i], m)
    requires CountOf(p.d, s) <= 4 + m
    ensures CountOf(Play(p, excluded, turns).d, s) <= 4 + m
    decreases |turns|
  {
    if turns != [] {
      StepBound(p.d, excluded, turns[0], m, s);
      var q := Advance(p, excluded, turns[0]);
      if DecisionOf(p.d, excluded, turns[0]) != Terminate {
        StreaksAreBounded(q, excluded, turns[1..], m, s);
      }
    }
  }

  lemma StepCriticals(d: State, excluded: set<string>, x: Turn)
    requires |x.calls| == |x.events|
    ensures Step(d, excluded, x).criticals ==
      d.criticals + if DecisionOf(d, excluded, x) in {Recover, Terminate} then 1 else 0
    ensures DecisionOf(d, excluded, x) == Recover ==> d.criticals == 0
    ensures DecisionOf(d, excluded, x) == Terminate ==> d.criticals > 0
  {
    var batch := Signatures(excluded, x.calls);
    CommitForgetsOnly(d, batch);
    CommitForgetsOnly(d.(criticals := 1), batch);
    if Best(d, batch).Some? {
      CommitForgetsOnly(d.(warned := d.warned + {Best(d, batch).value.sig}), batch);
    }
    NoteAllBound(Admit(d, batch).0, excluded, x.calls, x.events, Signature("", ""));
  }

  /** Shape of a run: no intervention that blocks; or one Recover; or one Recover and, as the
      last decision of all, one Terminate. */
  predicate RecoversAt(ds: seq<Decision>, i: nat)
    requires i < |ds|
  {
    ds[i] == Recover && Recover !in ds[..i] && Terminate !in ds[..i]
  }

  predicate Shape(ds: seq<Decision>, recovered: bool) {
    || (Terminate !in ds && (recovered ==> Recover !in ds))
    || (recovered && ds != [] && ds[|ds| - 1] == Terminate
        && Terminate !in ds[..|ds| - 1] && Recover !in ds)
    || (!recovered && exists i :: 0 <= i < |ds| && RecoversAt(ds, i) && Shape(ds[i + 1..], true))
  }

  lemma {:induction false} PrependShape(x: Decision, ds: seq<Decision>, recovered: bool)
    requires Shape(ds, recovered) && (x == Allow || x == Warn)
    ensures Shape([x] + ds, recovered)
  {
    var es := [x] + ds;
    assert ds != [] ==> es[..|es| - 1] == [x] + ds[..|ds| - 1];
    if !recovered && !(Terminate !in ds) {
      var i :| 0 <= i < |ds| && RecoversAt(ds, i) && Shape(ds[i + 1..], true);
      assert es[..i + 1] == [x] + ds[..i] && es[i + 2..] == ds[i + 1..];
      assert RecoversAt(es, i + 1);
    }
  }

  /** A run recovers at most once; only a run that has recovered is terminated, and then that is
      its last decision. */
  lemma {:induction false} RecoversOnceThenTerminates(d: State, excluded: set<string>, turns: seq<Turn>)
    requires Proper(turns)
    ensures Shape(Decisions(d, excluded, turns), d.criticals > 0)
    decreases |turns|
  {
    if turns != [] {
      StepCriticals(d, excluded, turns[0]);
      var x := DecisionOf(d, excluded, turns[0]);
      if x != Terminate {
        var e := Step(d, excluded, turns[0]);
        RecoversOnceThenTerminates(e, excluded, turns[1..]);
        var es := Decisions(e, excluded, turns[1..]);
        if x == Recover {
          var ds := [x] + es;
          assert RecoversAt(ds, 0) && ds[1..] == es;
        } else {
          PrependShape(x, es, d.criticals > 0);
        }
      }
    }
  }

  // ----- how long a reminder lasts -----------------------------------------------------------

  lemma PrefixStep(h: seq<Signature>, b: seq<Signature>, j: nat)
    requires 0 < j <= |b|
    ensures Last(Last(h, HISTORY_SIZE - 1) + [b[0]] + b[1..][..j - 1], HISTORY_SIZE - 1) ==
            Last(h + b[..j], HISTORY_SIZE - 1)
  {
    assert b[..j] == [b[0]] + b[1..][..j - 1];
    LastOfLast(h, b[..j], HISTORY_SIZE - 1);
    assert Last(h, HISTORY_SIZE - 1) + [b[0]] + b[1..][..j - 1] == Last(h, HISTORY_SIZE - 1) + b[..j];
  }

  /** `s` is inside the window every insertion of the batch cleans against. */
  predicate StaysInWindow(h: seq<Signature>, batch: seq<Signature>, s: Signature) {
    forall j :: 0 <= j < |batch| ==> s in Last(h + batch[..j], HISTORY_SIZE - 1)
  }

  lemma {:induction false} CommitKeepsMarkIff(d: State, batch: seq<Signature>, s: Signature)
    ensures s in Commit(d, batch).warned <==> s in d.warned && StaysInWindow(d.history, batch, s)
    ensures s in Commit(d, batch).stable <==> s in d.stable && StaysInWindow(d.history, batch, s)
    ensures s in Commit(d, batch).stable ==> Commit(d, batch).stable[s] == d.stable[s]
    decreases |batch|
  {
    if batch != [] {
      var e := Insert(d, batch[0]);
      CommitKeepsMarkIff(e, batch[1..], s);
      assert d.history + batch[..0] == d.history;
      forall j | 0 < j <= |batch[1..]|
        ensures Last(e.history + batch[1..][..j - 1], HISTORY_SIZE - 1) == Last(d.history + batch[..j], HISTORY_SIZE - 1)
      {
        PrefixStep(d.history, batch, j);
      }
      if StaysInWindow(d.history, batch, s) {
        forall j | 0 <= j < |batch[1..]| ensures s in Last(e.history + batch[1..][..j], HISTORY_SIZE - 1) {
          assert s in Last(d.history + batch[..j + 1], HISTORY_SIZE - 1);
        }
      }
      if StaysInWindow(e.history, batch[1..], s) && s in Last(d.history, HISTORY_SIZE - 1) {
        forall j | 0 <= j < |batch| ensures s in Last(d.history + batch[..j], HISTORY_SIZE - 1) {
          if j > 0 { assert s in Last(e.history + batch[1..][..j - 1], HISTORY_SIZE - 1); }
        }
      }
    }
  }

  /** A reminder just sent is still in force after its own batch is committed exactly when its
      signature is in the window at each of the batch's insertions. */
  lemma ReminderSurvivesIff(d: State, batch: seq<Signature>)
    requires Admit(d, batch).1.decision == Warn
    ensures var s := Best(d, batch).value.sig;
      s in Admit(d, batch).0.warned <==> StaysInWindow(d.history, batch, s)
  {
    var s := Best(d, batch).value.sig;
    CommitKeepsMarkIff(d.(warned := d.warned + {s}), batch, s);
  }

  lemma {:induction false} TwiceInTail(w: seq<Signature>, s: Signature)
    requires |w| > 0 && Count(w, s) >= 2
    ensures s in w[1..]
  {
    CountZero(w[1..], s);
  }

  predicate AllDistinct(batch: seq<Signature>) { forall i, j :: 0 <= i < j < |batch| ==> batch[i] != batch[j] }

  /** Sixteen or more different signatures behind `p` push it out of the window. */
  lemma PushedOut(h: seq<Signature>, batch: seq<Signature>, p: nat)
    requires AllDistinct(batch) && p + HISTORY_SIZE < |batch|
    ensures batch[p] !in Last(h + batch[..p + HISTORY_SIZE], HISTORY_SIZE - 1)
  {
    var all := h + batch[..p + HISTORY_SIZE];
    var last := Last(all, HISTORY_SIZE - 1);
    forall k | 0 <= k < |last| ensures last[k] != batch[p] {
      assert last[k] == all[|all| - (HISTORY_SIZE - 1) + k] == batch[p + 1 + k];
    }
  }

  /** With pairwise distinct signatures in a batch a reminder is lost exactly if sixteen or more calls follow
      the one it is about: never in a batch of at most sixteen. */
  lemma ReminderSurvivesDistinctBatch(d: State, batch: seq<Signature>) returns (p: nat)
    requires Admit(d, batch).1.decision == Warn && AllDistinct(batch)
    ensures p < |batch| && batch[p] == Best(d, batch).value.sig
    ensures batch[p] in Admit(d, batch).0.warned <==> |batch| <= p + HISTORY_SIZE
  {
    FirstRepeatedIs(d, batch, 0);
    FirstCriticalIs(d, batch, 0);
    p := FirstRepeated(d, batch, 0).value;
    var s := batch[p];
    var before := d.history + batch[..p];
    var w := Projected(d, batch[..p]);
    CountZero(w, s);
    TwiceInTail(w, s);
    assert s in Last(before, HISTORY_SIZE - 1) by {
      assert |w| == HISTORY_SIZE ==> w[1..] == Last(before, HISTORY_SIZE - 1);
    }
    ReminderSurvivesIff(d, batch);
    if p + HISTORY_SIZE < |batch| {
      PushedOut(d.history, batch, p);
    } else {
      StaysAround(d.history, batch, p);
    }
  }

  /** A signature in the window when it is inserted stays in it through the next fifteen insertions. */
  lemma StaysAround(h: seq<Signature>, batch: seq<Signature>, p: nat)
    requires AllDistinct(batch) && p < |batch| <= p + HISTORY_SIZE
    requires batch[p] in Last(h + batch[..p], HISTORY_SIZE - 1)
    ensures StaysInWindow(h, batch, batch[p])
  {
    var s := batch[p];
    forall j | 0 <= j < |batch| ensures s in Last(h + batch[..j], HISTORY_SIZE - 1) {
      if j <= p {
        EarlierWindow(h, batch, j, p, s);
      } else {
        var all := h + batch[..j];
        assert all[|h| + p] == s;
        assert |all| - (HISTORY_SIZE - 1) <= |h| + p;
      }
    }
  }

  /** A signature the batch has not inserted yet can only leave the window, not enter it. */
  lemma EarlierWindow(h: seq<Signature>, batch: seq<Signature>, j: nat, p: nat, s: Signature)
    requires j <= p < |batch| && s !in batch[..p]
    requires s in Last(h + batch[..p], HISTORY_SIZE - 1)
    ensures s in Last(h + batch[..j], HISTORY_SIZE - 1)
  {
    var late, early := h + batch[..p], h + batch[..j];
    var from := if |late| <= HISTORY_SIZE - 1 then 0 else |late| - (HISTORY_SIZE - 1);
    var i :| 0 <= i < |Last(late, HISTORY_SIZE - 1)| && Last(late, HISTORY_SIZE - 1)[i] == s;
    assert late[from + i] == s;
    assert from + i < |h|;
    assert early[from + i] == s;
  }

  lemma {:induction false} CountCopies(s: Signature)
    ensures Count([s], s) == 1 && Count([s, s], s) == 2 && Count([s, s, s], s) == 3
  {
    assert [s, s, s][1..] == [s, s] && [s, s][1..] == [s];
  }

  lemma TripleDecision(s: Signature)
    ensures Best(FRESH, [s, s, s]) == Some(Intervention(RepeatedCall, 3, s))
  {
    var b := [s, s, s];
    CountCopies(s);
    assert Projected(FRESH, b[..2]) == [s, s] && Projected(FRESH, b[..1]) == [s] && Projected(FRESH, b[..0]) == [];
    FirstRepeatedIs(FRESH, b, 0);
    FirstCriticalIs(FRESH, b, 0);
    assert Repeated(FRESH, b, 2);
  }

  /** What three equal calls leave of a fresh detector. */
  lemma AfterTriple(s: Signature)
    ensures var r := Admit(FRESH, [s, s, s]);
      && r.1.decision == Warn && r.0.history == [s, s, s] && s !in r.0.warned && s !in r.0.stable
  {
    var b := [s, s, s];
    TripleDecision(s);
    ReminderSurvivesIff(FRESH, b);
    assert s !in Last(FRESH.history + b[..0], HISTORY_SIZE - 1);
    var d1 := FRESH.(warned := FRESH.warned + {s});
    CommitHistory(d1, b);
    CommitForgetsOnly(d1, b);
    assert d1.history + b == b;
  }

  /** A call repeated twice before, and not marked, is warned of at once. */
  lemma RepeatedAtOnce(e: State, s: Signature, batch: seq<Signature>)
    requires e.history == [s, s, s] && s !in e.warned && s !in e.stable
    requires batch != [] && forall k :: 0 <= k < |batch| ==> batch[k] == s
    ensures Admit(e, batch).1.decision == Warn
  {
    CountCopies(s);
    assert Projected(e, batch[..0]) == e.history;
    FirstRepeatedIs(e, batch, 0);
    FirstCriticalIs(e, batch, 0);
    assert Repeated(e, batch, 0);
  }

  /** The exception: three equal calls in one batch of a fresh run send a reminder that is lost at once, so
      the same batch, or the same call alone, draws a second reminder. */
  lemma FreshTripleIsWarnedTwice(s: Signature)
    ensures var r := Admit(FRESH, [s, s, s]);
      && r.1.decision == Warn && s !in r.0.warned
      && Admit(r.0, [s, s, s]).1.decision == Warn && Admit(r.0, [s]).1.decision == Warn
  {
    AfterTriple(s);
    RepeatedAtOnce(Admit(FRESH, [s, s, s]).0, s, [s, s, s]);
    RepeatedAtOnce(Admit(FRESH, [s, s, s]).0, s, [s]);
  }

  predicate DropsReminder(t: Trace, x: Item, s: Signature) {
    match x
    case Inserted(_) => s !in Remaining(t)
    case Noted(sig, o) => sig == s && Changes(t, s, o)
    case Warned(_) => false
  }

  predicate Earlier(t: Trace, u: Trace) { t == u || (u.Then? && Earlier(t, u.before)) }

  /** A reminder stops being in force only because its signature left the window or its outcome
      changed; until then WarnedIffRepeated sends no second one. */
  lemma {:induction false} ReminderEndsOnlyFor(t: Trace, u: Trace, s: Signature)
    requires Earlier(t, u) && Reminded(t, s) && !Reminded(u, s)
    ensures exists v, x :: Earlier(t, v) && Earlier(Then(v, x), u) && DropsReminder(v, x, s)
  {
    if Reminded(u.before, s) {
      assert Earlier(Then(u.before, u.last), u) && DropsReminder(u.before, u.last, s);
    } else {
      ReminderEndsOnlyFor(t, u.before, s);
      var v, x :| Earlier(t, v) && Earlier(Then(v, x), u.before) && DropsReminder(v, x, s);
      assert Earlier(Then(v, x), u);
    }
  }
}
