/** The loop detector of pi/loopdetect/detector.go: its state, what each operation makes of it,
    and the trace of a run that says what the state should be. */
module LoopDetect {
  import opened Common

  const HISTORY_SIZE: nat := 16
  const WARNING_THRESHOLD: nat := 3
  const CRITICAL_THRESHOLD: nat := 5

  /** A call fingerprint. SHA-256 over the tool name and canonical arguments is taken as injective. */
  datatype Signature = Signature(tool: string, args: string)

  /** An outcome fingerprint: error flag, error code and content, for one call signature. */
  datatype Outcome = Outcome(isError: bool, code: int, content: seq<string>)

  function SigOf(c: Call): Signature { Signature(c.name, c.args) }

  datatype Phase = Start | Update | End
  datatype Event = Event(phase: Phase, id: string, name: string, outcome: Outcome)

  datatype Stable = Stable(outcome: Outcome, count: nat)

  datatype State = State(
    history: seq<Signature>, stable: map<Signature, Stable>, warned: set<Signature>, criticals: nat)

  const FRESH: State := State([], map[], {}, 0)

  function Last<T>(s: seq<T>, n: nat): seq<T> { if |s| <= n then s else s[|s| - n..] }

  function Signatures(excluded: set<string>, calls: seq<Call>): seq<Signature> {
    if calls == [] then []
    else (if calls[0].name in excluded then [] else [SigOf(calls[0])]) + Signatures(excluded, calls[1..])
  }

  // ----- insertion ------------------------------------------------------------------------

  /** Evict, then clean, then append: a signature not in the remaining window loses its state
      even when it is the one being inserted. */
  function Insert(d: State, sig: Signature): State {
    var h := Last(d.history, HISTORY_SIZE - 1);
    State(h + [sig],
          (map s | s in d.stable && s in h :: d.stable[s]), (set s | s in d.warned && s in h), d.criticals)
  }

  function Commit(d: State, batch: seq<Signature>): State
    decreases |batch|
  {
    if batch == [] then d else Commit(Insert(d, batch[0]), batch[1..])
  }

  // ----- admission ------------------------------------------------------------------------

  datatype Pattern = RepeatedCall | StableOutcome

  datatype Intervention = Intervention(pattern: Pattern, count: nat, sig: Signature)

  datatype Decision = Allow | Warn | Recover | Terminate

  datatype Admission = Admission(decision: Decision, intervention: Option<Intervention>)

  function Count(s: seq<Signature>, sig: Signature): nat {
    if s == [] then 0 else (if s[0] == sig then 1 else 0) + Count(s[1..], sig)
  }

  /** The window as it will look when the first `|before|` calls of a batch are in. */
  function Projected(d: State, before: seq<Signature>): seq<Signature> {
    Last(d.history + before, HISTORY_SIZE)
  }

  predicate Critical(d: State, sig: Signature) {
    sig in d.stable && d.stable[sig].count >= CRITICAL_THRESHOLD
  }

  predicate Repeated(d: State, batch: seq<Signature>, i: nat)
    requires i < |batch|
  {
    Count(Projected(d, batch[..i]), batch[i]) + 1 >= WARNING_THRESHOLD && batch[i] !in d.warned
  }

  /** The first position of `batch` from `i` on that is blocked for lack of progress. */
  function FirstCritical(d: State, batch: seq<Signature>, i: nat): Option<nat>
    requires i <= |batch|
    decreases |batch| - i
  {
    if i == |batch| then None else if Critical(d, batch[i]) then Some(i) else FirstCritical(d, batch, i + 1)
  }

  function FirstRepeated(d: State, batch: seq<Signature>, i: nat): Option<nat>
    requires i <= |batch|
    decreases |batch| - i
  {
    if i == |batch| then None else if Repeated(d, batch, i) then Some(i) else FirstRepeated(d, batch, i + 1)
  }

  lemma {:induction false} FirstCriticalIs(d: State, batch: seq<Signature>, i: nat)
    requires i <= |batch|
    ensures var f := FirstCritical(d, batch, i);
      && (f.None? <==> forall j :: i <= j < |batch| ==> !Critical(d, batch[j]))
      && (f.Some? ==> i <= f.value < |batch| && Critical(d, batch[f.value])
                      && forall j :: i <= j < f.value ==> !Critical(d, batch[j]))
    decreases |batch| - i
  {
    if i < |batch| { FirstCriticalIs(d, batch, i + 1); }
  }

  lemma {:induction false} FirstRepeatedIs(d: State, batch: seq<Signature>, i: nat)
    requires i <= |batch|
    ensures var f := FirstRepeated(d, batch, i);
      && (f.None? <==> forall j :: i <= j < |batch| ==> !Repeated(d, batch, j))
      && (f.Some? ==> i <= f.value < |batch| && Repeated(d, batch, f.value)
                      && forall j :: i <= j < f.value ==> !Repeated(d, batch, j))
    decreases |batch| - i
  {
    if i < |batch| { FirstRepeatedIs(d, batch, i + 1); }
  }

  /** The most serious intervention, the earliest among equals. */
  function Best(d: State, batch: seq<Signature>): Option<Intervention> {
    FirstCriticalIs(d, batch, 0);
    FirstRepeatedIs(d, batch, 0);
    match FirstCritical(d, batch, 0)
    case Some(i) => Some(Intervention(StableOutcome, d.stable[batch[i]].count, batch[i]))
    case None =>
      match FirstRepeated(d, batch, 0)
      case Some(i) => Some(Intervention(RepeatedCall, Count(Projected(d, batch[..i]), batch[i]) + 1, batch[i]))
      case None => None
  }

  function Admit(d: State, batch: seq<Signature>): (State, Admission) {
    match Best(d, batch)
    case None => (Commit(d, batch), Admission(Allow, None))
    case Some(b) =>
      if b.pattern == RepeatedCall then
        (Commit(d.(warned := d.warned + {b.sig}), batch), Admission(Warn, Some(b)))
      else if d.criticals == 0 then
        (Commit(d.(criticals := 1), batch), Admission(Recover, Some(b)))
      else (d.(criticals := d.criticals + 1), Admission(Terminate, Some(b)))
  }

  // ----- recording ------------------------------------------------------------------------

  function Note(d: State, sig: Signature, o: Outcome): State {
    if sig in d.stable && d.stable[sig].outcome == o then
      d.(stable := d.stable[sig := Stable(o, d.stable[sig].count + 1)])
    else
      d.(stable := d.stable[sig := Stable(o, 1)], warned := if sig in d.stable then d.warned - {sig} else d.warned)
  }

  function NoteAll(d: State, excluded: set<string>, calls: seq<Call>, events: seq<Event>): State
    requires |calls| == |events|
    decreases |calls|
  {
    if calls == [] then d
    else
      var d' := if calls[0].name in excluded then d else Note(d, SigOf(calls[0]), events[0].outcome);
      NoteAll(d', excluded, calls[1..], events[1..])
  }

  predicate Aligned(calls: seq<Call>, events: seq<Event>) {
    && |calls| == |events|
    && forall i :: 0 <= i < |calls| ==>
         events[i].phase == End && calls[i].id == events[i].id && calls[i].name == events[i].name
  }

  // ----- the trace ------------------------------------------------------------------------

  datatype Item = Inserted(sig: Signature) | Warned(sig: Signature) | Noted(sig: Signature, outcome: Outcome)

  /** What happened in a run, in order. */
  datatype Trace = Begin | Then(before: Trace, last: Item)

  function Inserts(t: Trace): seq<Signature> {
    match t
    case Begin => []
    case Then(b, x) => if x.Inserted? then Inserts(b) + [x.sig] else Inserts(b)
  }

  /** The window an insertion after `t` cleans against. */
  function Remaining(t: Trace): seq<Signature> { Last(Inserts(t), HISTORY_SIZE - 1) }

  /** The outcomes noted for `sig` since it was last found outside the window. */
  function Outcomes(t: Trace, sig: Signature): seq<Outcome> {
    match t
    case Begin => []
    case Then(b, Noted(s, o)) => if s == sig then Outcomes(b, sig) + [o] else Outcomes(b, sig)
    case Then(b, Inserted(_)) => if sig in Remaining(b) then Outcomes(b, sig) else []
    case Then(b, Warned(_)) => Outcomes(b, sig)
  }

  /** How many outcomes at the end of `os` equal the last one. */
  function Streak(os: seq<Outcome>): nat {
    if os == [] then 0
    else if |os| >= 2 && os[|os| - 2] == os[|os| - 1] then Streak(os[..|os| - 1]) + 1
    else 1
  }

  predicate Changes(t: Trace, sig: Signature, o: Outcome) {
    var os := Outcomes(t, sig);
    os != [] && os[|os| - 1] != o
  }

  /** A reminder for `sig` was sent, and since then `sig` neither left the window nor changed
      its outcome. */
  predicate Reminded(t: Trace, sig: Signature) {
    match t
    case Begin => false
    case Then(b, Warned(s)) => s == sig || Reminded(b, sig)
    case Then(b, Inserted(_)) => sig in Remaining(b) && Reminded(b, sig)
    case Then(b, Noted(s, o)) => !(s == sig && Changes(b, s, o)) && Reminded(b, sig)
  }

  /** What the detector holds for one signature is what the trace says about it. */
  predicate Agrees(d: State, t: Trace, s: Signature) {
    var os := Outcomes(t, s);
    && (s in d.stable <==> os != [])
    && (s in d.stable ==> d.stable[s] == Stable(os[|os| - 1], Streak(os)))
    && (s in d.warned <==> Reminded(t, s))
  }

  /** The detector's state is what the trace says it is. */
  ghost predicate Refines(d: State, t: Trace) {
    d.history == Last(Inserts(t), HISTORY_SIZE) && forall s :: Agrees(d, t, s)
  }
}
