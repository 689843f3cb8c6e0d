/** The budget of one run: what every metered call adds, and when a limit is reached
    (pi/governor/governor.go, types.go). */
module Governor {
  import opened Common

  const MAX_INT64: int := 0x7FFF_FFFF_FFFF_FFFF
  const TWO_64: int := 0x1_0000_0000_0000_0000
  const MAX_UINT32: nat := 0xFFFF_FFFF

  /** Costs are exact multiples of a billionth of a dollar. */
  const DOLLAR: int := 1_000_000_000

  datatype Usage = Usage(input: int, output: int, cost: int)

  /** What usage validation guarantees before a call is accounted for. */
  predicate Metered(u: Usage) { 0 <= u.input <= MAX_INT64 && 0 <= u.output <= MAX_INT64 && u.cost >= 0 }

  datatype Limits = Limits(maxTurns: int, maxCost: int, maxTokens: int)
  {
    function WithDefaults(): Limits {
      Limits(if maxTurns == 0 then 20 else maxTurns,
             if maxCost == 0 then DOLLAR else maxCost,
             if maxTokens == 0 then 2_000_000 else maxTokens)
    }

    predicate Valid() { maxTurns >= 0 && maxCost >= 0 && maxTokens >= 0 }
  }

  datatype LimitKind = Turns | Cost | Tokens

  datatype BudgetError = OverLimit(kind: LimitKind) | OutOfRange

  datatype Totals = Totals(turns: int, invocations: nat, input: int, output: int, tokens: int, cost: int)

  datatype Account = Account(limits: Limits, totals: Totals, exhausted: bool, firstErr: Option<BudgetError>)

  function Open(l: Limits): Account { Account(l.WithDefaults(), Totals(0, 0, 0, 0, 0, 0), false, None) }

  /** Two's-complement wrap-around of a 64-bit addition. */
  function Wrap64(x: int): int {
    var y := x % TWO_64; if y > MAX_INT64 then y - TWO_64 else y
  }

  function CheckedAdd(a: int, b: int): Option<int> {
    if b > 0 && a > MAX_INT64 - b then None else Some(Wrap64(a + b))
  }

  /** Only the first error is kept, and only the first one is returned. */
  function Fail(a: Account, e: BudgetError): (Account, Option<BudgetError>) {
    if a.exhausted then (a, None) else (a.(exhausted := true, firstErr := Some(e)), Some(e))
  }

  function LimitHit(l: Limits, cost: int, tokens: int): Option<LimitKind> {
    if l.maxCost > 0 && cost >= l.maxCost then Some(Cost)
    else if l.maxTokens > 0 && tokens >= l.maxTokens then Some(Tokens)
    else None
  }

  function Accumulate(a: Account, u: Usage): (Account, Option<BudgetError>) {
    var input, output := CheckedAdd(a.totals.input, u.input), CheckedAdd(a.totals.output, u.output);
    if input.None? || output.None? then Fail(a, OutOfRange)
    else
      var t := a.totals.(input := input.value, output := output.value, tokens := Wrap64(input.value + output.value));
      if t.invocations == MAX_UINT32 then Fail(a.(totals := t), OutOfRange)
      else
        var t' := t.(invocations := t.invocations + 1, cost := t.cost + u.cost);
        match LimitHit(a.limits, t'.cost, t'.tokens)
        case Some(kind) => Fail(a.(totals := t'), OverLimit(kind))
        case None => (a.(totals := t'), None)
  }

  // ----- exact sums ---------------------------------------------------------------------------

  /** The calls accounted for so far, in order. */
  datatype History = Empty | After(before: History, usage: Usage)

  datatype Sums = Sums(count: int, input: int, output: int, cost: int)
  {
    function Plus(u: Usage): Sums { Sums(count + 1, input + u.input, output + u.output, cost + u.cost) }

    function And(s: Sums): Sums { Sums(count + s.count, input + s.input, output + s.output, cost + s.cost) }
  }

  function Zero(): Sums { Sums(0, 0, 0, 0) }

  function SumOf(h: History): Sums { if h.Empty? then Zero() else SumOf(h.before).Plus(h.usage) }

  predicate AllMetered(h: History) { h.After? ==> AllMetered(h.before) && Metered(h.usage) }

  predicate Fits(s: Sums) { s.count <= MAX_UINT32 && s.input <= MAX_INT64 && s.output <= MAX_INT64 }

  /** The sum of both token counts is in range as well. */
  predicate InRange(s: Sums) { Fits(s) && s.input + s.output <= MAX_INT64 }

  /** The account after these calls. */
  function Balance(l: Limits, h: History): Account {
    if h.Empty? then Open(l) else Accumulate(Balance(l, h.before), h.usage).0
  }

  predicate Prefix(p: History, h: History) { p == h || (h.After? && Prefix(p, h.before)) }

  /** The exact sums reach a limit. */
  function Reached(l: Limits, s: Sums): Option<LimitKind> { LimitHit(l.WithDefaults(), s.cost, s.input + s.output) }

  lemma {:induction false} SumsGrow(p: History, h: History)
    requires Prefix(p, h) && AllMetered(h)
    ensures AllMetered(p)
    ensures 0 <= SumOf(p).input <= SumOf(h).input && 0 <= SumOf(p).output <= SumOf(h).output
    ensures 0 <= SumOf(p).cost <= SumOf(h).cost && SumOf(p).count <= SumOf(h).count
  {
    if p != h {
      SumsGrow(p, h.before);
    } else if h.After? {
      SumsGrow(h.before, h.before);
    }
  }

  lemma WrapIsExact(x: int)
    requires 0 <= x <= 2 * MAX_INT64
    ensures Wrap64(x) == x <==> x <= MAX_INT64
    ensures x > MAX_INT64 ==> Wrap64(x) == x - 0x1_0000_0000_0000_0000 < 0
  {
    assert x % TWO_64 == x;
  }

  lemma CheckedAddIsExact(a: int, b: int)
    requires 0 <= a && 0 <= b && a + b <= MAX_INT64
    ensures CheckedAdd(a, b) == Some(a + b)
  {
    WrapIsExact(a + b);
  }

  /** A call in range adds itself to every total. */
  lemma AccumulateAdds(a: Account, u: Usage)
    requires Metered(u) && 0 <= a.totals.input && 0 <= a.totals.output && a.totals.invocations < MAX_UINT32
    requires a.totals.input + u.input <= MAX_INT64 && a.totals.output + u.output <= MAX_INT64
    ensures var t, t' := a.totals, Accumulate(a, u).0.totals;
      && t' == Totals(t.turns, t.invocations + 1, t.input + u.input, t.output + u.output,
                      Wrap64(t.input + u.input + t.output + u.output), t.cost + u.cost)
  {
    CheckedAddIsExact(a.totals.input, u.input);
    CheckedAddIsExact(a.totals.output, u.output);
  }

  lemma {:induction false} BalanceLimits(l: Limits, h: History)
    ensures Balance(l, h).limits == l.WithDefaults()
    ensures Balance(l, h).exhausted <==> Balance(l, h).firstErr.Some?
  {
    if h.After? { BalanceLimits(l, h.before); }
  }

  /** The totals are these sums; only the sum of the token counts may have wrapped around. */
  predicate TotalsOf(t: Totals, s: Sums) {
    && t.invocations == s.count && t.input == s.input && t.output == s.output && t.cost == s.cost
    && t.tokens == Wrap64(s.input + s.output)
  }

  lemma TotalsOfMore(a: Account, s: Sums, u: Usage)
    requires TotalsOf(a.totals, s) && Metered(u) && 0 <= s.input && 0 <= s.output && Fits(s.Plus(u))
    ensures TotalsOf(Accumulate(a, u).0.totals, s.Plus(u))
  {
    AccumulateAdds(a, u);
    assert s.input + u.input + s.output + u.output == s.Plus(u).input + s.Plus(u).output;
  }

  /** As long as the sums fit, the totals are the exact sums; only their sum may wrap around. */
  lemma {:induction false} TotalsAreSums(l: Limits, h: History)
    requires AllMetered(h) && Fits(SumOf(h))
    ensures TotalsOf(Balance(l, h).totals, SumOf(h))
  {
    if h.After? {
      SumsGrow(h.before, h);
      SumsGrow(h.before, h.before);
      TotalsAreSums(l, h.before);
      TotalsOfMore(Balance(l, h.before), SumOf(h.before), h.usage);
    } else {
      WrapIsExact(0);
    }
  }

  /** The total of tokens is the sum of input and output exactly while that sum is in range. */
  lemma {:induction false} TokensAreExactIff(l: Limits, h: History)
    requires AllMetered(h) && Fits(SumOf(h))
    ensures Balance(l, h).totals.tokens == SumOf(h).input + SumOf(h).output
       <==> SumOf(h).input + SumOf(h).output <= MAX_INT64
  {
    TotalsAreSums(l, h);
    SumsGrow(h, h);
    WrapIsExact(SumOf(h).input + SumOf(h).output);
  }

  /** Out of range, a token limit goes unnoticed: both sums fit, and the run is not exhausted. */
  lemma LimitUnnoticed()
    ensures var l := Limits(20, DOLLAR, 1000);
      var h := After(Empty, Usage(MAX_INT64, MAX_INT64, 0));
      AllMetered(h) && Fits(SumOf(h)) && Reached(l, SumOf(h)) == Some(Tokens) && !Balance(l, h).exhausted
  {
    var l := Limits(20, DOLLAR, 1000);
    var h := After(Empty, Usage(MAX_INT64, MAX_INT64, 0));
    assert Balance(l, Empty) == Open(l);
    TotalsAreSums(l, h);
    WrapIsExact(MAX_INT64);
    WrapIsExact(2 * MAX_INT64);
  }

  /** A run is exhausted exactly when its exact sums reach a limit. */
  lemma {:induction false} ExhaustedIffReached(l: Limits, h: History)
    requires AllMetered(h) && Fits(SumOf(h)) && SumOf(h).input + SumOf(h).output <= MAX_INT64 && l.Valid()
    ensures Balance(l, h).exhausted <==> Reached(l, SumOf(h)).Some?
    ensures var d, s := l.WithDefaults(), SumOf(h);
      Balance(l, h).exhausted <==> s.cost >= d.maxCost || s.input + s.output >= d.maxTokens
  {
    BalanceLimits(l, h);
    if h.After? {
      SumsGrow(h.before, h);
      ExhaustedIffReached(l, h.before);
      BalanceLimits(l, h.before);
      TotalsAreSums(l, h.before);
      TotalsAreSums(l, h);
      TokensAreExactIff(l, h);
      WrapIsExact(SumOf(h).input);
      WrapIsExact(SumOf(h).output);
    }
  }

  /** Something the account can see reaches a limit: the cost, or a token sum that is still in range. */
  predicate SeenToReach(l: Limits, s: Sums) {
    s.cost >= l.WithDefaults().maxCost || l.WithDefaults().maxTokens <= s.input + s.output <= MAX_INT64
  }

  ghost predicate SomePrefixReaches(l: Limits, h: History) { exists p :: Prefix(p, h) && SeenToReach(l, SumOf(p)) }

  lemma {:induction false} PrefixesOf(l: Limits, h: History)
    requires h.After?
    ensures SomePrefixReaches(l, h) <==> SomePrefixReaches(l, h.before) || SeenToReach(l, SumOf(h))
  {
    if p :| Prefix(p, h) && SeenToReach(l, SumOf(p)) {
      assert p == h || Prefix(p, h.before);
    }
    if p :| Prefix(p, h.before) && SeenToReach(l, SumOf(p)) {
      assert Prefix(p, h);
    }
    assert Prefix(h, h);
  }

  /** What a limit check sees of totals that are exact but for the wrapped token sum. */
  lemma HitIffSeen(l: Limits, s: Sums)
    requires l.Valid() && 0 <= s.input <= MAX_INT64 && 0 <= s.output <= MAX_INT64
    ensures LimitHit(l.WithDefaults(), s.cost, Wrap64(s.input + s.output)).Some? <==> SeenToReach(l, s)
  {
    WrapIsExact(s.input + s.output);
  }

  /** A call in range exhausts the account exactly if its totals hit a limit. */
  lemma AccumulateHits(a: Account, u: Usage)
    requires Metered(u) && 0 <= a.totals.input && 0 <= a.totals.output && a.totals.invocations < MAX_UINT32
    requires a.totals.input + u.input <= MAX_INT64 && a.totals.output + u.output <= MAX_INT64
    ensures var t := a.totals;
      var tokens := Wrap64(t.input + u.input + t.output + u.output);
      Accumulate(a, u).0.exhausted <==> a.exhausted || LimitHit(a.limits, t.cost + u.cost, tokens).Some?
  {
    CheckedAddIsExact(a.totals.input, u.input);
    CheckedAddIsExact(a.totals.output, u.output);
  }

  lemma SeenAfter(l: Limits, a: Account, s: Sums, u: Usage)
    requires l.Valid() && a.limits == l.WithDefaults() && TotalsOf(a.totals, s) && Metered(u)
    requires 0 <= s.input && 0 <= s.output && Fits(s.Plus(u))
    ensures Accumulate(a, u).0.exhausted <==> a.exhausted || SeenToReach(l, s.Plus(u))
  {
    AccumulateHits(a, u);
    HitIffSeen(l, s.Plus(u));
    assert a.totals.input + u.input + a.totals.output + u.output == s.Plus(u).input + s.Plus(u).output;
  }

  /** The account a call finds and what it makes of it, as far as limits are concerned. */
  lemma {:induction false} CallSeen(l: Limits, h: History)
    requires h.After? && AllMetered(h) && Fits(SumOf(h)) && l.Valid()
    ensures Balance(l, h).exhausted <==> Balance(l, h.before).exhausted || SeenToReach(l, SumOf(h))
  {
    SumsGrow(h.before, h);
    SumsGrow(h, h);
    BalanceLimits(l, h.before);
    TotalsAreSums(l, h.before);
    SeenAfter(l, Balance(l, h.before), SumOf(h.before), h.usage);
  }

  /** Exactly when a budget is exhausted, however far the token sum runs out of range: some prefix of its
      calls reached the cost limit, or reached the token limit while the sum was in range. */
  lemma {:induction false} ExhaustedIffSeen(l: Limits, h: History)
    requires AllMetered(h) && Fits(SumOf(h)) && l.Valid()
    ensures Balance(l, h).exhausted <==> SomePrefixReaches(l, h)
  {
    if h.Empty? {
      assert forall p :: Prefix(p, h) ==> p == Empty;
    } else {
      SumsGrow(h.before, h);
      ExhaustedIffSeen(l, h.before);
      CallSeen(l, h);
      PrefixesOf(l, h);
    }
  }

  /** The error of a call that exhausts an account: cost before tokens. */
  lemma ErrorIs(a: Account, u: Usage)
    requires Metered(u) && 0 <= a.totals.input && 0 <= a.totals.output && a.totals.invocations < MAX_UINT32
    requires a.totals.input + u.input <= MAX_INT64 && a.totals.output + u.output <= MAX_INT64
    requires !a.exhausted && Accumulate(a, u).0.exhausted && a.limits.maxCost > 0
    ensures Accumulate(a, u).0.firstErr ==
      Some(OverLimit(if a.totals.cost + u.cost >= a.limits.maxCost then Cost else Tokens))
  {
    CheckedAddIsExact(a.totals.input, u.input);
    CheckedAddIsExact(a.totals.output, u.output);
  }

  lemma {:induction false} ErrorOfLast(l: Limits, h: History)
    requires h.After? && AllMetered(h) && Fits(SumOf(h)) && l.Valid()
    requires !Balance(l, h.before).exhausted && Balance(l, h).exhausted
    ensures Balance(l, h).firstErr == Some(OverLimit(if SumOf(h).cost >= l.WithDefaults().maxCost then Cost else Tokens))
  {
    SumsGrow(h.before, h);
    SumsGrow(h.before, h.before);
    TotalsAreSums(l, h.before);
    BalanceLimits(l, h.before);
    ErrorIs(Balance(l, h.before), h.usage);
  }

  /** The error kept is the limit reached by the first call that reached one; cost before tokens. */
  lemma {:induction false} FirstErrorIs(l: Limits, h: History) returns (p: History)
    requires AllMetered(h) && InRange(SumOf(h)) && l.Valid()
    requires Balance(l, h).exhausted
    ensures p.After? && Prefix(p, h)
    ensures Reached(l, SumOf(p.before)) == None && Reached(l, SumOf(p)).Some?
    ensures Balance(l, h).firstErr == Some(OverLimit(if SumOf(p).cost >= l.WithDefaults().maxCost then Cost else Tokens))
  {
    SumsGrow(h.before, h);
    SumsGrow(h.before, h.before);
    if Balance(l, h.before).exhausted {
      p := FirstErrorIs(l, h.before);
      FirstErrorSticks(l, h.before, h);
    } else {
      p := h;
      ExhaustedIffReached(l, h.before);
      ExhaustedIffReached(l, h);
      ErrorOfLast(l, h);
    }
  }

  /** The first error never changes, whatever is added and however far the sums overflow. */
  lemma {:induction false} FirstErrorSticks(l: Limits, p: History, h: History)
    requires Prefix(p, h) && Balance(l, p).exhausted
    ensures Balance(l, h).exhausted && Balance(l, h).firstErr == Balance(l, p).firstErr
  {
    if p != h { FirstErrorSticks(l, p, h.before); }
  }

  // ----- one call, in numbers -----------------------------------------------------------------

  /** A limit of zero stands for twenty turns, one dollar and two million tokens; any other is meant as it is. */
  lemma DefaultsAre(l: Limits)
    ensures Limits(0, 0, 0).WithDefaults() == Limits(20, 1_000_000_000, 2_000_000)
    ensures l.maxTurns != 0 && l.maxCost != 0 && l.maxTokens != 0 ==> l.WithDefaults() == l
  {}

  /** A token count that would leave its range adds nothing at all; the call after the last that can be counted
      adds its tokens but neither itself nor its cost. Both exhaust the account, and only the call that exhausts
      it is told, whatever the reason. */
  lemma OutOfRangeDecides(a: Account, u: Usage)
    requires Metered(u) && 0 <= a.totals.input <= MAX_INT64 && 0 <= a.totals.output <= MAX_INT64
    ensures var (b, err) := Accumulate(a, u);
      var outside := a.totals.input + u.input > 0x7FFF_FFFF_FFFF_FFFF || a.totals.output + u.output > 0x7FFF_FFFF_FFFF_FFFF;
      var full := a.totals.invocations == 0xFFFF_FFFF;
      && b.limits == a.limits && b.totals.turns == a.totals.turns
      && (outside ==> b.totals == a.totals)
      && (!outside ==> b.totals.input == a.totals.input + u.input && b.totals.output == a.totals.output + u.output)
      && (!outside && full ==> b.totals.invocations == a.totals.invocations && b.totals.cost == a.totals.cost)
      && (outside || full ==> b.exhausted && (!a.exhausted ==> err == Some(OutOfRange)))
      && (err.Some? <==> b.exhausted && !a.exhausted) && (err.Some? ==> b.firstErr == err)
      && (err.None? ==> b.firstErr == a.firstErr && b.exhausted == a.exhausted)
  {
    WrapIsExact(a.totals.input + u.input);
    WrapIsExact(a.totals.output + u.output);
  }
}
