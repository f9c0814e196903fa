/**
 Per-agent spend and rate budgets: reserve before a call, then commit or release.

 The persisted form filters its list of commit times; the in-process `Budget`
 object drops expired times from the left of a deque. Both keep the same state.
 */
module Budgets {
  import opened Totals

  type Token = string

  datatype Budget = Budget(
    spendLimit: real,
    rateLimit: int,
    window: real,
    spent: real,
    calls: seq<real>,
    reserved: map<Token, real>)

  ghost function Exposure(b: Budget): real {
    b.spent + Sum(b.reserved)
  }

  /** The persisted form's pruning: keep every time after the cutoff, wherever it stands. */
  function Live(calls: seq<real>, cutoff: real): (r: seq<real>)
    ensures |r| <= |calls|
  {
    if |calls| == 0 then []
    else
      var n := |calls| - 1;
      Live(calls[..n], cutoff) + (if calls[n] > cutoff then [calls[n]] else [])
  }

  /** The deque form's pruning: stop at the first time that is still inside the window. */
  function DropExpired(calls: seq<real>, cutoff: real): seq<real> {
    if |calls| > 0 && calls[0] <= cutoff then DropExpired(calls[1..], cutoff) else calls
  }

  ghost predicate Affordable(b: Budget, cost: real) {
    && b.spent + Sum(b.reserved) + cost <= b.spendLimit
    && |b.calls| + |b.reserved| < b.rateLimit
  }

  function Pruned(b: Budget, now: real): Budget {
    b.(calls := Live(b.calls, now - b.window))
  }

  function Reserve(b: Budget, token: Token, cost: real, now: real): Budget {
    var p := Pruned(b, now);
    p.(reserved := p.reserved[token := cost])
  }

  function Commit(b: Budget, token: Token, now: real): Budget
    requires token in b.reserved
  {
    b.(spent := b.spent + b.reserved[token], calls := b.calls + [now], reserved := b.reserved - {token})
  }

  function Release(b: Budget, token: Token): Budget {
    b.(reserved := b.reserved - {token})
  }

  // ----- one call, and whole traces of calls -----

  datatype Call =
    | Probe(cost: real, now: real)
    | Hold(token: Token, cost: real, now: real)
    | Charge(token: Token, now: real)
    | Return(token: Token)

  /** The persisted form: a negative cost raises before the row is touched. */
  ghost function Step(b: Budget, c: Call): (Budget, bool) {
    match c
    case Probe(cost, now) =>
      if cost < 0.0 then (b, false) else (Pruned(b, now), Affordable(Pruned(b, now), cost))
    case Hold(token, cost, now) =>
      if cost < 0.0 then (b, false)
      else if Affordable(Pruned(b, now), cost) then (Reserve(b, token, cost, now), true)
      else (Pruned(b, now), false)
    case Charge(token, now) =>
      if token in b.reserved then (Commit(b, token, now), true) else (b, false)
    case Return(token) =>
      (Release(b, token), token in b.reserved)
  }

  function DequePruned(b: Budget, now: real): Budget {
    b.(calls := DropExpired(b.calls, now - b.window))
  }

  /** The deque form, one call. */
  ghost function DequeStep(b: Budget, c: Call): (Budget, bool) {
    match c
    case Probe(cost, now) =>
      if cost < 0.0 then (b, false) else (DequePruned(b, now), Affordable(DequePruned(b, now), cost))
    case Hold(token, cost, now) =>
      if cost < 0.0 then (b, false)
      else
        var p := DequePruned(b, now);
        if Affordable(p, cost) then (p.(reserved := p.reserved[token := cost]), true) else (p, false)
    case Charge(token, now) =>
      if token in b.reserved then (Commit(b, token, now), true) else (b, false)
    case Return(token) =>
      (Release(b, token), token in b.reserved)
  }

  datatype Trace = Trace(budget: Budget, answers: seq<bool>, history: seq<real>)

  ghost function Extend(t: Trace, c: Call): Trace {
    var (b', ok) := Step(t.budget, c);
    Trace(b', t.answers + [ok], if ok && c.Charge? then t.history + [c.now] else t.history)
  }

  ghost function Run(b: Budget, calls: seq<Call>): Trace {
    if |calls| == 0 then Trace(b, [], [])
    else Extend(Run(b, calls[..|calls| - 1]), calls[|calls| - 1])
  }

  ghost function DequeRun(b: Budget, calls: seq<Call>): Trace {
    if |calls| == 0 then Trace(b, [], [])
    else
      var n := |calls| - 1;
      var t := DequeRun(b, calls[..n]);
      var (b', ok) := DequeStep(t.budget, calls[n]);
      Trace(b', t.answers + [ok], if ok && calls[n].Charge? then t.history + [calls[n].now] else t.history)
  }

  // ----- pruning -----

  ghost predicate Sorted(s: seq<real>) {
    forall i, j :: 0 <= i < j < |s| ==> s[i] <= s[j]
  }

  /** No time inside the window stands before an expired one. */
  ghost predicate ExpiredFirst(s: seq<real>, cutoff: real) {
    forall i, j :: 0 <= i < j < |s| && s[i] > cutoff ==> s[j] > cutoff
  }

  lemma {:induction false} LiveConcat(a: seq<real>, b: seq<real>, cutoff: real)
    ensures Live(a + b, cutoff) == Live(a, cutoff) + Live(b, cutoff)
  {
    if |b| == 0 {
      assert a + b == a;
    } else {
      var n := |b| - 1;
      assert (a + b)[..|a + b| - 1] == a + b[..n];
      LiveConcat(a, b[..n], cutoff);
    }
  }

  lemma {:induction false} LiveAll(s: seq<real>, cutoff: real)
    ensures (forall i :: 0 <= i < |s| ==> s[i] > cutoff) <==> |Live(s, cutoff)| == |s|
    ensures |Live(s, cutoff)| == |s| ==> Live(s, cutoff) == s
  {
    if |s| > 0 {
      var n := |s| - 1;
      LiveAll(s[..n], cutoff);
      assert s[..n] + [s[n]] == s;
    }
  }

  lemma ExpiredFirstTail(s: seq<real>, cutoff: real)
    requires |s| > 0 && s[0] <= cutoff
    ensures ExpiredFirst(s, cutoff) <==> ExpiredFirst(s[1..], cutoff)
  {
    var rest := s[1..];
    assert forall i :: 0 < i < |s| ==> s[i] == rest[i - 1];
    if ExpiredFirst(rest, cutoff) {
      forall i, j | 0 <= i < j < |s| && s[i] > cutoff ensures s[j] > cutoff {
        assert rest[i - 1] > cutoff ==> rest[j - 1] > cutoff;
      }
    }
  }

  lemma LiveFirst(s: seq<real>, cutoff: real)
    requires |s| > 0
    ensures Live(s, cutoff) == (if s[0] > cutoff then [s[0]] else []) + Live(s[1..], cutoff)
  {
    assert s == [s[0]] + s[1..];
    LiveConcat([s[0]], s[1..], cutoff);
  }

  /**
   The left-popping loop computes the filter exactly on the lists where nothing
   live stands before something expired.
   */
  lemma {:induction false} DropIsFilterIff(s: seq<real>, cutoff: real)
    ensures DropExpired(s, cutoff) == Live(s, cutoff) <==> ExpiredFirst(s, cutoff)
  {
    if |s| > 0 {
      if s[0] <= cutoff {
        DropIsFilterIff(s[1..], cutoff);
        LiveFirst(s, cutoff);
        ExpiredFirstTail(s, cutoff);
      } else {
        LiveAll(s, cutoff);
      }
    }
  }

  /** A clock that runs backwards separates the two forms. */
  lemma BackwardClockSeparates()
    ensures !ExpiredFirst([10.0, 1.0], 5.0)
    ensures DropExpired([10.0, 1.0], 5.0) != Live([10.0, 1.0], 5.0)
  {
    var s := [10.0, 1.0];
    assert s[0] > 5.0 && !(s[1] > 5.0);
    DropIsFilterIff(s, 5.0);
  }

  // ----- the deque form refines the persisted form -----

  ghost predicate Timed(calls: seq<Call>) {
    forall i, j :: 0 <= i < j < |calls| && !calls[i].Return? && !calls[j].Return? ==> calls[i].now <= calls[j].now
  }

  ghost predicate Covers(s: seq<real>, calls: seq<Call>) {
    forall i, k :: 0 <= i < |s| && 0 <= k < |calls| && !calls[k].Return? ==> s[i] <= calls[k].now
  }

  lemma {:induction false} LiveKeepsSorted(s: seq<real>, cutoff: real)
    requires Sorted(s)
    ensures Sorted(Live(s, cutoff))
    ensures forall x :: x in Live(s, cutoff) ==> x in s
  {
    if |s| > 0 {
      var n := |s| - 1;
      LiveKeepsSorted(s[..n], cutoff);
      var r := Live(s[..n], cutoff);
      forall x | x in r ensures x in s && x <= s[n] {
        var i :| 0 <= i < n && s[i] == x;
      }
      assert forall i :: 0 <= i < |r| ==> r[i] in r;
    }
  }

  lemma PruningsAgree(b: Budget, now: real)
    requires Sorted(b.calls)
    ensures DequePruned(b, now) == Pruned(b, now)
    ensures Sorted(Pruned(b, now).calls)
    ensures forall x :: x in Pruned(b, now).calls ==> x in b.calls
  {
    DropIsFilterIff(b.calls, now - b.window);
    LiveKeepsSorted(b.calls, now - b.window);
  }

  lemma SortedAppend(s: seq<real>, now: real)
    requires Sorted(s) && forall x :: x in s ==> x <= now
    ensures Sorted(s + [now])
  {
    assert forall i :: 0 <= i < |s| ==> s[i] in s;
  }

  /** One call, on a sorted list and at a time no earlier than any listed one. */
  lemma StepsAgree(b: Budget, c: Call)
    requires Sorted(b.calls)
    requires !c.Return? ==> forall x :: x in b.calls ==> x <= c.now
    ensures DequeStep(b, c) == Step(b, c)
    ensures Sorted(Step(b, c).0.calls)
    ensures forall x :: x in Step(b, c).0.calls ==> x in b.calls || (c.Charge? && x == c.now)
  {
    match c
    case Probe(_, now) => PruningsAgree(b, now);
    case Hold(_, _, now) => PruningsAgree(b, now);
    case Charge(_, now) => SortedAppend(b.calls, now);
    case Return(_) =>
  }

  /** A time the budget started with, or that of a charge. */
  ghost predicate Stems(b: Budget, calls: seq<Call>, x: real) {
    x in b.calls || exists k :: 0 <= k < |calls| && calls[k].Charge? && calls[k].now == x
  }

  lemma StemsMore(b: Budget, calls: seq<Call>, c: Call, x: real)
    requires Stems(b, calls, x) || (c.Charge? && x == c.now)
    ensures Stems(b, calls + [c], x)
  {
    if x !in b.calls {
      if Stems(b, calls, x) {
        var k :| 0 <= k < |calls| && calls[k].Charge? && calls[k].now == x;
        assert (calls + [c])[k] == calls[k];
      } else {
        assert (calls + [c])[|calls|] == c;
      }
    }
  }

  lemma StemsBefore(b: Budget, calls: seq<Call>, c: Call, x: real)
    requires Timed(calls + [c]) && Covers(b.calls, calls + [c]) && Stems(b, calls, x) && !c.Return?
    ensures x <= c.now
  {
    var all := calls + [c];
    assert all[|calls|] == c;
    if x in b.calls {
      var i :| 0 <= i < |b.calls| && b.calls[i] == x;
    } else {
      var k :| 0 <= k < |calls| && calls[k].Charge? && calls[k].now == x;
      assert all[k] == calls[k];
    }
  }

  lemma RunLast(b: Budget, calls: seq<Call>, c: Call)
    requires DequeRun(b, calls) == Run(b, calls) && DequeStep(Run(b, calls).budget, c) == Step(Run(b, calls).budget, c)
    ensures DequeRun(b, calls + [c]) == Run(b, calls + [c])
    ensures Run(b, calls + [c]).budget == Step(Run(b, calls).budget, c).0
  {
    assert (calls + [c])[..|calls|] == calls;
  }

  /**
   On every trace with nondecreasing times the two forms give the same answers and
   keep the same spend, reservations, retained calls and commit history.
   */
  lemma {:induction false} DequeRefinesPersisted(b: Budget, calls: seq<Call>)
    requires Sorted(b.calls) && Timed(calls) && Covers(b.calls, calls)
    ensures DequeRun(b, calls) == Run(b, calls)
    ensures Sorted(Run(b, calls).budget.calls) && forall x :: x in Run(b, calls).budget.calls ==> Stems(b, calls, x)
  {
    if |calls| > 0 {
      var front, c := calls[..|calls| - 1], calls[|calls| - 1];
      DequeRefinesPersisted(b, front);
      var kept := Run(b, front).budget;
      assert calls == front + [c];
      forall x | x in kept.calls && !c.Return? ensures x <= c.now { StemsBefore(b, front, c, x); }
      StepsAgree(kept, c);
      RunLast(b, front, c);
      forall x | x in Step(kept, c).0.calls ensures Stems(b, calls, x) { StemsMore(b, front, c, x); }
    }
  }

  // ----- caps over every trace -----

  /** How many times fall in the half-open window (lo, hi]. */
  function CountIn(h: seq<real>, lo: real, hi: real): nat {
    if |h| == 0 then 0
    else CountIn(h[..|h| - 1], lo, hi) + (if lo < h[|h| - 1] <= hi then 1 else 0)
  }

  /** Commits in the window (x, x + width]. */
  function WindowCount(h: seq<real>, x: real, width: real): nat {
    CountIn(h, x, x + width)
  }

  function Cap(limit: int): nat {
    if limit < 0 then 0 else limit
  }

  lemma {:induction false} LiveMonotone(h: seq<real>, lo: real, hi: real)
    requires lo <= hi
    ensures |Live(h, hi)| <= |Live(h, lo)|
  {
    if |h| > 0 { LiveMonotone(h[..|h| - 1], lo, hi); }
  }

  lemma {:induction false} LiveTwice(h: seq<real>, lo: real, hi: real)
    requires lo <= hi
    ensures Live(Live(h, lo), hi) == Live(h, hi)
  {
    if |h| > 0 {
      var n := |h| - 1;
      LiveTwice(h[..n], lo, hi);
      LiveConcat(Live(h[..n], lo), if h[n] > lo then [h[n]] else [], hi);
      assert Live([h[n]], hi) == if h[n] > hi then [h[n]] else [];
    }
  }

  lemma {:induction false} CountAtMostLive(h: seq<real>, lo: real, hi: real)
    ensures CountIn(h, lo, hi) <= |Live(h, lo)|
  {
    if |h| > 0 { CountAtMostLive(h[..|h| - 1], lo, hi); }
  }

  /** Filtering the retained list or the full history at `cut` or later gives the same times. */
  ghost predicate Retains(calls: seq<real>, history: seq<real>, cut: real) {
    forall c: real :: c >= cut ==> SameLive(calls, history, c)
  }

  ghost predicate SameLive(calls: seq<real>, history: seq<real>, cutoff: real) {
    Live(calls, cutoff) == Live(history, cutoff)
  }

  lemma RetainsPruned(calls: seq<real>, history: seq<real>, cut: real, cutoff: real)
    requires Retains(calls, history, cut) && cut <= cutoff
    ensures Live(calls, cutoff) == Live(history, cutoff)
    ensures Retains(Live(calls, cutoff), history, cutoff)
  {
    assert SameLive(calls, history, cutoff);
    forall c: real | c >= cutoff ensures SameLive(Live(calls, cutoff), history, c) {
      LiveTwice(history, cutoff, c);
    }
  }

  lemma RetainsAppend(calls: seq<real>, history: seq<real>, cut: real, now: real)
    requires Retains(calls, history, cut)
    ensures Retains(calls + [now], history + [now], cut)
  {
    forall c: real | c >= cut ensures SameLive(calls + [now], history + [now], c) {
      assert SameLive(calls, history, c);
      LiveConcat(calls, [now], c);
      LiveConcat(history, [now], c);
    }
  }

  ghost predicate WithinSpend(b: Budget) {
    && NonNegative(b.reserved)
    && 0.0 <= b.spent
    && (Exposure(b) <= b.spendLimit || Exposure(b) == 0.0)
  }

  ghost predicate WithinRate(history: seq<real>, held: nat, window: real, limit: int, now: real) {
    && |Live(history, now - window)| + held <= Cap(limit)
    && forall x: real :: WindowCount(history, x, window) <= Cap(limit)
  }

  /** What every prefix of a trace keeps; `cut` is the largest cutoff used so far. */
  ghost predicate Sound(t: Trace, start: Budget, now: real, cut: real) {
    && t.budget.spendLimit == start.spendLimit
    && t.budget.rateLimit == start.rateLimit
    && t.budget.window == start.window
    && WithinSpend(t.budget)
    && cut <= now - start.window
    && Retains(t.budget.calls, t.history, cut)
    && WithinRate(t.history, |t.budget.reserved|, start.window, start.rateLimit, now)
  }

  lemma SpendReserved(b: Budget, token: Token, cost: real)
    requires WithinSpend(b) && cost >= 0.0 && Affordable(b, cost)
    ensures WithinSpend(b.(reserved := b.reserved[token := cost]))
    ensures |b.reserved[token := cost]| <= |b.reserved| + 1
  {
    SumPut(b.reserved, token, cost);
    assert b.reserved[token := cost].Keys == b.reserved.Keys + {token};
  }

  lemma SpendReleased(b: Budget, token: Token)
    requires WithinSpend(b)
    ensures WithinSpend(Release(b, token))
    ensures |Release(b, token).reserved| <= |b.reserved|
    ensures token in b.reserved ==> |Release(b, token).reserved| == |b.reserved| - 1
  {
    var r := b.reserved - {token};
    assert r.Keys == b.reserved.Keys - {token};
    SumNonNegative(r);
    SumNonNegative(b.reserved);
    if token in b.reserved {
      SumRemove(b.reserved, token);
    } else {
      assert r == b.reserved;
    }
  }

  /** Committing moves cost from reserved to spent; the exposure does not change. */
  lemma CommitConserves(b: Budget, token: Token, now: real)
    requires token in b.reserved
    ensures Exposure(Commit(b, token, now)) == Exposure(b)
  {
    SumRemove(b.reserved, token);
  }

  lemma RateCharged(history: seq<real>, held: nat, window: real, limit: int, now: real)
    requires held > 0 && WithinRate(history, held, window, limit, now)
    ensures WithinRate(history + [now], held - 1, window, limit, now)
  {
    var h := history + [now];
    assert h[..|h| - 1] == history;
    LiveConcat(history, [now], now - window);
    forall x: real ensures WindowCount(h, x, window) <= Cap(limit) {
      assert WindowCount(history, x, window) <= Cap(limit);
      if x < now <= x + window {
        CountAtMostLive(history, x, x + window);
        LiveMonotone(history, now - window, x);
      }
    }
  }

  lemma ReturnIsSound(t: Trace, start: Budget, token: Token, answers: seq<bool>, now: real, cut: real)
    requires Sound(t, start, now, cut)
    ensures Sound(Trace(Release(t.budget, token), answers, t.history), start, now, cut)
  {
    SpendReleased(t.budget, token);
  }

  lemma ChargeIsSound(t: Trace, start: Budget, token: Token, answers: seq<bool>, now: real, cut: real)
    requires Sound(t, start, now, cut) && token in t.budget.reserved
    ensures Sound(Trace(Commit(t.budget, token, now), answers, t.history + [now]), start, now, cut)
  {
    SpendReleased(t.budget, token);
    CommitConserves(t.budget, token, now);
    RetainsAppend(t.budget.calls, t.history, cut, now);
    RateCharged(t.history, |t.budget.reserved|, start.window, start.rateLimit, now);
  }

  lemma PruneIsSound(t: Trace, start: Budget, answers: seq<bool>, now: real, cut: real)
    requires Sound(t, start, now, cut)
    ensures Sound(Trace(Pruned(t.budget, now), answers, t.history), start, now, now - start.window)
    ensures Pruned(t.budget, now).calls == Live(t.history, now - start.window)
  {
    RetainsPruned(t.budget.calls, t.history, cut, now - start.window);
  }

  lemma HoldIsSound(t: Trace, start: Budget, token: Token, cost: real, answers: seq<bool>, now: real, cut: real)
    requires Sound(t, start, now, cut)
    requires cost >= 0.0 && Affordable(Pruned(t.budget, now), cost)
    ensures Sound(Trace(Reserve(t.budget, token, cost, now), answers, t.history), start, now, now - start.window)
  {
    PruneIsSound(t, start, answers, now, cut);
    SpendReserved(Pruned(t.budget, now), token, cost);
  }

  /** One call at the current time keeps the invariant. */
  lemma StepIsSound(t: Trace, start: Budget, c: Call, now: real, cut: real) returns (cut': real)
    requires Sound(t, start, now, cut)
    requires c.Return? || c.now == now
    ensures Sound(Extend(t, c), start, now, cut')
  {
    cut' := cut;
    var answers := Extend(t, c).answers;
    match c
    case Return(token) => ReturnIsSound(t, start, token, answers, now, cut);
    case Charge(token, _) =>
      if token in t.budget.reserved { ChargeIsSound(t, start, token, answers, now, cut); }
    case Probe(cost, _) =>
      if cost >= 0.0 {
        PruneIsSound(t, start, answers, now, cut);
        cut' := now - start.window;
      }
    case Hold(token, cost, _) =>
      if cost >= 0.0 {
        cut' := now - start.window;
        if Affordable(Pruned(t.budget, now), cost) {
          HoldIsSound(t, start, token, cost, answers, now, cut);
        } else {
          PruneIsSound(t, start, answers, now, cut);
        }
      }
  }

  ghost predicate Fresh(b: Budget) {
    b.spent == 0.0 && b.calls == [] && b.reserved == map[]
  }

  ghost predicate NotBefore(calls: seq<Call>, start: real) {
    forall i :: 0 <= i < |calls| && !calls[i].Return? ==> start <= calls[i].now
  }

  ghost function LastTime(calls: seq<Call>, start: real): real {
    if |calls| == 0 then start
    else if calls[|calls| - 1].Return? then LastTime(calls[..|calls| - 1], start)
    else calls[|calls| - 1].now
  }

  lemma {:induction false} LastTimeBelow(calls: seq<Call>, start: real, now: real)
    requires start <= now && forall i :: 0 <= i < |calls| && !calls[i].Return? ==> calls[i].now <= now
    ensures LastTime(calls, start) <= now
  {
    if |calls| > 0 { LastTimeBelow(calls[..|calls| - 1], start, now); }
  }

  lemma SoundLater(t: Trace, start: Budget, now: real, cut: real, later: real)
    requires Sound(t, start, now, cut) && now <= later
    ensures Sound(t, start, later, cut)
  {
    LiveMonotone(t.history, now - start.window, later - start.window);
  }

  lemma {:induction false} RunIsSound(b: Budget, calls: seq<Call>, start: real) returns (cut: real)
    requires Fresh(b) && Timed(calls) && NotBefore(calls, start)
    ensures Sound(Run(b, calls), b, LastTime(calls, start), cut)
  {
    if |calls| == 0 {
      cut := start - b.window;
    } else {
      var n := |calls| - 1;
      cut := RunIsSound(b, calls[..n], start);
      var now := LastTime(calls, start);
      if !calls[n].Return? { LastTimeBelow(calls[..n], start, now); }
      SoundLater(Run(b, calls[..n]), b, LastTime(calls[..n], start), cut, now);
      cut := StepIsSound(Run(b, calls[..n]), b, calls[n], now, cut);
    }
  }

  /**
   Over every reserve/commit/release trace with a nondecreasing clock, spend plus
   reservations never exceeds the spend limit and every window (x, x + window]
   holds at most `rateLimit` commits, although pruning has discarded old times.
   */
  lemma BudgetCaps(b: Budget, calls: seq<Call>, start: real)
    requires Fresh(b) && Timed(calls) && NotBefore(calls, start)
    ensures b.spendLimit >= 0.0 ==> Exposure(Run(b, calls).budget) <= b.spendLimit
    ensures forall x: real :: WindowCount(Run(b, calls).history, x, b.window) <= Cap(b.rateLimit)
  {
    var cut := RunIsSound(b, calls, start);
  }

  lemma RunSnoc(b: Budget, calls: seq<Call>, c: Call)
    ensures Run(b, calls + [c]) == Extend(Run(b, calls), c)
  {
    assert (calls + [c])[..|calls|] == calls;
  }

  // ----- windows closed at both ends -----

  /** Commits at exactly x. */
  function CountAt(h: seq<real>, x: real): nat {
    if |h| == 0 then 0 else CountAt(h[..|h| - 1], x) + (if h[|h| - 1] == x then 1 else 0)
  }

  /** Commits in [x, x + width], both ends included. */
  function ClosedCount(h: seq<real>, x: real, width: real): nat {
    if |h| == 0 then 0 else ClosedCount(h[..|h| - 1], x, width) + (if x <= h[|h| - 1] <= x + width then 1 else 0)
  }

  lemma {:induction false} ClosedCountSplits(h: seq<real>, x: real, width: real)
    requires width >= 0.0
    ensures ClosedCount(h, x, width) == WindowCount(h, x, width) + CountAt(h, x)
  {
    if |h| > 0 { ClosedCountSplits(h[..|h| - 1], x, width); }
  }

  lemma {:induction false} CountAtWithin(h: seq<real>, x: real, lo: real, hi: real)
    requires lo < x <= hi
    ensures CountAt(h, x) <= CountIn(h, lo, hi)
  {
    if |h| > 0 { CountAtWithin(h[..|h| - 1], x, lo, hi); }
  }

  /**
   A closed window counts what the half-open one counts and the commits at its first
   instant besides. So it is within the rate limit when no commit lies there, and within
   twice the limit always.
   */
  lemma ClosedWindowCap(b: Budget, calls: seq<Call>, start: real, x: real)
    requires Fresh(b) && Timed(calls) && NotBefore(calls, start) && b.window > 0.0
    ensures var h := Run(b, calls).history;
      && ClosedCount(h, x, b.window) == WindowCount(h, x, b.window) + CountAt(h, x)
      && (CountAt(h, x) == 0 ==> ClosedCount(h, x, b.window) <= Cap(b.rateLimit))
      && ClosedCount(h, x, b.window) <= 2 * Cap(b.rateLimit)
  {
    var h := Run(b, calls).history;
    BudgetCaps(b, calls, start);
    ClosedCountSplits(h, x, b.window);
    CountAtWithin(h, x, x - b.window, x - b.window + b.window);
    assert WindowCount(h, x - b.window, b.window) <= Cap(b.rateLimit);
  }

  // ----- bursts: as many commits at one instant as the limit allows -----

  function Repeat(x: real, n: nat): seq<real> {
    seq(n, i => x)
  }

  /** A budget that holds nothing and can afford a call that costs nothing. */
  ghost predicate Idle(b: Budget) {
    b.reserved == map[] && b.spent <= b.spendLimit
  }

  lemma OneCharge(t: Trace, token: Token, now: real)
    requires Idle(t.budget) && |Live(t.budget.calls, now - t.budget.window)| < t.budget.rateLimit
    ensures
      var t' := Extend(Extend(t, Hold(token, 0.0, now)), Charge(token, now));
      && t'.history == t.history + [now]
      && t'.budget == t.budget.(calls := Live(t.budget.calls, now - t.budget.window) + [now])
  {
    var held := Extend(t, Hold(token, 0.0, now)).budget;
    assert held.reserved == map[token := 0.0];
    assert held.reserved - {token} == map[];
  }

  lemma RunTwo(b: Budget, calls: seq<Call>, c: Call, d: Call)
    ensures Run(b, calls + [c, d]) == Extend(Extend(Run(b, calls), c), d)
  {
    RunSnoc(b, calls, c);
    RunSnoc(b, calls + [c], d);
    assert calls + [c, d] == calls + [c] + [d];
  }

  /** `more` continues `calls` with calls at `now`. */
  ghost predicate Continues(calls: seq<Call>, more: seq<Call>, now: real) {
    && |calls| <= |more| && more[..|calls|] == calls
    && forall i :: |calls| <= i < |more| ==> !more[i].Return? && more[i].now == now
  }

  lemma ContinuesMore(calls: seq<Call>, middle: seq<Call>, more: seq<Call>, now: real)
    requires Continues(calls, middle, now) && Continues(middle, more, now)
    ensures Continues(calls, more, now)
  {
    assert forall i :: 0 <= i < |middle| ==> more[i] == more[..|middle|][i];
  }

  lemma RepeatMore(x: real, n: nat)
    ensures Repeat(x, n + 1) == Repeat(x, n) + [x]
  {
  }

  lemma RepeatAfter(h: seq<real>, x: real, n: nat)
    ensures h + Repeat(x, n) + [x] == h + Repeat(x, n + 1)
  {
    RepeatMore(x, n);
  }

  lemma {:induction false} LiveRepeat(x: real, n: nat, cutoff: real)
    ensures Live(Repeat(x, n), cutoff) == if x > cutoff then Repeat(x, n) else []
  {
    if n > 0 {
      RepeatMore(x, n - 1);
      LiveRepeat(x, n - 1, cutoff);
      assert Repeat(x, n)[..n - 1] == Repeat(x, n - 1);
    }
  }

  /** `n` commits at `now` later, and nothing else remembered. */
  ghost predicate Filled(t: Trace, m: Trace, now: real, n: nat) {
    m.history == t.history + Repeat(now, n) && m.budget == t.budget.(calls := if n == 0 then t.budget.calls else Repeat(now, n))
  }

  lemma {:induction false} FilledLive(t: Trace, m: Trace, now: real, n: nat)
    requires Filled(t, m, now, n) && t.budget.window > 0.0 && Live(t.budget.calls, now - t.budget.window) == []
    ensures Live(m.budget.calls, now - t.budget.window) == Repeat(now, n)
  {
    if n == 0 {
      assert m.budget.calls == t.budget.calls && Repeat(now, n) == [];
    } else {
      assert m.budget.calls == Repeat(now, n);
      LiveRepeat(now, n, now - t.budget.window);
    }
  }

  lemma FillOne(t: Trace, m: Trace, token: Token, now: real, n: nat)
    requires Filled(t, m, now, n) && Idle(t.budget) && n < t.budget.rateLimit && t.budget.window > 0.0
    requires Live(t.budget.calls, now - t.budget.window) == []
    ensures Filled(t, Extend(Extend(m, Hold(token, 0.0, now)), Charge(token, now)), now, n + 1)
  {
    FilledLive(t, m, now, n);
    OneCharge(m, token, now);
    RepeatMore(now, n);
    RepeatAfter(t.history, now, n);
  }

  lemma FillMore(b: Budget, calls: seq<Call>, t: Trace, token: Token, now: real, n: nat) returns (more: seq<Call>)
    requires Filled(t, Run(b, calls), now, n) && Idle(t.budget) && n < t.budget.rateLimit && t.budget.window > 0.0
    requires Live(t.budget.calls, now - t.budget.window) == []
    ensures Continues(calls, more, now) && Filled(t, Run(b, more), now, n + 1)
  {
    FillOne(t, Run(b, calls), token, now, n);
    RunTwo(b, calls, Hold(token, 0.0, now), Charge(token, now));
    more := calls + [Hold(token, 0.0, now), Charge(token, now)];
  }

  lemma FilledNone(t: Trace, now: real)
    ensures Filled(t, t, now, 0)
  {
    assert t.history + Repeat(now, 0) == t.history;
  }

  /** Inside a window of positive width a burst fills what room the limit leaves. */
  lemma {:induction false} BurstFills(b: Budget, calls: seq<Call>, t: Trace, token: Token, now: real, n: nat) returns (more: seq<Call>)
    requires t == Run(b, calls) && Idle(t.budget) && n <= t.budget.rateLimit && t.budget.window > 0.0
    requires Live(t.budget.calls, now - t.budget.window) == []
    ensures Continues(calls, more, now) && Filled(t, Run(b, more), now, n)
  {
    if n == 0 {
      more := calls;
      FilledNone(t, now);
    } else {
      var middle := BurstFills(b, calls, t, token, now, n - 1);
      more := FillMore(b, middle, t, token, now, n - 1);
      ContinuesMore(calls, middle, more, now);
    }
  }

  lemma {:induction false} ClosedCountAll(h: seq<real>, x: real, width: real)
    requires forall i :: 0 <= i < |h| ==> x <= h[i] <= x + width
    ensures ClosedCount(h, x, width) == |h|
  {
    if |h| > 0 { ClosedCountAll(h[..|h| - 1], x, width); }
  }

  lemma NoneBefore<T>(s: seq<T>)
    ensures [] + s == s
  {
  }

  /** A full burst at 0. */
  lemma BurstFromStart(b: Budget, token: Token, n: nat) returns (calls: seq<Call>)
    requires Fresh(b) && b.window > 0.0 && b.spendLimit >= 0.0 && 1 <= n <= b.rateLimit
    ensures Continues([], calls, 0.0)
    ensures Run(b, calls).history == Repeat(0.0, n) && Run(b, calls).budget == b.(calls := Repeat(0.0, n))
  {
    calls := BurstFills(b, [], Trace(b, [], []), token, 0.0, n);
    NoneBefore(Repeat(0.0, n));
  }

  lemma BurstAfter(b: Budget, first: seq<Call>, token: Token, n: nat) returns (calls: seq<Call>)
    requires b.window > 0.0 && b.spendLimit >= 0.0 && 1 <= n <= b.rateLimit && Fresh(b)
    requires Run(b, first).history == Repeat(0.0, n) && Run(b, first).budget == b.(calls := Repeat(0.0, n))
    ensures Continues(first, calls, b.window)
    ensures Run(b, calls).history == Repeat(0.0, n) + Repeat(b.window, n)
  {
    LiveRepeat(0.0, n, b.window - b.window);
    calls := BurstFills(b, first, Run(b, first), token, b.window, n);
  }

  lemma TwoBurstsTimed(first: seq<Call>, calls: seq<Call>, width: real)
    requires width >= 0.0 && Continues([], first, 0.0) && Continues(first, calls, width)
    ensures Timed(calls) && NotBefore(calls, 0.0)
  {
    assert forall i :: 0 <= i < |first| ==> calls[i] == calls[..|first|][i];
  }

  /** Every limit is exceeded, and twice the limit is reached, in the closed window between two full bursts. */
  lemma ClosedWindowExceedsRate(b: Budget, token: Token) returns (calls: seq<Call>)
    requires Fresh(b) && b.window > 0.0 && b.spendLimit >= 0.0
    ensures Timed(calls) && NotBefore(calls, 0.0)
    ensures ClosedCount(Run(b, calls).history, 0.0, b.window) == 2 * Cap(b.rateLimit)
  {
    calls := [];
    if b.rateLimit >= 1 {
      var first := BurstFromStart(b, token, b.rateLimit);
      calls := BurstAfter(b, first, token, b.rateLimit);
      TwoBurstsTimed(first, calls, b.window);
      ClosedCountAll(Repeat(0.0, b.rateLimit) + Repeat(b.window, b.rateLimit), 0.0, b.window);
    }
  }

  // ----- a window of no width -----

  lemma {:induction false} LiveNone(s: seq<real>, cutoff: real)
    requires forall i :: 0 <= i < |s| ==> s[i] <= cutoff
    ensures Live(s, cutoff) == []
  {
    if |s| > 0 { LiveNone(s[..|s| - 1], cutoff); }
  }

  /** `n` commits at `now` later, and no time after it. */
  ghost predicate Crowded(t: Trace, m: Trace, now: real, n: nat) {
    && m.history == t.history + Repeat(now, n) && m.budget == t.budget.(calls := m.budget.calls)
    && forall i :: 0 <= i < |m.budget.calls| ==> m.budget.calls[i] <= now
  }

  lemma CrowdOne(t: Trace, m: Trace, token: Token, now: real, n: nat)
    requires Crowded(t, m, now, n) && Idle(t.budget) && t.budget.window == 0.0 && t.budget.rateLimit >= 1
    ensures Crowded(t, Extend(Extend(m, Hold(token, 0.0, now)), Charge(token, now)), now, n + 1)
  {
    LiveNone(m.budget.calls, now - t.budget.window);
    OneCharge(m, token, now);
    RepeatAfter(t.history, now, n);
  }

  lemma CrowdMore(b: Budget, calls: seq<Call>, t: Trace, token: Token, now: real, n: nat) returns (more: seq<Call>)
    requires Crowded(t, Run(b, calls), now, n) && Idle(t.budget) && t.budget.window == 0.0 && t.budget.rateLimit >= 1
    ensures Continues(calls, more, now) && Crowded(t, Run(b, more), now, n + 1)
  {
    CrowdOne(t, Run(b, calls), token, now, n);
    RunTwo(b, calls, Hold(token, 0.0, now), Charge(token, now));
    more := calls + [Hold(token, 0.0, now), Charge(token, now)];
  }

  lemma {:induction false} CrowdFromStart(b: Budget, token: Token, n: nat) returns (calls: seq<Call>)
    requires Fresh(b) && b.window == 0.0 && b.spendLimit >= 0.0 && b.rateLimit >= 1
    ensures Continues([], calls, 0.0) && Crowded(Trace(b, [], []), Run(b, calls), 0.0, n)
  {
    if n == 0 {
      calls := [];
    } else {
      var middle := CrowdFromStart(b, token, n - 1);
      calls := CrowdMore(b, middle, Trace(b, [], []), token, 0.0, n - 1);
      ContinuesMore([], middle, calls, 0.0);
    }
  }

  /** With a window of zero seconds nothing is ever remembered: any number of commits fits one instant. */
  lemma ZeroWindowUnbounded(b: Budget, token: Token, n: nat) returns (calls: seq<Call>)
    requires Fresh(b) && b.window == 0.0 && b.spendLimit >= 0.0 && b.rateLimit >= 1
    ensures Timed(calls) && ClosedCount(Run(b, calls).history, 0.0, b.window) == n
  {
    calls := CrowdFromStart(b, token, n);
    NoneBefore(Repeat(0.0, n));
    ClosedCountAll(Repeat(0.0, n), 0.0, b.window);
  }

  // ----- exactly which budgets can exceed their limit in a closed window -----

  /** This trace has more commits in [x, x + window] than the limit. */
  ghost predicate Exceeds(b: Budget, calls: seq<Call>, x: real) {
    Timed(calls) && ClosedCount(Run(b, calls).history, x, b.window) > Cap(b.rateLimit)
  }

  ghost predicate Exceedable(b: Budget) {
    exists calls: seq<Call>, x: real :: Exceeds(b, calls, x)
  }

  lemma {:induction false} NothingAdmitted(b: Budget, calls: seq<Call>)
    requires Fresh(b) && (b.rateLimit <= 0 || b.spendLimit < 0.0)
    ensures var t := Run(b, calls); t.history == [] && t.budget == b
  {
    if |calls| > 0 {
      NothingAdmitted(b, calls[..|calls| - 1]);
      var c := calls[|calls| - 1];
      if c.Return? { assert b.reserved - {c.token} == b.reserved; }
    }
  }

  lemma {:induction false} NoWindowNoCount(h: seq<real>, x: real, width: real)
    requires width < 0.0
    ensures ClosedCount(h, x, width) == 0
  {
    if |h| > 0 { NoWindowNoCount(h[..|h| - 1], x, width); }
  }

  /** The limit can be exceeded in a closed window exactly by a budget that admits anything at all. */
  lemma ExceedableIff(b: Budget)
    requires Fresh(b)
    ensures Exceedable(b) <==> b.rateLimit >= 1 && b.spendLimit >= 0.0 && b.window >= 0.0
  {
    if b.rateLimit >= 1 && b.spendLimit >= 0.0 && b.window >= 0.0 {
      if b.window > 0.0 {
        var calls := ClosedWindowExceedsRate(b, "");
        assert Exceeds(b, calls, 0.0);
      } else {
        var calls := ZeroWindowUnbounded(b, "", b.rateLimit + 1);
        assert Exceeds(b, calls, 0.0);
      }
    } else {
      forall calls: seq<Call>, x: real ensures !Exceeds(b, calls, x) {
        if b.window < 0.0 { NoWindowNoCount(Run(b, calls).history, x, b.window); } else { NothingAdmitted(b, calls); }
      }
    }
  }

  // ----- the in-process object -----

  class BudgetObject {
    var spendLimit: real
    var rateLimit: int
    var window: real
    var spent: real
    var calls: seq<real>
    var reserved: map<Token, real>

    ghost function State(): Budget
      reads this
    {
      Budget(spendLimit, rateLimit, window, spent, calls, reserved)
    }

    constructor (spendLimit: real, rateLimit: int, window: real)
      ensures State() == Budget(spendLimit, rateLimit, window, 0.0, [], map[])
    {
      this.spendLimit, this.rateLimit, this.window := spendLimit, rateLimit, window;
      spent, calls, reserved := 0.0, [], map[];
    }

    method Prune(now: real)
      modifies this`calls
      ensures State() == DequePruned(old(State()), now)
    {
      var cutoff := now - window;
      while |calls| > 0 && calls[0] <= cutoff
        invariant DropExpired(calls, cutoff) == DropExpired(old(calls), cutoff)
        decreases |calls|
      {
        calls := calls[1..];
      }
    }

    method CanAfford(cost: real, now: real) returns (ok: bool)
      modifies this`calls
      ensures (State(), ok) == DequeStep(old(State()), Probe(cost, now))
    {
      if cost < 0.0 { return false; }
      Prune(now);
      var held := Total(reserved);
      if spent + held + cost > spendLimit { return false; }
      if |calls| + |reserved| >= rateLimit { return false; }
      return true;
    }

    method TryReserve(token: Token, cost: real, now: real) returns (ok: bool)
      modifies this`calls, this`reserved
      ensures (State(), ok) == DequeStep(old(State()), Hold(token, cost, now))
    {
      ok := CanAfford(cost, now);
      if ok { reserved := reserved[token := cost]; }
    }

    method TryCommit(token: Token, now: real) returns (ok: bool)
      modifies this`spent, this`calls, this`reserved
      ensures (State(), ok) == DequeStep(old(State()), Charge(token, now))
    {
      if token !in reserved { return false; }
      var cost := reserved[token];
      reserved := reserved - {token};
      spent := spent + cost;
      calls := calls + [now];
      return true;
    }

    method TryRelease(token: Token) returns (ok: bool)
      modifies this`reserved
      ensures (State(), ok) == DequeStep(old(State()), Return(token))
    {
      ok := token in reserved;
      reserved := reserved - {token};
    }
  }
}
