/** Each agent's budget inside the kernel is a trace of the budget machine, so its caps hold in every reachable state. */
module AgentBudgets {
  import opened Ledger
  import opened Kernel
  import opened KernelInvariants
  import opened KernelSafety
  import opened Wrappers

  /** When an agent's operations succeeded, in the order of the settlements. */
  function CommitTimes(log: seq<Settlement>, agent: string): seq<real> {
    if |log| == 0 then []
    else
      var s := log[|log| - 1];
      CommitTimes(log[..|log| - 1], agent) + (if s.outcome == Succeeded && s.op.agent == agent then [s.at] else [])
  }

  lemma CommitTimesMore(log: seq<Settlement>, s: Settlement, agent: string)
    ensures CommitTimes(log + [s], agent) ==
            CommitTimes(log, agent) + (if s.outcome == Succeeded && s.op.agent == agent then [s.at] else [])
  {
    assert (log + [s])[..|log|] == log;
  }

  ghost predicate CallsBy(calls: seq<B.Call>, now: real) {
    forall i :: 0 <= i < |calls| && !calls[i].Return? ==> calls[i].now <= now
  }

  /** These calls, made on the default budget, give the agent's budget and its commit times. */
  ghost predicate Traces(b: Tables, start: real, agent: string, budget: B.Budget, calls: seq<B.Call>) {
    && B.Timed(calls) && B.NotBefore(calls, start) && CallsBy(calls, b.now)
    && B.Run(b.defaults, calls).budget == budget
    && B.Run(b.defaults, calls).history == CommitTimes(b.settled, agent)
  }

  ghost predicate HasTrace(b: Tables, start: real, agent: string) {
    exists calls :: Traces(b, start, agent, BudgetOf(b, agent), calls)
  }

  ghost predicate Traced(b: Tables, start: real) {
    start <= b.now && forall agent :: HasTrace(b, start, agent)
  }

  lemma {:induction false} CallsMore(calls: seq<B.Call>, c: B.Call, start: real, now: real)
    requires B.Timed(calls) && B.NotBefore(calls, start) && CallsBy(calls, now) && start <= now && (c.Return? || c.now == now)
    ensures B.Timed(calls + [c]) && B.NotBefore(calls + [c], start) && CallsBy(calls + [c], now)
  {
    var more := calls + [c];
    assert forall i :: 0 <= i < |more| ==> more[i] == if i < |calls| then calls[i] else c;
  }

  lemma {:induction false} TraceMore(d: B.Budget, calls: seq<B.Call>, c: B.Call, start: real, now: real)
    requires B.Timed(calls) && B.NotBefore(calls, start) && CallsBy(calls, now) && start <= now && (c.Return? || c.now == now)
    ensures B.Timed(calls + [c]) && B.NotBefore(calls + [c], start) && CallsBy(calls + [c], now)
    ensures B.Run(d, calls + [c]) == B.Extend(B.Run(d, calls), c)
  {
    CallsMore(calls, c, start, now);
    B.RunSnoc(d, calls, c);
  }

  /** Nothing an agent's trace depends on has changed. */
  lemma TraceStays(b: Tables, b': Tables, start: real, agent: string)
    requires HasTrace(b, start, agent) && b.now <= b'.now && b'.defaults == b.defaults
    requires BudgetOf(b', agent) == BudgetOf(b, agent) && CommitTimes(b'.settled, agent) == CommitTimes(b.settled, agent)
    ensures HasTrace(b', start, agent)
  {
    var calls :| Traces(b, start, agent, BudgetOf(b, agent), calls);
    assert Traces(b', start, agent, BudgetOf(b', agent), calls);
  }

  lemma AdmitTraces(b: Tables, start: real, r: Request, token: string)
    requires start <= b.now && HasTrace(b, start, r.op.agent) && Admissible(b, r, token)
    ensures HasTrace(Admit(b, r, token), start, r.op.agent)
  {
    var a, b' := r.op.agent, Admit(b, r, token);
    var calls :| Traces(b, start, a, BudgetOf(b, a), calls);
    var c := B.Hold(token, r.cost, b.now);
    TraceMore(b.defaults, calls, c, start, b.now);
    assert Traces(b', start, a, BudgetOf(b', a), calls + [c]);
  }

  lemma SettleTraces(b: Tables, start: real, o: OpKey, token: string, outcome: Outcome)
    requires start <= b.now && HasTrace(b, start, o.agent) && Settleable(b, o, token, None) && outcome != Unknown
    ensures HasTrace(Settle(b, o, token, outcome), start, o.agent)
  {
    var a, b' := o.agent, Settle(b, o, token, outcome);
    var calls :| Traces(b, start, a, BudgetOf(b, a), calls);
    var c := if outcome == Succeeded then B.Charge(token, b.now) else B.Return(token);
    TraceMore(b.defaults, calls, c, start, b.now);
    CommitTimesMore(b.settled, Settlement(o, token, outcome, b.budgets[a].reserved[token], b.now), a);
    assert Traces(b', start, a, BudgetOf(b', a), calls + [c]);
  }

  lemma AdmitKeepsTraces(b: Tables, start: real, r: Request, token: string)
    requires Traced(b, start) && Admissible(b, r, token)
    ensures Traced(Admit(b, r, token), start)
  {
    AdmitTraces(b, start, r, token);
    forall agent ensures HasTrace(Admit(b, r, token), start, agent) {
      if agent != r.op.agent { TraceStays(b, Admit(b, r, token), start, agent); }
    }
  }

  lemma SettleKeepsTraces(b: Tables, start: real, o: OpKey, token: string, outcome: Outcome)
    requires Traced(b, start) && Settleable(b, o, token, None) && outcome != Unknown
    ensures Traced(Settle(b, o, token, outcome), start)
  {
    var b' := Settle(b, o, token, outcome);
    SettleTraces(b, start, o, token, outcome);
    forall agent ensures HasTrace(b', start, agent) {
      if agent != o.agent {
        CommitTimesMore(b.settled, Settlement(o, token, outcome, b.budgets[o.agent].reserved[token], b.now), agent);
        TraceStays(b, b', start, agent);
      }
    }
  }

  lemma SameAccountsKeepTraces(b: Tables, b': Tables, start: real)
    requires Traced(b, start) && SameAccounts(b, b')
    ensures Traced(b', start)
  {
    forall agent ensures HasTrace(b', start, agent) { TraceStays(b, b', start, agent); }
  }

  lemma TransactionKeepsTraces(b: Tables, b': Tables, start: real)
    requires Traced(b, start) && Transacts(b, b')
    ensures Traced(b', start)
  {
    if SettlesSome(b, b') {
      var o, token, outcome :| SettlesOne(b, b', o, token, outcome);
      SettleKeepsTraces(b, start, o, token, outcome);
    } else if AdmitsSome(b, b') {
      var r, token :| Admissible(b, r, token) && Admits(b, b', r, token);
      AdmitKeepsTraces(b, start, r, token);
    } else {
      SameAccountsKeepTraces(b, b', start);
    }
  }

  lemma StartTraced(origin: Setup)
    ensures Traced(Initial(origin).books, origin.now)
  {
    var b := Initial(origin).books;
    forall agent ensures HasTrace(b, origin.now, agent) { assert Traces(b, origin.now, agent, BudgetOf(b, agent), []); }
  }

  lemma DefaultsStay(b: Tables, b': Tables)
    requires Transacts(b, b')
    ensures b'.defaults == b.defaults
  {
    if SettlesSome(b, b') {
      var o, token, outcome :| SettlesOne(b, b', o, token, outcome);
    } else if AdmitsSome(b, b') {
      var r, token :| Admissible(b, r, token) && Admits(b, b', r, token);
    }
  }

  lemma {:induction false} RunTraced(origin: Setup, events: seq<Event>)
    requires B.Fresh(origin.defaults)
    ensures Traced(Run(Initial(origin), events).books, origin.now) && Run(Initial(origin), events).books.defaults == origin.defaults
  {
    if |events| == 0 {
      StartTraced(origin);
    } else {
      var front, e := events[..|events| - 1], events[|events| - 1];
      var s := Run(Initial(origin), front);
      RunTraced(origin, front);
      ReachableInv(s, origin, front);
      StepTransacts(s, e);
      TransactionKeepsTraces(s.books, Apply(s, e).books, origin.now);
      DefaultsStay(s.books, Apply(s, e).books);
    }
  }

  /**
   In every reachable state every agent is within its budget: spent plus reserved is within
   the spend limit, every window open at its start holds at most the rate limit of the
   agent's successes, and a closed one at most twice that.
   */
  lemma AgentCaps(s: State, origin: Setup, events: seq<Event>, agent: string, x: real)
    requires Reachable(s, origin, events)
    ensures var b, h := BudgetOf(s.books, agent), CommitTimes(s.books.settled, agent);
      && (origin.defaults.spendLimit >= 0.0 ==> B.Exposure(b) <= origin.defaults.spendLimit)
      && B.WindowCount(h, x, origin.defaults.window) <= B.Cap(origin.defaults.rateLimit)
      && (origin.defaults.window > 0.0 ==> B.ClosedCount(h, x, origin.defaults.window) <= 2 * B.Cap(origin.defaults.rateLimit))
  {
    RunTraced(origin, events);
    assert HasTrace(s.books, origin.now, agent);
    var calls :| Traces(s.books, origin.now, agent, BudgetOf(s.books, agent), calls);
    B.BudgetCaps(origin.defaults, calls, origin.now);
    if origin.defaults.window > 0.0 { B.ClosedWindowCap(origin.defaults, calls, origin.now, x); }
  }
}
