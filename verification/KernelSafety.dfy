/** The kernel's promises, over every run and every interleaving. */
module KernelSafety {
  import opened Totals
  import opened Ledger
  import opened Wrappers
  import opened QueuedDestination
  import opened Kernel
  import opened KernelInvariants

  /** How a tenant starts: the clock, its quota policy, the budget a new agent gets, and the destination's call timeout. */
  datatype Setup = Setup(now: real, limits: Limits, defaults: B.Budget, timeout: real)

  ghost function Initial(o: Setup): State {
    Start(o.now, o.limits, o.defaults, o.timeout)
  }

  ghost predicate Reachable(s: State, o: Setup, events: seq<Event>) {
    B.Fresh(o.defaults) && s == Run(Initial(o), events)
  }

  lemma ReachableInv(s: State, origin: Setup, events: seq<Event>)
    requires Reachable(s, origin, events)
    ensures Inv(s)
  {
    StartInv(origin.now, origin.limits, origin.defaults, origin.timeout);
    RunKeepsInv(Initial(origin), events);
  }

  // ----- every step is one of three transactions -----

  predicate Admits(b: Tables, b': Tables, r: Request, token: string) {
    b' == Admit(b, r, token)
  }

  predicate SettlesOne(b: Tables, b': Tables, o: OpKey, token: string, outcome: Outcome) {
    outcome != Unknown && Settleable(b, o, token, None) && b' == Settle(b, o, token, outcome)
  }

  ghost predicate AdmitsSome(b: Tables, b': Tables) {
    exists r, token :: Admissible(b, r, token) && Admits(b, b', r, token)
  }

  ghost predicate SettlesSome(b: Tables, b': Tables) {
    exists o, token, outcome :: SettlesOne(b, b', o, token, outcome)
  }

  ghost predicate Transacts(b: Tables, b': Tables) {
    SameAccounts(b, b') || AdmitsSome(b, b') || SettlesSome(b, b')
  }

  lemma GatewayTransacts(s: State, e: Event)
    requires GatewayEnabled(s.books, s.gateway, s.queue.byOp, e) && SettlesTarget(s.books, s.queue.byOp, s.gateway, e)
    ensures Transacts(s.books, GatewayBooks(s.books, s.gateway, e))
  {
    var b' := GatewayBooks(s.books, s.gateway, e);
    if Resolving(e) {
      var (o, token, outcome) := Target(s.books, s.gateway, e);
      assert SettlesOne(s.books, b', o, token, outcome);
    } else if e.CallAdmit? {
      assert Admits(s.books, b', e.request, e.token);
    } else {
      assert b' == s.books;
    }
  }

  lemma QueueTransacts(s: State, e: Event)
    requires QueueEnabled(s, e)
    ensures Transacts(s.books, QueueBooks(s, e))
  {
    var b' := QueueBooks(s, e);
    if Settles(s.queue, e) {
      var task, outcome := QueueTouches(s, e);
      assert SettlesOne(s.books, b', s.queue.links[task].op, s.queue.links[task].token, outcome);
    } else if e.TaskAdmit? {
      assert Admits(s.books, b', e.request, e.link.token);
    } else {
      UntouchedBooks(s, e);
    }
  }

  /** Synchronous calls, aborts, reviews, queued admissions, closures and settlements are all the same three transactions. */
  lemma StepTransacts(s: State, e: Event)
    requires Inv(s)
    ensures Transacts(s.books, Apply(s, e).books)
  {
    if GatewayEnabled(s.books, s.gateway, s.queue.byOp, e) {
      GatewayTouches(s.books, s.queue.byOp, s.gateway, e);
      GatewayTransacts(s, e);
    } else if QueueEnabled(s, e) {
      QueueTransacts(s, e);
    } else {
      OutsideAccounts(s.books, e);
    }
  }

  // ----- nothing recorded is ever revised -----

  predicate RowKept(b: Tables, b': Tables, o: OpKey)
    requires o in b.operations
  {
    && o in b'.operations && b'.operations[o].fingerprint == b.operations[o].fingerprint
    && (b.operations[o].state != Unknown ==> b'.operations[o] == b.operations[o])
    && (o in b.records ==> o in b'.records && b'.records[o] == b.records[o])
    && (o in b.reservations ==> o in b'.reservations && b'.reservations[o] == b.reservations[o])
  }

  /** An operation leaves UNKNOWN at most once; claims, tokens, quota records and settlements are immutable. */
  ghost predicate BooksKept(b: Tables, b': Tables) {
    && (forall o :: o in b.operations ==> RowKept(b, b', o))
    && b.settled <= b'.settled && b.now <= b'.now
    && SpentStay(b.approvals, b'.approvals)
  }

  ghost predicate HistoryKept(g: Gateway, g': Gateway) {
    g.invoked <= g'.invoked && g.returned <= g'.returned && g.canceled <= g'.canceled
  }

  ghost predicate CancelsKept(q: Queue, q': Queue) {
    forall task :: task in q.cancels ==> task in q'.cancels && q'.cancels[task] == q.cancels[task]
  }

  ghost predicate Kept(s: State, s': State) {
    && BooksKept(s.books, s'.books)
    && HistoryKept(s.gateway, s'.gateway)
    && RowsGrow(s.queue, s'.queue) && CancelsKept(s.queue, s'.queue)
    && EffectsGrow(s.site.effects, s'.site.effects)
  }

  lemma SettleKeeps(b: Tables, o: OpKey, token: string, outcome: Outcome)
    requires Settleable(b, o, token, None)
    ensures BooksKept(b, Settle(b, o, token, outcome))
  {
    var b' := Settle(b, o, token, outcome);
    SettleOnlyAt(b, o, token, outcome);
    forall p | p in b.operations ensures RowKept(b, b', p) { assert p != o ==> SameRow(b, b', p); }
  }

  lemma AdmitKeeps(b: Tables, r: Request, token: string)
    requires r.op !in b.operations && r.op !in b.records && r.op !in b.reservations && GrantReady(b, r)
    ensures BooksKept(b, Admit(b, r, token))
  {
    var b' := Admit(b, r, token);
    AdmitOnlyAt(b, r, token);
    forall p | p in b.operations ensures RowKept(b, b', p) { assert p != r.op ==> SameRow(b, b', p); }
  }

  lemma SameAccountsKept(b: Tables, b': Tables)
    requires SameAccounts(b, b')
    ensures BooksKept(b, b')
  {
  }

  lemma TransactionKeeps(b: Tables, b': Tables)
    requires Transacts(b, b')
    ensures BooksKept(b, b')
  {
    if SettlesSome(b, b') {
      var o, token, outcome :| SettlesOne(b, b', o, token, outcome);
      SettleKeeps(b, o, token, outcome);
    } else if AdmitsSome(b, b') {
      var r, token :| Admissible(b, r, token) && Admits(b, b', r, token);
      AdmitKeeps(b, r, token);
    } else {
      SameAccountsKept(b, b');
    }
  }

  lemma CallsKeepHistory(b: Tables, byOp: map<OpKey, Task>, g: Gateway, e: Event)
    requires GatewayEnabled(b, g, byOp, e)
    ensures HistoryKept(g, GatewayNext(b, g, e))
  {
  }

  lemma QueueKeepsCancels(s: State, e: Event)
    requires QueueEnabled(s, e)
    ensures CancelsKept(s.queue, QueueNext(s, e))
  {
    if e.Cancel? {} else if e.CommitAttempt? {} else if e.Reject? {} else {}
  }

  lemma StepKeeps(s: State, e: Event)
    requires Inv(s)
    ensures Kept(s, Apply(s, e))
  {
    StepTransacts(s, e);
    TransactionKeeps(s.books, Apply(s, e).books);
    if GatewayEnabled(s.books, s.gateway, s.queue.byOp, e) {
      CallsKeepHistory(s.books, s.queue.byOp, s.gateway, e);
    } else if QueueEnabled(s, e) {
      QueueKeepsCancels(s, e);
      QueueRowsGrow(s, e);
      SiteGrows(s, e);
    }
  }

  lemma KeptTransitive(s: State, t: State, u: State)
    requires Kept(s, t) && Kept(t, u)
    ensures Kept(s, u)
  {
    BooksKeptTransitive(s.books, t.books, u.books);
  }

  lemma BooksKeptTransitive(b: Tables, c: Tables, d: Tables)
    requires BooksKept(b, c) && BooksKept(c, d)
    ensures BooksKept(b, d)
  {
    forall o | o in b.operations ensures RowKept(b, d, o) { assert RowKept(b, c, o) && RowKept(c, d, o); }
  }

  lemma {:induction false} RunKeeps(s: State, events: seq<Event>, i: nat)
    requires Inv(s) && i <= |events|
    ensures Kept(Run(s, events[..i]), Run(s, events))
    decreases |events|
  {
    if i == |events| {
      assert events[..i] == events;
      KeptReflexive(Run(s, events));
    } else {
      var front := events[..|events| - 1];
      RunKeeps(s, front, i);
      assert front[..i] == events[..i];
      RunKeepsInv(s, front);
      StepKeeps(Run(s, front), events[|events| - 1]);
      KeptTransitive(Run(s, events[..i]), Run(s, front), Run(s, events));
    }
  }

  lemma KeptReflexive(s: State)
    ensures Kept(s, s)
  {
  }

  /** Between any two moments of a run, every row that existed is still there and says the same. */
  lemma NothingRevised(s: State, origin: Setup, events: seq<Event>, i: nat)
    requires Reachable(s, origin, events) && i <= |events|
    ensures Kept(Run(Initial(origin), events[..i]), s)
  {
    StartInv(origin.now, origin.limits, origin.defaults, origin.timeout);
    RunKeeps(Initial(origin), events, i);
  }

  /** What a reachable state records, any continuation keeps. */
  lemma KeptFrom(s: State, origin: Setup, events: seq<Event>, more: seq<Event>)
    requires Reachable(s, origin, events)
    ensures Inv(s) && Inv(Run(s, more)) && Kept(s, Run(s, more))
  {
    ReachableInv(s, origin, events);
    RunKeepsInv(s, more);
    RunKeeps(s, more, 0);
    assert more[..0] == [];
  }

  // ----- at most one effect, and only after its attempt -----

  /** The effect of an operation is the effect of its own task's one recorded attempt. */
  predicate Justified(q: Queue, effects: map<OpKey, QueuedEffect>, o: OpKey)
    requires o in effects
  {
    var a := effects[o].authorization;
    && Recorded(q, a) && a in q.sent && a in q.signed
    && a.task in q.links && q.links[a.task].op == o
    && effects[o].action == q.links[a.task].action
    && InWindow(a, effects[o].committed)
  }

  lemma EffectJustified(q: Queue, effects: map<OpKey, QueuedEffect>, o: OpKey)
    requires Evidenced(q, effects) && o in effects
    ensures Justified(q, effects, o)
  {
    assert EffectFits(q, effects, o);
    var a := effects[o].authorization;
    assert Recorded(q, a);
    assert DecisionFits(q, a.task);
  }

  /** Two tasks never share an operation, so an effect names its owner. */
  lemma EffectOwner(b: Tables, q: Queue, effects: map<OpKey, QueuedEffect>, task: Task)
    requires LinksFit(b, q) && Evidenced(q, effects) && task in q.links && q.links[task].op in effects
    ensures var a := effects[q.links[task].op].authorization; a.task == task && Recorded(q, a)
  {
    var o := q.links[task].op;
    EffectJustified(q, effects, o);
    assert LinkFits(b, q, task) && LinkFits(b, q, effects[o].authorization.task);
  }

  lemma ClosedHasNoEffect(b: Tables, q: Queue, effects: map<OpKey, QueuedEffect>, task: Task)
    requires LinksFit(b, q) && Evidenced(q, effects) && task in q.links && IsClosed(q, task)
    ensures q.links[task].op !in effects
  {
    if q.links[task].op in effects { EffectOwner(b, q, effects, task); }
  }

  /** In every reachable state each effect belongs to one recorded attempt, and a closed task has none. */
  lemma DispatchSafety(s: State, origin: Setup, events: seq<Event>)
    requires Reachable(s, origin, events)
    ensures forall o :: o in s.site.effects ==> Justified(s.queue, s.site.effects, o)
    ensures forall task :: task in s.queue.links && IsClosed(s.queue, task) ==> s.queue.links[task].op !in s.site.effects
  {
    ReachableInv(s, origin, events);
    forall o | o in s.site.effects ensures Justified(s.queue, s.site.effects, o) { EffectJustified(s.queue, s.site.effects, o); }
    forall task | task in s.queue.links && IsClosed(s.queue, task) ensures s.queue.links[task].op !in s.site.effects {
      ClosedHasNoEffect(s.books, s.queue, s.site.effects, task);
    }
  }

  lemma DeliveryMakesEffect(s: State, e: Event, o: OpKey)
    requires o !in s.site.effects && o in Apply(s, e).site.effects
    ensures e.Deliver? && e.authorization.op == o && e.authorization in s.queue.sent
    ensures FenceAdmits(s.site.fences, e.authorization, s.books.now)
    ensures Apply(s, e).site.effects == s.site.effects[o := QueuedEffect(e.authorization, e.authorization.action, s.books.now)]
    ensures Apply(s, e).queue == s.queue
  {
    if GatewayEnabled(s.books, s.gateway, s.queue.byOp, e) {
      assert false;
    } else if QueueEnabled(s, e) {
      SealedOnlyByObserver(s, e);
    }
  }

  /** The step that makes an effect appear finds its attempt already committed, and the attempt holding the fence at its own epoch. */
  lemma AttemptComesFirst(s: State, origin: Setup, events: seq<Event>, e: Event, o: OpKey)
    requires Reachable(s, origin, events) && o !in s.site.effects && o in Apply(s, e).site.effects
    ensures e.Deliver? && e.authorization.op == o && Recorded(s.queue, e.authorization)
    ensures FenceAdmits(s.site.fences, e.authorization, s.books.now)
    ensures Apply(s, e).site.effects == s.site.effects[o := QueuedEffect(e.authorization, e.authorization.action, s.books.now)]
    ensures Apply(s, e).queue == s.queue
  {
    ReachableInv(s, origin, events);
    DeliveryMakesEffect(s, e, o);
    assert Recorded(s.queue, e.authorization);
  }

  predicate StaysClosed(s: State, s': State, task: Task)
    requires task in s.queue.links
  {
    var o := s.queue.links[task].op;
    && task in s'.queue.links && s'.queue.links[task] == s.queue.links[task] && IsClosed(s'.queue, task)
    && o !in s'.site.effects && task !in s'.queue.results
    && o in s.books.operations && o in s'.books.operations
    && s'.books.operations[o] == s.books.operations[o] && s'.books.operations[o].state == Failed
    && o !in Paid(s'.books, o.agent)
  }

  lemma ClosedStays(s: State, s': State, task: Task)
    requires Inv(s) && Inv(s') && Kept(s, s') && task in s.queue.links && IsClosed(s.queue, task)
    ensures StaysClosed(s, s', task)
  {
    var o := s.queue.links[task].op;
    assert StatusFits(s.books, s.queue, task) && StatusFits(s'.books, s'.queue, task);
    assert RowKept(s.books, s'.books, o);
    ClosedHasNoEffect(s'.books, s'.queue, s'.site.effects, task);
  }

  /** Once closed, a task stays closed, failed, unpaid for and without effect, whatever happens next. */
  lemma ClosedForever(s: State, origin: Setup, events: seq<Event>, more: seq<Event>, task: Task)
    requires Reachable(s, origin, events) && task in s.queue.links && IsClosed(s.queue, task)
    ensures StaysClosed(s, Run(s, more), task)
  {
    KeptFrom(s, origin, events, more);
    ClosedStays(s, Run(s, more), task);
  }

  // ----- settlement -----

  /** The settlement log has this entry, and no other for the operation. */
  ghost predicate LoggedOnce(log: seq<Settlement>, s: Settlement) {
    exists i :: 0 <= i < |log| && log[i] == s && forall j :: 0 <= j < |log| && j != i ==> log[j].op != s.op
  }

  /** An operation's money: held at the admitted cost while unknown, and moved exactly once when it stops being unknown. */
  ghost predicate MoneyFits(b: Tables, o: OpKey) {
    && o in b.operations && o in b.reservations && o in b.records && o.agent in b.budgets
    && (b.operations[o].state == Unknown <==> b.reservations[o] in b.budgets[o.agent].reserved)
    && (b.operations[o].state == Unknown ==> b.budgets[o.agent].reserved[b.reservations[o]] == b.records[o].cost)
    && (b.operations[o].state != Unknown ==> LoggedOnce(b.settled, Settlement(o, b.reservations[o], b.operations[o].state, b.records[o].cost, b.operations[o].updated)))
    && (o in Paid(b, o.agent) <==> b.operations[o].state == Succeeded)
  }

  lemma SoundMoney(b: Tables, o: OpKey)
    requires Books(b) && Logged(b) && o in b.operations
    ensures MoneyFits(b, o)
  {
    assert Agrees(b, o);
    if b.operations[o].state != Unknown {
      assert HasEntry(b, o);
      var i :| 0 <= i < |b.settled| && b.settled[i].op == o;
      assert EntryTrue(b, b.settled[i]);
    }
  }

  /** Every operation of every run, synchronous or queued, settles its own token once and at its admitted cost. */
  lemma SettledAtMostOnce(s: State, origin: Setup, events: seq<Event>)
    requires Reachable(s, origin, events)
    ensures Sound(s.books)
    ensures forall o :: o in s.books.operations ==> MoneyFits(s.books, o)
    ensures forall i, j :: 0 <= i < j < |s.books.settled| ==> !SameToken(s.books.settled[i], s.books.settled[j])
  {
    ReachableInv(s, origin, events);
    forall o | o in s.books.operations ensures MoneyFits(s.books, o) { SoundMoney(s.books, o); }
    forall i, j | 0 <= i < j < |s.books.settled| ensures !SameToken(s.books.settled[i], s.books.settled[j]) {
      DistinctTokens(s.books, i, j);
    }
  }

  predicate SameToken(s: Settlement, t: Settlement) {
    s.op.agent == t.op.agent && s.token == t.token
  }

  lemma DistinctTokens(b: Tables, i: int, j: int)
    requires Logged(b) && TokensDistinct(b) && 0 <= i < j < |b.settled|
    ensures !SameToken(b.settled[i], b.settled[j])
  {
    assert EntryTrue(b, b.settled[i]) && EntryTrue(b, b.settled[j]);
  }

  /** The books' word on a queued operation is exactly what the rows prove. */
  predicate Settled(b: Tables, q: Queue, effects: map<OpKey, QueuedEffect>, task: Task)
    requires task in q.links
  {
    var o := q.links[task].op;
    && o in b.operations && o in b.reservations && o in b.records
    && b.reservations[o] == q.links[task].token && b.records[o].cost == q.links[task].cost
    && (b.operations[o].state == Unknown <==> IsOpen(q, task))
    && (b.operations[o].state == Failed <==> IsClosed(q, task))
    && (b.operations[o].state == Succeeded <==> task in q.results)
    && (b.operations[o].state == Succeeded ==> Recorded(q, q.results[task].evidence.authorization) && o in effects && effects[o] == q.results[task].evidence)
  }

  lemma SettlementAgrees(s: State, origin: Setup, events: seq<Event>)
    requires Reachable(s, origin, events)
    ensures forall task :: task in s.queue.links ==>
              Settled(s.books, s.queue, s.site.effects, task) && MoneyFits(s.books, s.queue.links[task].op)
  {
    ReachableInv(s, origin, events);
    forall task | task in s.queue.links ensures Settled(s.books, s.queue, s.site.effects, task) && MoneyFits(s.books, s.queue.links[task].op) {
      TaskSettled(s, task);
      SoundMoney(s.books, s.queue.links[task].op);
    }
  }

  lemma TaskSettled(s: State, task: Task)
    requires Aligned(s.books, s.queue) && RowsFit(s.queue, s.site.effects) && task in s.queue.links
    ensures Settled(s.books, s.queue, s.site.effects, task)
  {
    assert LinkFits(s.books, s.queue, task) && StatusFits(s.books, s.queue, task);
    if task in s.queue.results {
      assert ResultFits(s.queue, s.site.effects, task);
      assert DecisionFits(s.queue, task);
    }
  }

  // ----- synchronous calls -----

  /** Success needs an answer or a reviewer; what was canceled before sending is never sent, then or later. */
  lemma GatewaySafety(s: State, origin: Setup, events: seq<Event>)
    requires Reachable(s, origin, events)
    ensures forall o :: o in s.books.operations && s.books.operations[o].state == Succeeded && o !in s.queue.byOp ==> Backed(s.gateway, o)
    ensures s.gateway.canceled !! s.gateway.invoked && s.gateway.returned <= s.gateway.invoked
  {
    ReachableInv(s, origin, events);
  }

  lemma CanceledNeverInvoked(s: State, origin: Setup, events: seq<Event>, more: seq<Event>, o: OpKey)
    requires Reachable(s, origin, events) && o in s.gateway.canceled
    ensures o !in Run(s, more).gateway.invoked && o !in Run(s, more).gateway.returned
  {
    KeptFrom(s, origin, events, more);
  }

  lemma UnansweredStep(s: State, w: int, e: Event)
    requires CallAt(s.gateway, w, Invoking) && (e == CallCrash(w) || e == CallRaise(w))
    ensures Apply(s, e) == s.(gateway := s.gateway.(calls := s.gateway.calls - {w}))
  {
    assert GatewayEnabled(s.books, s.gateway, s.queue.byOp, e);
  }

  predicate HeldFor(b: Tables, c: Call) {
    && c.op.agent in b.budgets && c.token in b.budgets[c.op.agent].reserved
    && b.budgets[c.op.agent].reserved[c.token] == c.cost
  }

  /** A call that raises or crashes leaves the books alone: an UNKNOWN operation's money stays reserved for exactly the admitted cost. */
  lemma UnknownKeepsReservation(s: State, origin: Setup, events: seq<Event>, w: int, e: Event)
    requires Reachable(s, origin, events) && CallAt(s.gateway, w, Invoking) && (e == CallCrash(w) || e == CallRaise(w))
    ensures Apply(s, e).books == s.books && w !in Apply(s, e).gateway.calls
    ensures Unresolved(s.books, s.gateway.calls[w].op) ==> HeldFor(Apply(s, e).books, s.gateway.calls[w])
  {
    ReachableInv(s, origin, events);
    UnansweredStep(s, w, e);
    assert CallFits(s.books, s.queue.byOp, s.gateway, s.gateway.calls[w]);
    assert Agrees(s.books, s.gateway.calls[w].op);
  }

  // ----- quotas -----

  lemma CappedDependsOn(b: Tables, b': Tables, l: Limits)
    requires Capped(b, l) && SameAccounts(b, b')
    ensures Capped(b', l)
  {
    forall w ensures Sum(ChargedTo(b', w)) <= l.userSpend { assert ChargedTo(b', w) == ChargedTo(b, w); }
    assert Active(b') == Active(b);
    forall w ensures |ActiveOf(b', w)| <= l.userMaxActive { assert ActiveOf(b', w) == ActiveOf(b, w); }
    RateDependsOnRecords(b, b', l);
  }

  lemma TransactionCapped(b: Tables, b': Tables)
    requires Sound(b) && b.limits.enabled && Capped(b, b.limits) && Transacts(b, b')
    ensures Capped(b', b.limits)
  {
    if SettlesSome(b, b') {
      var o, token, outcome :| SettlesOne(b, b', o, token, outcome);
      SettleCapped(b, b.limits, o, token, outcome);
    } else if AdmitsSome(b, b') {
      var r, token :| Admissible(b, r, token) && Admits(b, b', r, token);
      AdmitCapped(b, r, token);
    } else {
      CappedDependsOn(b, b', b.limits);
    }
  }

  lemma PolicyStays(s: State, e: Event)
    requires !e.SetPolicy?
    ensures Apply(s, e).books.limits == s.books.limits
  {
    if GatewayEnabled(s.books, s.gateway, s.queue.byOp, e) {
      if e.CallAdmit? {} else if e.CallAbort? {} else if e.CallSettle? {} else {}
    } else if QueueEnabled(s, e) {
      if e.TaskAdmit? {} else if Settles(s.queue, e) { var task, outcome := QueueTouches(s, e); } else {}
    }
  }

  /**
   While one enabled policy is in force, spend, active work and the rate over every
   window stay within the tenant's and each owner's cap, and nothing is unattributed.
   */
  lemma {:induction false} QuotaCaps(s: State, events: seq<Event>)
    requires Inv(s) && s.books.limits.enabled && Capped(s.books, s.books.limits)
    requires forall i :: 0 <= i < |events| ==> !events[i].SetPolicy?
    ensures Run(s, events).books.limits == s.books.limits
    ensures Capped(Run(s, events).books, s.books.limits)
    ensures Conserved(Run(s, events).books)
  {
    if |events| > 0 {
      var front, e := events[..|events| - 1], events[|events| - 1];
      QuotaCaps(s, front);
      RunKeepsInv(s, front);
      var r := Run(s, front);
      StepTransacts(r, e);
      TransactionCapped(r.books, Apply(r, e).books);
      PolicyStays(r, e);
      StepKeepsInv(r, e);
    }
  }

  lemma StartCapped(origin: Setup)
    requires ValidLimits(origin.limits)
    ensures Capped(Initial(origin).books, origin.limits)
  {
    var b, l := Initial(origin).books, origin.limits;
    assert Exposures(b.budgets) == map[] && Active(b) == {};
    forall w ensures Sum(ChargedTo(b, w)) <= l.userSpend { assert ChargedTo(b, w) == map[]; }
    forall w ensures |ActiveOf(b, w)| <= l.userMaxActive { assert ActiveOf(b, w) == {}; }
    forall lo: real ensures |Window(b, lo, l.window)| <= l.rate { assert Window(b, lo, l.window) == {}; }
    forall w, lo: real ensures |WindowOf(b, w, lo, l.window)| <= l.userRate { assert WindowOf(b, w, lo, l.window) == {}; }
  }

  /** Across all runs, spent plus reserved is the cost of the unknown and succeeded operations, so no usage is unattributed. */
  lemma Conservation(s: State, origin: Setup, events: seq<Event>, owner: string)
    requires Reachable(s, origin, events)
    ensures Sum(Exposures(s.books.budgets)) == Sum(Charged(s.books))
    ensures UsageOf(s.books, owner).unattributed == 0.0
    ensures UsageOf(s.books, owner).userSpend == Sum(ChargedTo(s.books, owner))
  {
    ReachableInv(s, origin, events);
    NothingUnattributed(s.books, owner);
  }

  /** A tenant that starts empty under one enabled policy never exceeds it. */
  lemma TenantWithinPolicy(s: State, origin: Setup, events: seq<Event>)
    requires Reachable(s, origin, events)
    requires ValidLimits(origin.limits) && origin.limits.enabled
    requires forall i :: 0 <= i < |events| ==> !events[i].SetPolicy?
    ensures Capped(s.books, origin.limits)
  {
    StartInv(origin.now, origin.limits, origin.defaults, origin.timeout);
    StartCapped(origin);
    QuotaCaps(Initial(origin), events);
  }
}
