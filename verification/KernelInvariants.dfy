/** What every reachable kernel state satisfies, and why each step keeps it. */
module KernelInvariants {
  import opened Totals
  import opened Ledger
  import opened Wrappers
  import opened QueuedDestination
  import opened Kernel

  // ----- synchronous calls -----

  /** A worker's remembered admission is the stored one, and its phase agrees with the histories. */
  predicate CallFits(b: Tables, byOp: map<OpKey, Task>, g: Gateway, c: Call) {
    && c.op in b.operations && c.op !in byOp
    && c.op in b.reservations && b.reservations[c.op] == c.token
    && c.op in b.records && b.records[c.op].cost == c.cost
    && (c.phase == Held ==> c.op !in g.invoked && c.op !in g.canceled)
    && (c.phase == Aborting ==> c.op in g.canceled)
    && (c.phase == Invoking ==> c.op in g.invoked)
    && (c.phase == Returned ==> c.op in g.returned)
  }

  ghost predicate CallsFit(b: Tables, byOp: map<OpKey, Task>, g: Gateway) {
    forall w :: w in g.calls ==> CallFits(b, byOp, g, g.calls[w])
  }

  ghost predicate CallsApart(g: Gateway) {
    forall v, w :: v in g.calls && w in g.calls && v != w ==> g.calls[v].op != g.calls[w].op
  }

  ghost predicate HistoriesFit(b: Tables, g: Gateway) {
    && g.invoked !! g.canceled
    && g.returned <= g.invoked
    && (forall o :: o in g.invoked || o in g.canceled ==> o in b.operations)
  }

  /** A synchronous success was answered by its target or decided by a reviewer. */
  predicate Backed(g: Gateway, o: OpKey) {
    o in g.returned || (o in g.reviewed && g.reviewed[o] == Succeeded)
  }

  ghost predicate SuccessBacked(b: Tables, byOp: map<OpKey, Task>, g: Gateway) {
    forall o :: o in b.operations && b.operations[o].state == Succeeded && o !in byOp ==> Backed(g, o)
  }

  ghost predicate GatewayInv(b: Tables, byOp: map<OpKey, Task>, g: Gateway) {
    CallsFit(b, byOp, g) && CallsApart(g) && HistoriesFit(b, g) && SuccessBacked(b, byOp, g)
  }

  // ----- queued tasks -----

  /** The link, the operation, its reservation and its quota record name the same admission. */
  predicate LinkFits(b: Tables, q: Queue, task: Task)
    requires task in q.links
  {
    var l := q.links[task];
    && l.op in q.byOp && q.byOp[l.op] == task && task in q.lives
    && l.op in b.operations && b.operations[l.op].fingerprint == l.fingerprint
    && l.op in b.reservations && b.reservations[l.op] == l.token
    && l.op in b.records && b.records[l.op].cost == l.cost
  }

  ghost predicate LinksFit(b: Tables, q: Queue) {
    && (forall task :: task in q.links ==> LinkFits(b, q, task))
    && (forall o :: o in q.byOp ==> q.byOp[o] in q.links && q.links[q.byOp[o]].op == o)
  }

  predicate IsOpen(q: Queue, task: Task) {
    task !in q.results && (task in q.decisions ==> q.decisions[task].Attempt?)
  }

  predicate IsClosed(q: Queue, task: Task) {
    task in q.decisions && q.decisions[task].Closed?
  }

  /** The stored outcome says exactly what the decision and result rows say. */
  predicate StatusFits(b: Tables, q: Queue, task: Task)
    requires task in q.links
  {
    && q.links[task].op in b.operations
    && var state := b.operations[q.links[task].op].state;
       && (state == Unknown <==> IsOpen(q, task))
       && (state == Succeeded <==> task in q.results)
       && (state == Failed <==> IsClosed(q, task))
  }

  ghost predicate StatusesFit(b: Tables, q: Queue) {
    forall task :: task in q.links ==> StatusFits(b, q, task)
  }

  predicate DecisionFits(q: Queue, task: Task)
    requires task in q.decisions
  {
    && task in q.links
    && (q.decisions[task].Attempt? ==>
          var a := q.decisions[task].authorization;
          && a in q.signed
          && a == Mandate(q.links[task], task, a.attempt, a.epoch, a.issued, a.expires))
  }

  predicate ResultFits(q: Queue, effects: map<OpKey, QueuedEffect>, task: Task)
    requires task in q.results
  {
    && task in q.decisions && q.decisions[task].Attempt? && task in q.links
    && q.results[task].decision == q.decisions[task]
    && q.links[task].op in effects
    && q.results[task].evidence == effects[q.links[task].op]
    && q.results[task].evidence.authorization == q.decisions[task].authorization
  }

  ghost predicate RowsFit(q: Queue, effects: map<OpKey, QueuedEffect>) {
    && (forall task :: task in q.decisions ==> DecisionFits(q, task))
    && (forall task :: task in q.results ==> ResultFits(q, effects, task))
    && (forall task :: task in q.cancels ==> task in q.decisions && q.decisions[task].Attempt?)
  }

  /** The recorded attempt of a task, if it carries exactly this authorization. */
  predicate Recorded(q: Queue, a: Authorization) {
    a.task in q.decisions && q.decisions[a.task] == Attempt(a)
  }

  /** Only recorded authorizations are ever held by a worker or on the wire. */
  ghost predicate OnlyRecordedSent(q: Queue) {
    && (forall a :: a in q.sent ==> Recorded(q, a))
    && (forall w :: w in q.workers && q.workers[w].Holding? ==> Recorded(q, q.workers[w].authorization))
  }

  predicate EffectFits(q: Queue, effects: map<OpKey, QueuedEffect>, o: OpKey)
    requires o in effects
  {
    var e := effects[o];
    e.authorization in q.sent && e.authorization.op == o && Attests(e, e.authorization, e.authorization.action)
  }

  ghost predicate EffectsFit(q: Queue, effects: map<OpKey, QueuedEffect>) {
    forall o :: o in effects ==> EffectFits(q, effects, o)
  }

  predicate SealFits(q: Queue, effects: map<OpKey, QueuedEffect>, r: Readback) {
    && r.decision.Attempt?
    && r.task in q.decisions && q.decisions[r.task] == r.decision
    && r.decision.authorization.op in effects
    && r.evidence == effects[r.decision.authorization.op]
    && r.evidence.authorization == r.decision.authorization
  }

  ghost predicate SealsFit(q: Queue, effects: map<OpKey, QueuedEffect>) {
    forall r :: r in q.seals ==> SealFits(q, effects, r)
  }

  /** The queue against the books. */
  ghost predicate Aligned(b: Tables, q: Queue) {
    LinksFit(b, q) && StatusesFit(b, q)
  }

  /** The queue against the destination. */
  ghost predicate Evidenced(q: Queue, effects: map<OpKey, QueuedEffect>) {
    RowsFit(q, effects) && OnlyRecordedSent(q) && EffectsFit(q, effects) && SealsFit(q, effects)
  }

  /** A committed row passed the destination's own checks, at a time that is now past. */
  predicate IsGenuine(signed: set<Authorization>, timeout: real, now: real, e: QueuedEffect) {
    Authentic(e.authorization, signed, timeout, e.action) && e.committed <= now
  }

  ghost predicate Genuine(s: State) {
    forall o :: o in s.site.effects ==> IsGenuine(s.queue.signed, s.timeout, s.books.now, s.site.effects[o])
  }

  ghost predicate Inv(s: State) {
    && Sound(s.books)
    && GatewayInv(s.books, s.queue.byOp, s.gateway)
    && Aligned(s.books, s.queue)
    && Evidenced(s.queue, s.site.effects)
    && Genuine(s)
  }

  // ----- one transaction leaves other operations alone -----

  predicate SameRow(b: Tables, b': Tables, o: OpKey) {
    && (o in b'.operations <==> o in b.operations) && (o in b.operations ==> b'.operations[o] == b.operations[o])
    && (o in b'.reservations <==> o in b.reservations) && (o in b.reservations ==> b'.reservations[o] == b.reservations[o])
    && (o in b'.records <==> o in b.records) && (o in b.records ==> b'.records[o] == b.records[o])
  }

  /** Everything a settlement leaves of its own operation's rows. */
  predicate Resolves(b: Tables, b': Tables, o: OpKey, outcome: Outcome) {
    && o in b.operations && o in b'.operations
    && b.operations[o].state == Unknown
    && b'.operations[o].state == outcome && b'.operations[o].fingerprint == b.operations[o].fingerprint
    && b'.reservations == b.reservations && b'.records == b.records
  }

  ghost predicate OnlyAt(b: Tables, b': Tables, o: OpKey) {
    forall p :: p != o ==> SameRow(b, b', p)
  }

  lemma AdmitOnlyAt(b: Tables, r: Request, token: string)
    ensures OnlyAt(b, Admit(b, r, token), r.op)
  {
  }

  lemma SettleOnlyAt(b: Tables, o: OpKey, token: string, outcome: Outcome)
    requires Settleable(b, o, token, None)
    ensures OnlyAt(b, Settle(b, o, token, outcome), o)
    ensures Resolves(b, Settle(b, o, token, outcome), o, outcome)
  {
  }

  /** Clock, policy and approvals move; the accounts do not. */
  ghost predicate SameAccounts(b: Tables, b': Tables) {
    && b'.operations == b.operations && b'.reservations == b.reservations && b'.records == b.records
    && b'.budgets == b.budgets && b'.settled == b.settled && b'.grants == b.grants && b'.defaults == b.defaults
    && b.now <= b'.now
    && SpentStay(b.approvals, b'.approvals)
  }

  lemma OutsideAccounts(b: Tables, e: Event)
    ensures SameAccounts(b, Outside(b, e))
  {
    var b' := Outside(b, e);
    assert b'.(now := b.now, limits := b.limits, approvals := b.approvals) == b;
    OutsideApprovals(b, e);
  }

  lemma OutsideApprovals(b: Tables, e: Event)
    ensures SpentStay(b.approvals, Outside(b, e).approvals)
  {
    if e.Decide? {} else if e.AskApproval? {} else { assert Outside(b, e).approvals == b.approvals; }
  }

  /** A consumed approval row is never touched again. */
  ghost predicate SpentStay(approvals: map<string, Approval>, later: map<string, Approval>) {
    forall id :: id in approvals && approvals[id].status == Consumed ==> id in later && later[id] == approvals[id]
  }

  lemma SoundDependsOn(b: Tables, b': Tables)
    requires Sound(b) && SameAccounts(b, b')
    ensures Sound(b')
  {
    forall o | o in b'.operations ensures Agrees(b', o) { assert Agrees(b, o); }
    TokensDependOn(b, b');
    MoneyDependsOn(b, b');
    LogDependsOn(b, b');
    forall o | o in b'.grants ensures o in b'.operations && b'.grants[o] in b'.approvals && GrantSpent(b', o) { assert GrantSpent(b, o); }
  }

  lemma TokensDependOn(b: Tables, b': Tables)
    requires TokensDistinct(b) && AllOwned(b) && b'.reservations == b.reservations && b'.budgets == b.budgets
    ensures TokensDistinct(b') && AllOwned(b')
  {
    forall a, k | a in b'.budgets && k in b'.budgets[a].reserved ensures Owned(b', a, k) { assert Owned(b, a, k); }
  }

  lemma MoneyDependsOn(b: Tables, b': Tables)
    requires ChargedOnce(b) && Conserved(b) && b'.operations == b.operations && b'.records == b.records && b'.budgets == b.budgets
    ensures ChargedOnce(b') && Conserved(b')
  {
    forall a | a in b'.budgets ensures b'.budgets[a].spent == Sum(Paid(b', a)) { PaidDependsOn(b, b', a); }
    ChargedDependsOn(b, b');
  }

  lemma PaidDependsOn(b: Tables, b': Tables, a: string)
    requires b'.operations == b.operations && b'.records == b.records
    ensures Paid(b', a) == Paid(b, a)
  {
  }

  lemma ChargedDependsOn(b: Tables, b': Tables)
    requires b'.operations == b.operations && b'.records == b.records
    ensures Charged(b') == Charged(b)
  {
  }

  lemma LogDependsOn(b: Tables, b': Tables)
    requires Logged(b) && b'.operations == b.operations && b'.records == b.records && b'.reservations == b.reservations && b'.settled == b.settled
    ensures Logged(b')
  {
    forall i | 0 <= i < |b'.settled| ensures EntryTrue(b', b'.settled[i]) { assert EntryTrue(b, b.settled[i]); }
    forall o | o in b'.operations && b'.operations[o].state != Unknown ensures HasEntry(b', o) { assert HasEntry(b, o); }
  }

  // ----- gateway steps -----

  lemma AdmitCalls(b: Tables, byOp: map<OpKey, Task>, g: Gateway, w: int, r: Request, token: string)
    requires GatewayInv(b, byOp, g) && w !in g.calls && r.op !in b.operations && r.op !in byOp
    ensures GatewayInv(Admit(b, r, token), byOp, g.(calls := g.calls[w := Call(Held, r.op, token, r.cost)]))
  {
    var b', g' := Admit(b, r, token), g.(calls := g.calls[w := Call(Held, r.op, token, r.cost)]);
    forall v | v in g'.calls ensures CallFits(b', byOp, g', g'.calls[v]) {
      if v != w { assert CallFits(b, byOp, g, g.calls[v]); }
    }
    forall u, v | u in g'.calls && v in g'.calls && u != v ensures g'.calls[u].op != g'.calls[v].op {
      if u != w { assert CallFits(b, byOp, g, g.calls[u]); }
      if v != w { assert CallFits(b, byOp, g, g.calls[v]); }
    }
  }

  /** A step that changes no books: the worker moves from one phase to the next, or goes away. */
  lemma PhaseStep(b: Tables, byOp: map<OpKey, Task>, g: Gateway, e: Event)
    requires GatewayInv(b, byOp, g) && GatewayEnabled(b, g, byOp, e)
    requires e.CallCancel? || e.CallInvoke? || e.CallReturn? || e.CallRaise? || e.CallCrash?
    ensures GatewayInv(b, byOp, GatewayNext(b, g, e))
  {
    var g' := GatewayNext(b, g, e);
    assert CallFits(b, byOp, g, g.calls[e.w]);
    forall v | v in g'.calls ensures CallFits(b, byOp, g', g'.calls[v]) {
      assert CallFits(b, byOp, g, g.calls[v]);
      assert v != e.w ==> g.calls[v].op != g.calls[e.w].op;
    }
    forall o | o in b.operations && b.operations[o].state == Succeeded && o !in byOp ensures Backed(g', o) {
      assert Backed(g, o);
    }
  }

  /** Books that resolve one operation, seen from the calls; `g'` may drop a worker or note a review. */
  lemma ResolveCalls(b: Tables, b': Tables, byOp: map<OpKey, Task>, g: Gateway, g': Gateway, o: OpKey, outcome: Outcome)
    requires GatewayInv(b, byOp, g) && OnlyAt(b, b', o) && Resolves(b, b', o, outcome)
    requires forall v :: v in g'.calls ==> v in g.calls && g'.calls[v] == g.calls[v]
    requires g'.invoked == g.invoked && g'.returned == g.returned && g'.canceled == g.canceled
    requires forall p :: Backed(g, p) && p != o ==> Backed(g', p)
    requires outcome == Succeeded && o !in byOp ==> Backed(g', o)
    ensures GatewayInv(b', byOp, g')
  {
    forall v | v in g'.calls ensures CallFits(b', byOp, g', g'.calls[v]) {
      var c := g.calls[v];
      assert CallFits(b, byOp, g, c);
      if c.op != o { assert SameRow(b, b', c.op); }
    }
    forall p | p in b'.operations && b'.operations[p].state == Succeeded && p !in byOp ensures Backed(g', p) {
      if p != o { assert SameRow(b, b', p); assert Backed(g, p); }
    }
    forall p | p in g'.invoked || p in g'.canceled ensures p in b'.operations {
      if p != o { assert SameRow(b, b', p); }
    }
  }

  lemma GatewaySound(b: Tables, byOp: map<OpKey, Task>, g: Gateway, e: Event)
    requires Sound(b) && GatewayEnabled(b, g, byOp, e) && SettlesTarget(b, byOp, g, e)
    ensures Sound(GatewayBooks(b, g, e))
  {
    if e.CallAdmit? {
      AdmitSound(b, e.request, e.token);
    } else if Resolving(e) {
      var (o, token, outcome) := Target(b, g, e);
      SettleSound(b, o, token, outcome);
    }
  }

  lemma AbortIsSettle(b: Tables, byOp: map<OpKey, Task>, g: Gateway, w: int)
    requires Books(b) && CallsFit(b, byOp, g) && CallAt(g, w, Aborting) && Unresolved(b, g.calls[w].op)
    ensures Settleable(b, g.calls[w].op, g.calls[w].token, None)
    ensures Abort(b, g.calls[w].op, g.calls[w].token) == Settle(b, g.calls[w].op, g.calls[w].token, Failed)
  {
    assert CallFits(b, byOp, g, g.calls[w]);
    UnresolvedSettles(b, g.calls[w].op);
  }

  predicate Resolving(e: Event) {
    e.CallAbort? || e.CallSettle? || e.Reconcile?
  }

  /** The operation, token and outcome of a step that resolves a synchronous operation. */
  function Target(b: Tables, g: Gateway, e: Event): (r: (OpKey, string, Outcome))
    requires Resolving(e) && (if e.Reconcile? then e.op in b.reservations else e.w in g.calls)
  {
    if e.Reconcile? then (e.op, b.reservations[e.op], e.outcome)
    else (g.calls[e.w].op, g.calls[e.w].token, if e.CallSettle? then Succeeded else Failed)
  }

  ghost predicate SettlesTarget(b: Tables, byOp: map<OpKey, Task>, g: Gateway, e: Event)
    requires GatewayEnabled(b, g, byOp, e)
  {
    Resolving(e) ==>
      var (o, token, outcome) := Target(b, g, e);
      && o !in byOp && outcome != Unknown
      && Settleable(b, o, token, None) && GatewayBooks(b, g, e) == Settle(b, o, token, outcome)
  }

  lemma SettlingTouches(b: Tables, byOp: map<OpKey, Task>, g: Gateway, e: Event)
    requires CallsFit(b, byOp, g) && GatewayEnabled(b, g, byOp, e) && (e.CallSettle? || e.Reconcile?)
    ensures SettlesTarget(b, byOp, g, e)
  {
    assert e.CallSettle? ==> CallFits(b, byOp, g, g.calls[e.w]);
  }

  lemma AbortTouches(b: Tables, byOp: map<OpKey, Task>, g: Gateway, e: Event)
    requires CallsFit(b, byOp, g) && GatewayEnabled(b, g, byOp, e) && e.CallAbort?
    requires Settleable(b, g.calls[e.w].op, g.calls[e.w].token, None)
    requires Abort(b, g.calls[e.w].op, g.calls[e.w].token) == Settle(b, g.calls[e.w].op, g.calls[e.w].token, Failed)
    ensures SettlesTarget(b, byOp, g, e)
  {
    assert CallFits(b, byOp, g, g.calls[e.w]);
  }

  /** The three ways a synchronous operation is resolved are one settlement. */
  lemma GatewayTouches(b: Tables, byOp: map<OpKey, Task>, g: Gateway, e: Event)
    requires Books(b) && CallsFit(b, byOp, g) && GatewayEnabled(b, g, byOp, e)
    ensures SettlesTarget(b, byOp, g, e)
  {
    if e.CallAbort? {
      AbortIsSettle(b, byOp, g, e.w);
      AbortTouches(b, byOp, g, e);
    } else if e.CallSettle? || e.Reconcile? {
      SettlingTouches(b, byOp, g, e);
    }
  }

  lemma BackedStays(b: Tables, byOp: map<OpKey, Task>, g: Gateway, e: Event, o: OpKey, outcome: Outcome)
    requires CallsFit(b, byOp, g) && GatewayEnabled(b, g, byOp, e) && Resolving(e)
    requires o == Target(b, g, e).0 && outcome == Target(b, g, e).2
    ensures forall p :: Backed(g, p) && p != o ==> Backed(GatewayNext(b, g, e), p)
    ensures outcome == Succeeded ==> Backed(GatewayNext(b, g, e), o)
  {
    assert e.CallSettle? ==> CallFits(b, byOp, g, g.calls[e.w]);
  }

  lemma GatewayCalls(b: Tables, byOp: map<OpKey, Task>, g: Gateway, e: Event)
    requires GatewayInv(b, byOp, g) && GatewayEnabled(b, g, byOp, e) && SettlesTarget(b, byOp, g, e)
    requires forall o :: o in byOp ==> o in b.operations
    ensures GatewayInv(GatewayBooks(b, g, e), byOp, GatewayNext(b, g, e))
  {
    if e.CallAdmit? {
      AdmitCalls(b, byOp, g, e.w, e.request, e.token);
    } else if Resolving(e) {
      var (o, token, outcome) := Target(b, g, e);
      SettleOnlyAt(b, o, token, outcome);
      BackedStays(b, byOp, g, e, o, outcome);
      ResolveCalls(b, GatewayBooks(b, g, e), byOp, g, GatewayNext(b, g, e), o, outcome);
    } else {
      PhaseStep(b, byOp, g, e);
    }
  }

  lemma OutsideCalls(b: Tables, b': Tables, byOp: map<OpKey, Task>, g: Gateway)
    requires GatewayInv(b, byOp, g) && SameAccounts(b, b')
    ensures GatewayInv(b', byOp, g)
  {
    forall v | v in g.calls ensures CallFits(b', byOp, g, g.calls[v]) { assert CallFits(b, byOp, g, g.calls[v]); }
  }

  // ----- calls under the queue's transactions -----

  /** The three ways a queued operation is resolved are one settlement. */
  lemma QueueTouches(s: State, e: Event) returns (task: Task, outcome: Outcome)
    requires QueueEnabled(s, e) && Settles(s.queue, e)
    ensures task in s.queue.links && outcome != Unknown
    ensures task == (if e.Reject? then s.queue.workers[e.w].task else if e.FinishVerified? then e.seal.task else e.task)
    ensures outcome == if e.FinishVerified? then Succeeded else Failed
    ensures Settleable(s.books, s.queue.links[task].op, s.queue.links[task].token, None)
    ensures QueueBooks(s, e) == Settle(s.books, s.queue.links[task].op, s.queue.links[task].token, outcome)
  {
    task := if e.Reject? then s.queue.workers[e.w].task else if e.FinishVerified? then e.seal.task else e.task;
    outcome := if e.FinishVerified? then Succeeded else Failed;
  }

  predicate Settles(q: Queue, e: Event) {
    e.Reject? || e.FinishVerified? || (e.Cancel? && e.task !in q.decisions)
  }

  lemma UntouchedBooks(s: State, e: Event)
    requires QueueEnabled(s, e) && !e.TaskAdmit? && !Settles(s.queue, e)
    ensures SameAccounts(s.books, QueueBooks(s, e)) && QueueNext(s, e).byOp == s.queue.byOp
  {
  }

  lemma QueueBooksSound(s: State, e: Event)
    requires Sound(s.books) && QueueEnabled(s, e)
    ensures Sound(QueueBooks(s, e))
  {
    if e.TaskAdmit? {
      AdmitSound(s.books, e.request, e.link.token);
    } else if Settles(s.queue, e) {
      var task, outcome := QueueTouches(s, e);
      SettleSound(s.books, s.queue.links[task].op, s.queue.links[task].token, outcome);
    } else {
      UntouchedBooks(s, e);
      SoundDependsOn(s.books, QueueBooks(s, e));
    }
  }

  lemma LinkedAdmitCalls(b: Tables, byOp: map<OpKey, Task>, g: Gateway, r: Request, token: string, task: Task)
    requires GatewayInv(b, byOp, g) && r.op !in b.operations
    ensures GatewayInv(Admit(b, r, token), byOp[r.op := task], g)
  {
    var b' := Admit(b, r, token);
    forall v | v in g.calls ensures CallFits(b', byOp[r.op := task], g, g.calls[v]) {
      assert CallFits(b, byOp, g, g.calls[v]);
    }
  }

  lemma QueueLeavesCalls(s: State, e: Event)
    requires GatewayInv(s.books, s.queue.byOp, s.gateway) && LinksFit(s.books, s.queue) && QueueEnabled(s, e)
    ensures GatewayInv(QueueBooks(s, e), QueueNext(s, e).byOp, s.gateway)
  {
    if e.TaskAdmit? {
      LinkedAdmitCalls(s.books, s.queue.byOp, s.gateway, e.request, e.link.token, e.task);
    } else if Settles(s.queue, e) {
      SettlingLeavesCalls(s, e);
    } else {
      UntouchedBooks(s, e);
      OutsideCalls(s.books, QueueBooks(s, e), s.queue.byOp, s.gateway);
    }
  }

  lemma SettlingLeavesCalls(s: State, e: Event)
    requires GatewayInv(s.books, s.queue.byOp, s.gateway) && LinksFit(s.books, s.queue) && QueueEnabled(s, e) && Settles(s.queue, e)
    ensures GatewayInv(QueueBooks(s, e), QueueNext(s, e).byOp, s.gateway)
  {
    var task, outcome := QueueTouches(s, e);
    assert LinkFits(s.books, s.queue, task);
    var o := s.queue.links[task].op;
    SettleOnlyAt(s.books, o, s.queue.links[task].token, outcome);
    ResolveCalls(s.books, QueueBooks(s, e), s.queue.byOp, s.gateway, s.gateway, o, outcome);
  }

  // ----- the queue against the books -----

  lemma LinkedKnown(b: Tables, q: Queue)
    requires LinksFit(b, q)
    ensures forall o :: o in q.byOp ==> o in b.operations
  {
    forall o | o in q.byOp ensures o in b.operations { assert LinkFits(b, q, q.byOp[o]); }
  }

  /** Two queues that tell the same story about a task. */
  predicate SameStory(q: Queue, q': Queue, task: Task) {
    && (IsOpen(q', task) <==> IsOpen(q, task))
    && (task in q'.results <==> task in q.results)
    && (IsClosed(q', task) <==> IsClosed(q, task))
  }

  ghost predicate SameLinks(q: Queue, q': Queue) {
    q'.links == q.links && q'.byOp == q.byOp && q.lives.Keys <= q'.lives.Keys
  }

  lemma AlignedElsewhere(b: Tables, b': Tables, q: Queue, q': Queue)
    requires Aligned(b, q) && SameLinks(q, q')
    requires forall o :: o in q.byOp ==> SameRow(b, b', o)
    requires forall task :: task in q.links ==> SameStory(q, q', task)
    ensures Aligned(b', q')
  {
    forall task | task in q'.links ensures LinkFits(b', q', task) && StatusFits(b', q', task) {
      assert LinkFits(b, q, task) && StatusFits(b, q, task);
      assert SameRow(b, b', q.links[task].op) && SameStory(q, q', task);
    }
  }

  lemma OthersKeepRows(b: Tables, b': Tables, byOp: map<OpKey, Task>, o: OpKey)
    requires OnlyAt(b, b', o) && o !in byOp
    ensures forall p :: p in byOp ==> SameRow(b, b', p)
  {
  }

  lemma SettleLeavesAligned(b: Tables, q: Queue, o: OpKey, token: string, outcome: Outcome)
    requires Aligned(b, q) && o !in q.byOp && Settleable(b, o, token, None)
    ensures Aligned(Settle(b, o, token, outcome), q)
  {
    SettleOnlyAt(b, o, token, outcome);
    OthersKeepRows(b, Settle(b, o, token, outcome), q.byOp, o);
    AlignedElsewhere(b, Settle(b, o, token, outcome), q, q);
  }

  lemma AdmitLeavesAligned(b: Tables, q: Queue, r: Request, token: string)
    requires Aligned(b, q) && r.op !in b.operations
    ensures Aligned(Admit(b, r, token), q)
  {
    LinkedKnown(b, q);
    AdmitOnlyAt(b, r, token);
    OthersKeepRows(b, Admit(b, r, token), q.byOp, r.op);
    AlignedElsewhere(b, Admit(b, r, token), q, q);
  }

  lemma ResolvingLeavesAligned(b: Tables, q: Queue, g: Gateway, e: Event)
    requires Aligned(b, q) && GatewayEnabled(b, g, q.byOp, e) && Resolving(e) && SettlesTarget(b, q.byOp, g, e)
    ensures Aligned(GatewayBooks(b, g, e), q)
  {
    var (o, token, outcome) := Target(b, g, e);
    SettleLeavesAligned(b, q, o, token, outcome);
  }

  lemma GatewayLeavesAligned(b: Tables, q: Queue, g: Gateway, e: Event)
    requires Aligned(b, q) && GatewayEnabled(b, g, q.byOp, e) && SettlesTarget(b, q.byOp, g, e)
    ensures Aligned(GatewayBooks(b, g, e), q)
  {
    if Resolving(e) {
      ResolvingLeavesAligned(b, q, g, e);
    } else if e.CallAdmit? {
      AdmitLeavesAligned(b, q, e.request, e.token);
    } else {
      assert GatewayBooks(b, g, e) == b;
    }
  }

  predicate AdmitsTask(b: Tables, q: Queue, q': Queue, task: Task, r: Request, l: Link) {
    && task !in q.links && r.op !in q.byOp && r.op !in b.operations
    && l.op == r.op && l.cost == r.cost && l.fingerprint == r.fingerprint
    && q' == q.(links := q.links[task := l], byOp := q.byOp[l.op := task], lives := q.lives[task := Life(Working, 1)])
  }

  lemma AdmittedLinks(b: Tables, q: Queue, q': Queue, task: Task, r: Request, l: Link)
    requires LinksFit(b, q) && AdmitsTask(b, q, q', task, r, l)
    ensures LinksFit(Admit(b, r, l.token), q')
  {
    var b' := Admit(b, r, l.token);
    forall t | t in q'.links ensures LinkFits(b', q', t) {
      if t != task { assert LinkFits(b, q, t); }
    }
  }

  lemma AdmittedStatuses(b: Tables, q: Queue, q': Queue, task: Task, r: Request, l: Link)
    requires StatusesFit(b, q) && AdmitsTask(b, q, q', task, r, l)
    requires task !in q.decisions && task !in q.results
    ensures StatusesFit(Admit(b, r, l.token), q')
  {
    var b' := Admit(b, r, l.token);
    forall t | t in q'.links ensures StatusFits(b', q', t) {
      if t != task { assert StatusFits(b, q, t); }
    }
  }

  /** One task is resolved, in its rows and in the books at once. */
  lemma ResolvedAligned(b: Tables, b': Tables, q: Queue, q': Queue, task: Task, outcome: Outcome)
    requires Aligned(b, q) && SameLinks(q, q') && task in q.links
    requires OnlyAt(b, b', q.links[task].op) && Resolves(b, b', q.links[task].op, outcome)
    requires forall t :: t in q.links && t != task ==> SameStory(q, q', t)
    requires StatusFits(b', q', task)
    ensures Aligned(b', q')
  {
    assert LinkFits(b, q, task);
    forall t | t in q'.links ensures LinkFits(b', q', t) && StatusFits(b', q', t) {
      assert LinkFits(b, q, t) && StatusFits(b, q, t);
      if t != task {
        assert q.links[t].op != q.links[task].op;
        assert SameRow(b, b', q.links[t].op) && SameStory(q, q', t);
      }
    }
  }

  lemma CloseStory(q: Queue, task: Task, reason: string, target: LifeState)
    requires task in q.lives && task !in q.results
    ensures var q' := CloseQueue(q, task, reason, target);
      SameLinks(q, q') && (forall t :: t != task ==> SameStory(q, q', t)) && !IsOpen(q', task) && IsClosed(q', task) && task !in q'.results
  {
  }

  lemma FinishStory(q: Queue, s: Readback)
    requires s.task in q.lives && !IsClosed(q, s.task)
    ensures var q' := FinishQueue(q, s);
      SameLinks(q, q') && (forall t :: t != s.task ==> SameStory(q, q', t)) && !IsOpen(q', s.task) && !IsClosed(q', s.task) && s.task in q'.results
  {
  }

  lemma SettlingStory(s: State, e: Event, task: Task)
    requires QueueEnabled(s, e) && Settles(s.queue, e) && task in s.queue.links && task !in s.queue.results
    requires task == (if e.Reject? then s.queue.workers[e.w].task else if e.FinishVerified? then e.seal.task else e.task)
    ensures SameLinks(s.queue, QueueNext(s, e))
    ensures forall t :: t != task ==> SameStory(s.queue, QueueNext(s, e), t)
    ensures (e.FinishVerified? <==> task in QueueNext(s, e).results) && (!e.FinishVerified? <==> IsClosed(QueueNext(s, e), task))
    ensures !IsOpen(QueueNext(s, e), task)
  {
    if e.FinishVerified? {
      FinishStory(s.queue, e.seal);
    } else if e.Reject? {
      CloseStory(s.queue.(workers := s.queue.workers - {e.w}), task, SHORT_ALLOWANCE, Rejected);
    } else {
      CloseStory(s.queue, task, e.reason, Canceled);
    }
  }

  lemma SettlingAligned(s: State, e: Event)
    requires Aligned(s.books, s.queue) && QueueEnabled(s, e) && Settles(s.queue, e)
    requires forall task :: task in s.queue.results ==> task in s.queue.decisions
    ensures Aligned(QueueBooks(s, e), QueueNext(s, e))
  {
    var task, outcome := QueueTouches(s, e);
    SettlingStory(s, e, task);
    SettleOnlyAt(s.books, s.queue.links[task].op, s.queue.links[task].token, outcome);
    ResolvedAligned(s.books, QueueBooks(s, e), s.queue, QueueNext(s, e), task, outcome);
  }

  /** The steps of a worker that write no task row. */
  predicate WritesNoRow(e: Event) {
    e.Move? || e.Begin? || e.TakeFence? || e.ReadExpiry? || e.Deliver? || e.Recover? || e.Observe? || e.Crash?
  }

  ghost predicate SameRows(q: Queue, q': Queue) {
    && q'.links == q.links && q'.byOp == q.byOp && q'.decisions == q.decisions && q'.results == q.results
    && q'.signed == q.signed && q'.sent == q.sent && q'.cancels == q.cancels && q.lives.Keys <= q'.lives.Keys
  }

  lemma WorkersKeepRows(s: State, e: Event)
    requires QueueEnabled(s, e) && WritesNoRow(e)
    ensures SameRows(s.queue, QueueNext(s, e))
  {
  }

  lemma AttemptStory(q: Queue, w: int, a: Authorization)
    requires a.task !in q.decisions
    ensures SameLinks(q, AttemptQueue(q, w, a)) && forall task :: SameStory(q, AttemptQueue(q, w, a), task)
  {
  }

  /** Everything but an admission and a settlement leaves every task's story as it was. */
  lemma UntouchedStory(s: State, e: Event)
    requires QueueEnabled(s, e) && !e.TaskAdmit? && !Settles(s.queue, e)
    ensures SameLinks(s.queue, QueueNext(s, e))
    ensures forall task :: SameStory(s.queue, QueueNext(s, e), task)
  {
    if WritesNoRow(e) {
      WorkersKeepRows(s, e);
    } else if e.CommitAttempt? && !e.rollback {
      var a := QueueNext(s, e).workers[e.w].authorization;
      assert QueueNext(s, e) == AttemptQueue(s.queue, e.w, a);
      AttemptStory(s.queue, e.w, a);
    } else {
      assert QueueNext(s, e).decisions == s.queue.decisions;
    }
  }

  lemma QueueAligned(s: State, e: Event)
    requires Aligned(s.books, s.queue) && RowsFit(s.queue, s.site.effects) && QueueEnabled(s, e)
    ensures Aligned(QueueBooks(s, e), QueueNext(s, e))
  {
    if e.TaskAdmit? {
      NewTaskBare(s.queue, s.site.effects, e.task);
      AdmittedLinks(s.books, s.queue, QueueNext(s, e), e.task, e.request, e.link);
      AdmittedStatuses(s.books, s.queue, QueueNext(s, e), e.task, e.request, e.link);
    } else if Settles(s.queue, e) {
      forall task | task in s.queue.results ensures task in s.queue.decisions { assert ResultFits(s.queue, s.site.effects, task); }
      SettlingAligned(s, e);
    } else {
      UntouchedBooks(s, e);
      UntouchedStory(s, e);
      AlignedElsewhere(s.books, QueueBooks(s, e), s.queue, QueueNext(s, e));
    }
  }

  lemma NewTaskBare(q: Queue, effects: map<OpKey, QueuedEffect>, task: Task)
    requires RowsFit(q, effects) && task !in q.links
    ensures task !in q.decisions && task !in q.results
  {
    assert task in q.decisions ==> DecisionFits(q, task);
    assert task in q.results ==> ResultFits(q, effects, task);
  }

  // ----- the queue against the destination -----

  /** Rows only ever appear. */
  ghost predicate RowsGrow(q: Queue, q': Queue) {
    && (forall task :: task in q.links ==> task in q'.links && q'.links[task] == q.links[task])
    && (forall task :: task in q.decisions ==> task in q'.decisions && q'.decisions[task] == q.decisions[task])
    && (forall task :: task in q.results ==> task in q'.results && q'.results[task] == q.results[task])
    && q.signed <= q'.signed && q.sent <= q'.sent
  }

  ghost predicate EffectsGrow(effects: map<OpKey, QueuedEffect>, effects': map<OpKey, QueuedEffect>) {
    forall o :: o in effects ==> o in effects' && effects'[o] == effects[o]
  }

  /** Growth keeps every old row right; what is new must be shown right by itself. */
  lemma GrownEvidence(q: Queue, q': Queue, effects: map<OpKey, QueuedEffect>, effects': map<OpKey, QueuedEffect>)
    requires Evidenced(q, effects) && RowsGrow(q, q') && EffectsGrow(effects, effects')
    requires forall task :: task in q'.decisions && task !in q.decisions ==> DecisionFits(q', task)
    requires forall task :: task in q'.results && task !in q.results ==> ResultFits(q', effects', task)
    requires forall task :: task in q'.cancels && task !in q.cancels ==> task in q'.decisions && q'.decisions[task].Attempt?
    requires forall a :: a in q'.sent && a !in q.sent ==> Recorded(q', a)
    requires forall w :: w in q'.workers && q'.workers[w].Holding? ==>
               (w in q.workers && q.workers[w] == q'.workers[w]) || Recorded(q', q'.workers[w].authorization)
    requires forall o :: o in effects' && o !in effects ==> EffectFits(q', effects', o)
    requires forall r :: r in q'.seals && r !in q.seals ==> SealFits(q', effects', r)
    ensures Evidenced(q', effects')
  {
    GrownRows(q, q', effects, effects');
    GrownSent(q, q');
    GrownEffects(q, q', effects, effects');
    forall r | r in q'.seals ensures SealFits(q', effects', r) { assert r in q.seals ==> SealFits(q, effects, r); }
  }

  lemma GrownRows(q: Queue, q': Queue, effects: map<OpKey, QueuedEffect>, effects': map<OpKey, QueuedEffect>)
    requires RowsFit(q, effects) && RowsGrow(q, q') && EffectsGrow(effects, effects')
    requires forall task :: task in q'.decisions && task !in q.decisions ==> DecisionFits(q', task)
    requires forall task :: task in q'.results && task !in q.results ==> ResultFits(q', effects', task)
    requires forall task :: task in q'.cancels && task !in q.cancels ==> task in q'.decisions && q'.decisions[task].Attempt?
    ensures RowsFit(q', effects')
  {
    forall t | t in q'.decisions ensures DecisionFits(q', t) { assert t in q.decisions ==> DecisionFits(q, t); }
    forall t | t in q'.results ensures ResultFits(q', effects', t) { assert t in q.results ==> ResultFits(q, effects, t); }
  }

  lemma GrownSent(q: Queue, q': Queue)
    requires OnlyRecordedSent(q) && RowsGrow(q, q')
    requires forall a :: a in q'.sent && a !in q.sent ==> Recorded(q', a)
    requires forall w :: w in q'.workers && q'.workers[w].Holding? ==>
               (w in q.workers && q.workers[w] == q'.workers[w]) || Recorded(q', q'.workers[w].authorization)
    ensures OnlyRecordedSent(q')
  {
    forall a | a in q'.sent ensures Recorded(q', a) { assert a in q.sent ==> Recorded(q, a); }
    forall w | w in q'.workers && q'.workers[w].Holding? ensures Recorded(q', q'.workers[w].authorization) {
      assert w in q.workers && q.workers[w] == q'.workers[w] ==> Recorded(q, q.workers[w].authorization);
    }
  }

  lemma GrownEffects(q: Queue, q': Queue, effects: map<OpKey, QueuedEffect>, effects': map<OpKey, QueuedEffect>)
    requires EffectsFit(q, effects) && RowsGrow(q, q') && EffectsGrow(effects, effects')
    requires forall o :: o in effects' && o !in effects ==> EffectFits(q', effects', o)
    ensures EffectsFit(q', effects')
  {
    forall o | o in effects' ensures EffectFits(q', effects', o) { assert o in effects ==> EffectFits(q, effects, o); }
  }

  lemma SameRowsGrow(q: Queue, q': Queue)
    requires SameRows(q, q')
    ensures RowsGrow(q, q')
  {
  }

  lemma CloseGrows(q: Queue, task: Task, reason: string, target: LifeState)
    requires task in q.lives && task !in q.decisions
    ensures RowsGrow(q, CloseQueue(q, task, reason, target))
  {
  }

  lemma FinishGrows(q: Queue, s: Readback)
    requires s.task in q.lives && s.task !in q.results
    ensures RowsGrow(q, FinishQueue(q, s))
  {
  }

  lemma AttemptGrows(q: Queue, w: int, a: Authorization)
    requires a.task !in q.decisions
    ensures RowsGrow(q, AttemptQueue(q, w, a))
  {
  }

  lemma SettlingGrows(s: State, e: Event)
    requires QueueEnabled(s, e) && Settles(s.queue, e)
    ensures RowsGrow(s.queue, QueueNext(s, e))
  {
    if e.FinishVerified? {
      FinishGrows(s.queue, e.seal);
    } else if e.Reject? {
      CloseGrows(s.queue.(workers := s.queue.workers - {e.w}), s.queue.workers[e.w].task, SHORT_ALLOWANCE, Rejected);
    } else {
      CloseGrows(s.queue, e.task, e.reason, Canceled);
    }
  }

  lemma QueueRowsGrow(s: State, e: Event)
    requires QueueEnabled(s, e)
    ensures RowsGrow(s.queue, QueueNext(s, e))
  {
    if WritesNoRow(e) {
      WorkersKeepRows(s, e);
      SameRowsGrow(s.queue, QueueNext(s, e));
    } else if Settles(s.queue, e) {
      SettlingGrows(s, e);
    } else if e.CommitAttempt? && !e.rollback {
      AttemptGrows(s.queue, e.w, QueueNext(s, e).workers[e.w].authorization);
    }
  }

  lemma SiteGrows(s: State, e: Event)
    requires QueueEnabled(s, e)
    ensures EffectsGrow(s.site.effects, QueueSite(s, e).effects)
  {
    SealedOnlyByObserver(s, e);
  }

  lemma QueueEvidenced(s: State, e: Event)
    requires Evidenced(s.queue, s.site.effects) && QueueEnabled(s, e)
    ensures Evidenced(QueueNext(s, e), QueueSite(s, e).effects)
  {
    QueueRowsGrow(s, e);
    SiteGrows(s, e);
    if e.Deliver? || e.Observe? {
      SiteEvidenced(s, e);
    } else {
      SealedOnlyByObserver(s, e);
      NewDecisionsFit(s, e);
      NewResultsFit(s, e);
      NewMessagesFit(s, e);
      GrownEvidence(s.queue, QueueNext(s, e), s.site.effects, s.site.effects);
    }
  }

  lemma DeliverEvidenced(s: State, e: Event)
    requires Evidenced(s.queue, s.site.effects) && QueueEnabled(s, e) && e.Deliver?
    requires RowsGrow(s.queue, QueueNext(s, e)) && EffectsGrow(s.site.effects, QueueSite(s, e).effects)
    ensures Evidenced(QueueNext(s, e), QueueSite(s, e).effects)
  {
    GrownEvidence(s.queue, QueueNext(s, e), s.site.effects, QueueSite(s, e).effects);
  }

  lemma ObserveEvidenced(s: State, e: Event)
    requires Evidenced(s.queue, s.site.effects) && QueueEnabled(s, e) && e.Observe?
    requires RowsGrow(s.queue, QueueNext(s, e)) && EffectsGrow(s.site.effects, QueueSite(s, e).effects)
    ensures Evidenced(QueueNext(s, e), QueueSite(s, e).effects)
  {
    GrownEvidence(s.queue, QueueNext(s, e), s.site.effects, QueueSite(s, e).effects);
  }

  lemma SiteEvidenced(s: State, e: Event)
    requires Evidenced(s.queue, s.site.effects) && QueueEnabled(s, e) && (e.Deliver? || e.Observe?)
    requires RowsGrow(s.queue, QueueNext(s, e)) && EffectsGrow(s.site.effects, QueueSite(s, e).effects)
    ensures Evidenced(QueueNext(s, e), QueueSite(s, e).effects)
  {
    if e.Deliver? { DeliverEvidenced(s, e); } else { ObserveEvidenced(s, e); }
  }

  lemma NewDecisionsFit(s: State, e: Event)
    requires QueueEnabled(s, e)
    ensures var q, q' := s.queue, QueueNext(s, e);
      && (forall task :: task in q'.decisions && task !in q.decisions ==> DecisionFits(q', task))
      && (forall task :: task in q'.cancels && task !in q.cancels ==> task in q'.decisions && q'.decisions[task].Attempt?)
  {
    if e.CommitAttempt? {} else if e.Cancel? {} else {}
  }

  lemma FinishFits(q: Queue, effects: map<OpKey, QueuedEffect>, s: Readback)
    requires RowsFit(q, effects) && SealsFit(q, effects) && s in q.seals && s.task in q.lives && s.task !in q.results
    ensures forall task :: task in FinishQueue(q, s).results && task !in q.results ==> ResultFits(FinishQueue(q, s), effects, task)
  {
    assert SealFits(q, effects, s);
    assert DecisionFits(q, s.task);
  }

  lemma SettledOnlyByFinish(s: State, e: Event)
    requires QueueEnabled(s, e) && !e.FinishVerified?
    ensures QueueNext(s, e).results == s.queue.results
  {
    if e.Reject? {} else if e.Cancel? {} else if e.CommitAttempt? {} else {}
  }

  lemma SealedOnlyByObserver(s: State, e: Event)
    requires QueueEnabled(s, e)
    ensures !e.Observe? ==> QueueNext(s, e).seals == s.queue.seals
    ensures !e.Deliver? ==> QueueSite(s, e).effects == s.site.effects
  {
  }

  lemma NewResultsFit(s: State, e: Event)
    requires RowsFit(s.queue, s.site.effects) && SealsFit(s.queue, s.site.effects) && QueueEnabled(s, e)
    ensures var q, q' := s.queue, QueueNext(s, e);
      forall task :: task in q'.results && task !in q.results ==> ResultFits(q', s.site.effects, task)
  {
    if e.FinishVerified? {
      FinishFits(s.queue, s.site.effects, e.seal);
    } else {
      SettledOnlyByFinish(s, e);
    }
  }

  lemma NewMessagesFit(s: State, e: Event)
    requires OnlyRecordedSent(s.queue) && QueueEnabled(s, e)
    ensures var q, q' := s.queue, QueueNext(s, e);
      && (forall a :: a in q'.sent && a !in q.sent ==> Recorded(q', a))
      && (forall w :: w in q'.workers && q'.workers[w].Holding? ==>
            (w in q.workers && q.workers[w] == q'.workers[w]) || Recorded(q', q'.workers[w].authorization))
  {
    assert e.Send? ==> Recorded(s.queue, s.queue.workers[e.w].authorization);
  }

  lemma QueueGenuine(s: State, e: Event)
    requires Genuine(s) && QueueEnabled(s, e)
    requires s.books.now <= QueueBooks(s, e).now && s.queue.signed <= QueueNext(s, e).signed
    ensures Genuine(s.(books := QueueBooks(s, e), queue := QueueNext(s, e), site := QueueSite(s, e)))
  {
    if !e.Deliver? { SealedOnlyByObserver(s, e); }
  }

  // ----- every step, every run -----

  lemma {:induction false} RunKeepsInv(s: State, events: seq<Event>)
    requires Inv(s)
    ensures Inv(Run(s, events))
  {
    if |events| > 0 {
      RunKeepsInv(s, events[..|events| - 1]);
      StepKeepsInv(Run(s, events[..|events| - 1]), events[|events| - 1]);
    }
  }

  lemma StepKeepsInv(s: State, e: Event)
    requires Inv(s)
    ensures Inv(Apply(s, e))
  {
    if GatewayEnabled(s.books, s.gateway, s.queue.byOp, e) {
      GatewayKeepsInv(s, e);
    } else if QueueEnabled(s, e) {
      QueueKeepsInv(s, e);
    } else {
      OutsideKeepsInv(s, e);
    }
  }

  lemma GatewayKeepsInv(s: State, e: Event)
    requires Inv(s) && GatewayEnabled(s.books, s.gateway, s.queue.byOp, e)
    ensures Inv(s.(books := GatewayBooks(s.books, s.gateway, e), gateway := GatewayNext(s.books, s.gateway, e)))
  {
    GatewayTouches(s.books, s.queue.byOp, s.gateway, e);
    GatewaySound(s.books, s.queue.byOp, s.gateway, e);
    LinkedKnown(s.books, s.queue);
    GatewayCalls(s.books, s.queue.byOp, s.gateway, e);
    GatewayLeavesAligned(s.books, s.queue, s.gateway, e);
  }

  lemma QueueKeepsInv(s: State, e: Event)
    requires Inv(s) && QueueEnabled(s, e)
    ensures Inv(s.(books := QueueBooks(s, e), queue := QueueNext(s, e), site := QueueSite(s, e)))
  {
    QueueBooksSound(s, e);
    QueueLeavesCalls(s, e);
    QueueAligned(s, e);
    QueueEvidenced(s, e);
    QueueClock(s, e);
    QueueRowsGrow(s, e);
    SiteGrows(s, e);
    QueueGenuine(s, e);
  }

  lemma QueueClock(s: State, e: Event)
    requires QueueEnabled(s, e)
    ensures s.books.now <= QueueBooks(s, e).now
  {
  }

  lemma OutsideKeepsInv(s: State, e: Event)
    requires Inv(s)
    ensures Inv(s.(books := Outside(s.books, e)))
  {
    var b' := Outside(s.books, e);
    OutsideAccounts(s.books, e);
    SoundDependsOn(s.books, b');
    OutsideCalls(s.books, b', s.queue.byOp, s.gateway);
    OutsideAligned(s.books, b', s.queue);
  }

  lemma OutsideAligned(b: Tables, b': Tables, q: Queue)
    requires Aligned(b, q) && SameAccounts(b, b')
    ensures Aligned(b', q)
  {
    AlignedElsewhere(b, b', q, q);
  }

  lemma StartInv(now: real, limits: Limits, defaults: B.Budget, timeout: real)
    requires B.Fresh(defaults)
    ensures Inv(Start(now, limits, defaults, timeout))
  {
    var b := Start(now, limits, defaults, timeout).books;
    assert Exposures(b.budgets) == map[] && Charged(b) == map[];
  }
}
