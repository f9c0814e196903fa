/**
 What an undisturbed worker achieves: a dispatch that nobody interrupts executes once and
 settles as succeeded, and so does a synchronous call.
 */
module KernelProgress {
  import opened Ledger
  import opened Wrappers
  import opened QueuedDestination
  import opened Kernel
  import opened KernelInvariants
  import opened KernelSafety
  import opened KernelRecovery
  import Fencing

  /** A worker without trouble: an admitted task, a free fence, time left, and a result allowance that fits. */
  ghost predicate Undisturbed(s: State, w: int, task: Task, attempt: string, authority: real) {
    && w !in s.queue.workers
    && Dispatchable(s.books, s.queue, task)
    && ENVELOPE_LIMIT <= s.queue.links[task].resultLimit <= MAX_RESULT_LIMIT
    && Fencing.Bounded(s.queue.links[task].scope) && Fencing.Bounded(attempt)
    && Fencing.Free(s.site.fences, s.queue.links[task].scope, s.books.now)
    && 1 <= Fencing.NextEpoch(s.site.fences, s.queue.links[task].scope) <= MAX_EPOCH
    && !AttemptUsed(s.site.effects, attempt)
    && s.books.now < authority && 0.0 < s.timeout <= 10.0
  }

  /** The authorization such a worker signs. */
  function Signs(s: State, task: Task, attempt: string, authority: real): Authorization
    requires task in s.queue.links
  {
    var l, now := s.queue.links[task], s.books.now;
    Mandate(l, task, attempt, Fencing.NextEpoch(s.site.fences, l.scope), now,
            Deadline(authority, now + FenceSeconds(s.timeout) as real, now, s.timeout))
  }

  lemma SignsInTime(s: State, task: Task, attempt: string, authority: real)
    requires task in s.queue.links && s.books.now < authority && 0.0 < s.timeout <= 10.0
    ensures 1 <= FenceSeconds(s.timeout) <= 3600
    ensures var a := Signs(s, task, attempt, authority);
      a.issued < a.expires <= a.issued + s.timeout && a.expires <= s.books.now + FenceSeconds(s.timeout) as real
  {
  }

  // ----- the states in between -----

  function WithWorker(s: State, w: int, v: Worker): State {
    s.(queue := s.queue.(workers := s.queue.workers[w := v]))
  }

  function Loaded(s: State, w: int, task: Task): State {
    WithWorker(s, w, Loading(task))
  }

  function FenceTaken(s: State, w: int, task: Task, attempt: string): State
    requires task in s.queue.links
  {
    var l := s.queue.links[task];
    WithWorker(s, w, Fenced(task, attempt, Fencing.NextEpoch(s.site.fences, l.scope)))
      .(site := s.site.(fences := Fencing.Acquired(s.site.fences, l.scope, attempt, s.books.now + FenceSeconds(s.timeout) as real)))
  }

  function ExpiryRead(s: State, w: int, task: Task, attempt: string): State
    requires task in s.queue.links
  {
    var l := s.queue.links[task];
    WithWorker(FenceTaken(s, w, task, attempt), w,
               Worker.Bounded(task, attempt, Fencing.NextEpoch(s.site.fences, l.scope), s.books.now + FenceSeconds(s.timeout) as real))
  }

  function Attempted(s: State, w: int, task: Task, attempt: string, a: Authorization): State
    requires task in s.queue.links
  {
    var t := ExpiryRead(s, w, task, attempt);
    t.(queue := t.queue.(signed := t.queue.signed + {a}, decisions := t.queue.decisions[task := Attempt(a)],
                         workers := t.queue.workers[w := Holding(task, a)]))
  }

  function Dispatched(s: State, w: int, task: Task, attempt: string, a: Authorization): State
    requires task in s.queue.links
  {
    var t := Attempted(s, w, task, attempt, a);
    t.(queue := t.queue.(sent := t.queue.sent + {a}, workers := t.queue.workers[w := Recovering(task)]))
  }

  function Executed(s: State, w: int, task: Task, attempt: string, a: Authorization): State
    requires task in s.queue.links
  {
    var t := Dispatched(s, w, task, attempt, a);
    t.(site := t.site.(effects := t.site.effects[a.op := QueuedEffect(a, a.action, s.books.now)]))
  }

  // ----- one step at a time -----

  lemma BeginStep(s: State, w: int, task: Task)
    requires w !in s.queue.workers && task in s.queue.links && task !in s.queue.decisions
    ensures Apply(s, Begin(w, task)) == Loaded(s, w, task)
  {
    assert QueueEnabled(s, Begin(w, task));
  }

  lemma FenceStep(s: State, w: int, task: Task, attempt: string, authority: real)
    requires Undisturbed(s, w, task, attempt, authority)
    ensures Apply(Loaded(s, w, task), TakeFence(w, attempt)) == FenceTaken(s, w, task, attempt)
  {
    SignsInTime(s, task, attempt, authority);
    assert QueueEnabled(Loaded(s, w, task), TakeFence(w, attempt));
    assert s.queue.workers[w := Loading(task)][w := FenceTaken(s, w, task, attempt).queue.workers[w]] == FenceTaken(s, w, task, attempt).queue.workers;
  }

  lemma ExpiryStep(s: State, w: int, task: Task, attempt: string)
    requires task in s.queue.links
    ensures Apply(FenceTaken(s, w, task, attempt), ReadExpiry(w)) == ExpiryRead(s, w, task, attempt)
  {
    assert QueueEnabled(FenceTaken(s, w, task, attempt), ReadExpiry(w));
  }

  lemma AttemptStep(s: State, w: int, task: Task, attempt: string, authority: real)
    requires Undisturbed(s, w, task, attempt, authority)
    ensures Apply(ExpiryRead(s, w, task, attempt), CommitAttempt(w, authority, false)) == Attempted(s, w, task, attempt, Signs(s, task, attempt, authority))
  {
    SignsInTime(s, task, attempt, authority);
    assert Dispatchable(s.books, ExpiryRead(s, w, task, attempt).queue, task);
    assert QueueEnabled(ExpiryRead(s, w, task, attempt), CommitAttempt(w, authority, false));
  }

  lemma SendStep(s: State, w: int, task: Task, attempt: string, a: Authorization)
    requires task in s.queue.links
    ensures Apply(Attempted(s, w, task, attempt, a), Send(w)) == Dispatched(s, w, task, attempt, a)
  {
    assert QueueEnabled(Attempted(s, w, task, attempt, a), Send(w));
  }

  lemma DeliveryAccepted(s: State, w: int, task: Task, attempt: string, authority: real)
    requires Undisturbed(s, w, task, attempt, authority) && s.queue.links[task].op !in s.site.effects
    ensures var a := Signs(s, task, attempt, authority);
      var t := Dispatched(s, w, task, attempt, a);
      a in t.queue.sent && Accepts(t.site.fences, t.site.effects, t.queue.signed, t.timeout, a, a.action, t.books.now, 0.0)
  {
    SignsInTime(s, task, attempt, authority);
  }

  lemma DeliveryStep(t: State, a: Authorization)
    requires a in t.queue.sent && Accepts(t.site.fences, t.site.effects, t.queue.signed, t.timeout, a, a.action, t.books.now, 0.0)
    ensures Apply(t, Deliver(a, 0.0)) == t.(site := t.site.(effects := Committed(t.site.effects, a, a.action, t.books.now)))
  {
    assert QueueEnabled(t, Deliver(a, 0.0));
  }

  lemma DeliverStep(s: State, w: int, task: Task, attempt: string, authority: real)
    requires Undisturbed(s, w, task, attempt, authority) && s.queue.links[task].op !in s.site.effects
    ensures var a := Signs(s, task, attempt, authority);
      Apply(Dispatched(s, w, task, attempt, a), Deliver(a, 0.0)) == Executed(s, w, task, attempt, a)
  {
    var a := Signs(s, task, attempt, authority);
    var t := Dispatched(s, w, task, attempt, a);
    DeliveryAccepted(s, w, task, attempt, authority);
    DeliveryStep(t, a);
  }

  // ----- the whole dispatch -----

  function Dispatch(s: State, w: int, task: Task, attempt: string, authority: real): seq<Event>
    requires task in s.queue.links
  {
    [Begin(w, task), TakeFence(w, attempt), ReadExpiry(w), CommitAttempt(w, authority, false), Send(w),
     Deliver(Signs(s, task, attempt, authority), 0.0)]
  }

  lemma RunSix(s: State, e: seq<Event>)
    requires |e| == 6
    ensures Run(s, e) == Apply(Apply(Apply(Apply(Apply(Apply(s, e[0]), e[1]), e[2]), e[3]), e[4]), e[5])
  {
    RunThree(s, e[0], e[1], e[2]);
    assert e[..3] == [e[0], e[1], e[2]];
    assert e[..4][..3] == e[..3] && e[..5][..4] == e[..4];
    assert Run(s, e[..4]) == Apply(Run(s, e[..3]), e[3]);
    assert Run(s, e[..5]) == Apply(Run(s, e[..4]), e[4]);
  }

  lemma DispatchExecutes(s: State, w: int, task: Task, attempt: string, authority: real)
    requires Undisturbed(s, w, task, attempt, authority) && s.queue.links[task].op !in s.site.effects
    ensures Run(s, Dispatch(s, w, task, attempt, authority)) == Executed(s, w, task, attempt, Signs(s, task, attempt, authority))
  {
    RunSix(s, Dispatch(s, w, task, attempt, authority));
    BeginStep(s, w, task);
    FenceStep(s, w, task, attempt, authority);
    ExpiryStep(s, w, task, attempt);
    AttemptStep(s, w, task, attempt, authority);
    SendStep(s, w, task, attempt, Signs(s, task, attempt, authority));
    DeliverStep(s, w, task, attempt, authority);
  }

  lemma ExecutedReady(s: State, w: int, task: Task, attempt: string, authority: real)
    requires Undisturbed(s, w, task, attempt, authority) && task !in s.queue.results
    ensures var t := Executed(s, w, task, attempt, Signs(s, task, attempt, authority));
      Recoverable(t, task) && Ready(t, task)
  {
    SignsInTime(s, task, attempt, authority);
  }

  lemma UndecidedHasNoEffect(b: Tables, q: Queue, effects: map<OpKey, QueuedEffect>, task: Task)
    requires LinksFit(b, q) && Evidenced(q, effects) && task in q.links && task !in q.decisions
    ensures q.links[task].op !in effects && task !in q.results
  {
    assert task in q.results ==> ResultFits(q, effects, task);
    if q.links[task].op in effects { EffectOwner(b, q, effects, task); }
  }

  lemma DispatchReaches(s: State, origin: Setup, events: seq<Event>, w: int, task: Task, attempt: string, authority: real)
    requires Reachable(s, origin, events) && Undisturbed(s, w, task, attempt, authority)
    ensures var t := Executed(s, w, task, attempt, Signs(s, task, attempt, authority));
      && Run(s, Dispatch(s, w, task, attempt, authority)) == t && Recoverable(t, task) && Ready(t, task)
      && t.site.effects == s.site.effects[s.queue.links[task].op := QueuedEffect(Signs(s, task, attempt, authority), s.queue.links[task].action, s.books.now)]
  {
    ReachableInv(s, origin, events);
    UndecidedHasNoEffect(s.books, s.queue, s.site.effects, task);
    DispatchExecutes(s, w, task, attempt, authority);
    ExecutedReady(s, w, task, attempt, authority);
  }

  /** The task is executed once and charged once: the effect is the signed one, and the books moved by exactly this settlement. */
  predicate ExecutedOnce(s: State, u: State, task: Task, a: Authorization)
    requires task in s.queue.links
  {
    var l := s.queue.links[task];
    && task in u.queue.results && Settleable(s.books, l.op, l.token, None)
    && u.books == Settle(s.books, l.op, l.token, Succeeded)
    && u.site.effects == s.site.effects[l.op := QueuedEffect(a, l.action, s.books.now)]
  }

  /** From any reachable state, an undisturbed dispatch followed by anybody's recovery executes the task once and settles it as succeeded. */
  lemma DispatchCompletes(s: State, origin: Setup, events: seq<Event>, w: int, v: int, task: Task, attempt: string, authority: real)
    requires Reachable(s, origin, events) && Undisturbed(s, w, task, attempt, authority) && v !in s.queue.workers && v != w
    ensures var t := Run(s, Dispatch(s, w, task, attempt, authority));
      Recoverable(t, task)
      && ExecutedOnce(s, Run(t, RecoveryOf(SealOf(t, task), Try(v, true, true))), task, Signs(s, task, attempt, authority))
  {
    var t := Executed(s, w, task, attempt, Signs(s, task, attempt, authority));
    DispatchReaches(s, origin, events, w, task, attempt, authority);
    OneRecovery(t, task, Try(v, true, true));
  }

  // ----- a task that waits -----

  lemma WaitStep(s: State, task: Task, target: LifeState)
    requires task in s.queue.lives && s.queue.lives[task] == Life(Working, 1) && (target == InputRequired || target == AuthRequired)
    ensures Apply(s, Move(task, target)) == s.(queue := s.queue.(lives := s.queue.lives[task := Life(target, 2)]))
  {
    assert QueueEnabled(s, Move(task, target));
  }

  /** A dispatched task that waits: its effect is at the destination and its lifecycle cannot end in completed. */
  predicate Waits(s: State, t: State, task: Task)
    requires task in s.queue.links
  {
    && Recoverable(t, task) && Ready(t, task) && s.queue.links[task].op in t.site.effects
    && t.books == s.books && t.queue.links == s.queue.links
    && !CanEnd(t.queue.lives[task], Kernel.Completed)
  }

  lemma ExecutedWaits(s: State, x: State, task: Task, target: LifeState)
    requires Recoverable(x, task) && Ready(x, task) && x.queue.lives[task] == Life(Working, 1)
    requires task in s.queue.links && x.books == s.books && x.queue.links == s.queue.links && s.queue.links[task].op in x.site.effects
    requires target == InputRequired || target == AuthRequired
    ensures Waits(s, Apply(x, Move(task, target)), task) && Apply(x, Move(task, target)).queue.workers == x.queue.workers
  {
    WaitStep(x, task, target);
  }

  /** Decided, and unable to end in completed. */
  predicate Blocked(q: Queue, task: Task) {
    task in q.links && task in q.decisions && task in q.lives && !CanEnd(q.lives[task], Kernel.Completed)
  }

  lemma WorkersKeepStatus(s: State, e: Event, task: Task)
    requires Blocked(s.queue, task) && QueueEnabled(s, e) && !(e.Move? && e.task == task)
    requires WritesNoRow(e) || e.CommitAttempt? || e.Send?
    ensures QueueNext(s, e).lives == s.queue.lives || e.Move?
    ensures task in QueueNext(s, e).lives && QueueNext(s, e).lives[task] == s.queue.lives[task]
  {
  }

  lemma TablesKeepStatus(s: State, e: Event, task: Task)
    requires Blocked(s.queue, task) && QueueEnabled(s, e)
    requires e.TaskAdmit? || e.Reject? || e.FinishVerified? || e.Cancel?
    ensures task in QueueNext(s, e).lives && QueueNext(s, e).lives[task] == s.queue.lives[task]
  {
    if e.TaskAdmit? {} else if e.Reject? {} else if e.FinishVerified? {} else {}
  }

  /** Such a task keeps its status until somebody moves it. */
  lemma WaitingStays(s: State, e: Event, task: Task)
    requires Blocked(s.queue, task) && !(e.Move? && e.task == task)
    ensures Blocked(Apply(s, e).queue, task)
  {
    if !GatewayEnabled(s.books, s.gateway, s.queue.byOp, e) && QueueEnabled(s, e) {
      QueueRowsGrow(s, e);
      if e.TaskAdmit? || e.Reject? || e.FinishVerified? || e.Cancel? { TablesKeepStatus(s, e, task); } else { WorkersKeepStatus(s, e, task); }
    }
  }

  lemma {:induction false} WaitingRun(s: State, more: seq<Event>, task: Task)
    requires Blocked(s.queue, task) && forall i :: 0 <= i < |more| ==> !(more[i].Move? && more[i].task == task)
    ensures Blocked(Run(s, more).queue, task)
  {
    if |more| > 0 {
      WaitingRun(s, more[..|more| - 1], task);
      WaitingStays(Run(s, more[..|more| - 1]), more[|more| - 1], task);
    }
  }

  lemma {:induction false} WaitingNeverSettles(s: State, more: seq<Event>, task: Task)
    requires Blocked(s.queue, task) && forall i :: 0 <= i < |more| ==> !(more[i].Move? && more[i].task == task)
    ensures !SettlesIn(s, more, task)
  {
    forall k | 0 <= k < |more| ensures !SettlesAt(s, more, k, task) { WaitingRun(s, more[..k], task); }
  }

  /**
   A task that starts to wait for input or authorization after its dispatch has its effect at
   the destination, and until somebody moves it on, nothing that happens settles it: its
   operation stays unknown and its money held.
   */
  lemma WaitingTaskBlocksRecovery(
      s: State, origin: Setup, events: seq<Event>, w: int, task: Task, attempt: string, authority: real, target: LifeState, more: seq<Event>)
    requires Reachable(s, origin, events) && Undisturbed(s, w, task, attempt, authority)
    requires target == InputRequired || target == AuthRequired
    requires forall i :: 0 <= i < |more| ==> !(more[i].Move? && more[i].task == task)
    ensures var t := Apply(Run(s, Dispatch(s, w, task, attempt, authority)), Move(task, target));
      Waits(s, t, task) && IsUnsettled(t, Run(t, more), task)
  {
    var x := Executed(s, w, task, attempt, Signs(s, task, attempt, authority));
    DispatchReaches(s, origin, events, w, task, attempt, authority);
    ExecutedWaits(s, x, task, target);
    ReachableSane(s, origin, events);
    RunKeepsSane(s, Dispatch(s, w, task, attempt, authority));
    StepKeepsSane(x, Move(task, target));
    WaitingIsStuck(Apply(x, Move(task, target)), task, more);
  }

  lemma WaitingIsStuck(t: State, task: Task, more: seq<Event>)
    requires Sane(t) && Recoverable(t, task) && Blocked(t.queue, task)
    requires forall i :: 0 <= i < |more| ==> !(more[i].Move? && more[i].task == task)
    ensures IsUnsettled(t, Run(t, more), task)
  {
    WaitingNeverSettles(t, more, task);
    SaneRecovery(t, task, more);
  }

  // ----- a whole run -----

  lemma AdmittedIsDispatchable(s: State, origin: Setup, events: seq<Event>, task: Task, r: Request, l: Link)
    requires Reachable(s, origin, events) && QueueEnabled(s, TaskAdmit(task, r, l, true))
    ensures var t := Apply(s, TaskAdmit(task, r, l, true));
      && t.books == Admit(s.books, r, l.token) && t.site == s.site && t.queue.workers == s.queue.workers && t.timeout == s.timeout
      && task in t.queue.links && t.queue.links[task] == l && Dispatchable(t.books, t.queue, task)
  {
    ReachableInv(s, origin, events);
    NewTaskBare(s.queue, s.site.effects, task);
    AdmissionIsHeld(s.books, r, l);
  }

  lemma AdmissionIsHeld(b: Tables, r: Request, l: Link)
    requires Admissible(b, r, l.token) && l.op == r.op && l.cost == r.cost
    requires l.approval == if r.grant.Some? then Some(r.scope) else None
    ensures Settleable(Admit(b, r, l.token), l.op, l.token, Some(l.cost))
    ensures l.approval.Some? ==> ApprovalSpent(Admit(b, r, l.token), l.op.agent, l.approval.value)
  {
    if r.grant.Some? { assert Admit(b, r, l.token).approvals[r.grant.value] == Approval(r.op.agent, r.scope, Consumed); }
  }

  /** What a first admission and dispatch need from the setup: a valid request and link, a bounded scope, time and a timeout. */
  ghost predicate FirstTask(origin: Setup, task: Task, r: Request, l: Link, attempt: string, authority: real) {
    && QueueEnabled(Initial(origin), TaskAdmit(task, r, l, true))
    && ENVELOPE_LIMIT <= l.resultLimit <= MAX_RESULT_LIMIT
    && Fencing.Bounded(l.scope) && Fencing.Bounded(attempt)
    && origin.now < authority && 0.0 < origin.timeout <= 10.0
  }

  lemma FirstIsUndisturbed(origin: Setup, task: Task, r: Request, l: Link, w: int, attempt: string, authority: real)
    requires B.Fresh(origin.defaults) && FirstTask(origin, task, r, l, attempt, authority)
    ensures var s := Run(Initial(origin), [TaskAdmit(task, r, l, true)]);
      && s == Apply(Initial(origin), TaskAdmit(task, r, l, true))
      && Undisturbed(s, w, task, attempt, authority) && s.queue.links[task] == l && s.site == Site(map[], map[])
      && s.books == Admit(Initial(origin).books, r, l.token) && s.queue.workers == map[]
  {
    var e := TaskAdmit(task, r, l, true);
    assert [e][..0] == [];
    AdmittedIsDispatchable(Initial(origin), origin, [], task, r, l);
  }

  /** From the empty tenant: admit, dispatch, recover. The one effect is the admitted action and the agent has paid exactly its cost. */
  lemma FirstTaskSucceeds(origin: Setup, task: Task, r: Request, l: Link, w: int, v: int, attempt: string, authority: real)
    requires B.Fresh(origin.defaults) && FirstTask(origin, task, r, l, attempt, authority) && v != w
    ensures var s := Run(Initial(origin), [TaskAdmit(task, r, l, true)]);
      && task in s.queue.links
      && var t := Run(s, Dispatch(s, w, task, attempt, authority));
         && Recoverable(t, task)
         && var u := Run(t, RecoveryOf(SealOf(t, task), Try(v, true, true)));
            && u.site.effects == map[r.op := QueuedEffect(Signs(s, task, attempt, authority), l.action, origin.now)]
            && r.op in u.books.operations && u.books.operations[r.op].state == Succeeded
            && r.op.agent in u.books.budgets && u.books.budgets[r.op.agent].spent == r.cost && u.books.budgets[r.op.agent].reserved == map[]
  {
    var s := Run(Initial(origin), [TaskAdmit(task, r, l, true)]);
    FirstIsUndisturbed(origin, task, r, l, w, attempt, authority);
    DispatchCompletes(s, origin, [TaskAdmit(task, r, l, true)], w, v, task, attempt, authority);
    FirstPays(Initial(origin).books, r, l.token);
  }

  lemma FirstPays(b: Tables, r: Request, token: string)
    requires B.Fresh(b.defaults) && r.op.agent !in b.budgets && Settleable(Admit(b, r, token), r.op, token, None)
    ensures var b' := Settle(Admit(b, r, token), r.op, token, Succeeded);
      && b'.operations[r.op].state == Succeeded
      && b'.budgets[r.op.agent].spent == r.cost && b'.budgets[r.op.agent].reserved == map[]
  {
    var held := Admit(b, r, token).budgets[r.op.agent].reserved;
    assert held == map[token := r.cost];
    assert held - {token} == map[];
  }

  // ----- a synchronous call -----

  function CallOf(w: int, r: Request, token: string): seq<Event> {
    [CallAdmit(w, r, token), CallInvoke(w), CallReturn(w)]
  }

  lemma CallReturns(s: State, w: int, r: Request, token: string)
    requires w !in s.gateway.calls && Admissible(s.books, r, token)
    ensures var t := Run(s, CallOf(w, r, token));
      && t.books == Admit(s.books, r, token)
      && CallAt(t.gateway, w, Returned) && t.gateway.calls[w] == Call(Returned, r.op, token, r.cost)
  {
    RunThree(s, CallAdmit(w, r, token), CallInvoke(w), CallReturn(w));
  }

  lemma AdmittedSettles(b: Tables, r: Request, token: string)
    requires Admissible(b, r, token)
    ensures Settleable(Admit(b, r, token), r.op, token, Some(r.cost))
  {
  }

  /** An admitted call that is answered settles as succeeded, at its admitted cost. */
  lemma CallCompletes(s: State, w: int, r: Request, token: string)
    requires w !in s.gateway.calls && Admissible(s.books, r, token)
    ensures var t := Run(s, CallOf(w, r, token));
      Settleable(t.books, r.op, token, Some(r.cost)) && Apply(t, CallSettle(w, true)).books == Settle(Admit(s.books, r, token), r.op, token, Succeeded)
  {
    CallReturns(s, w, r, token);
    AdmittedSettles(s.books, r, token);
    var t := Run(s, CallOf(w, r, token));
    assert GatewayEnabled(t.books, t.gateway, t.queue.byOp, CallSettle(w, true));
  }
}
