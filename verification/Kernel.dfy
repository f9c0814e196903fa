/**
 The governed-action kernel as a step machine. Each event is one SQL transaction, one
 destination transaction, or one move of a worker between two of them; anything may
 happen in between, and a worker may vanish at any point.
 */
module Kernel {
  import opened Ledger
  import opened Wrappers
  import opened Fencing
  import opened QueuedDestination

  // ----- synchronous calls -----

  datatype Phase = Held | Aborting | Invoking | Returned

  /** What a route_call worker keeps between its transactions. */
  datatype Call = Call(phase: Phase, op: OpKey, token: string, cost: real)

  /** Histories: which operations were ever sent out, answered, canceled before sending, or decided by a reviewer. */
  datatype Gateway = Gateway(
    calls: map<int, Call>,
    invoked: set<OpKey>,
    returned: set<OpKey>,
    canceled: set<OpKey>,
    reviewed: map<OpKey, Outcome>)

  // ----- queued tasks -----

  datatype LifeState = Working | InputRequired | AuthRequired | Completed | FailedState | Canceled | Rejected

  datatype Life = Life(state: LifeState, sequence: int)

  predicate Terminal(s: LifeState) {
    s == Completed || s == FailedState || s == Canceled || s == Rejected
  }

  /** The legal lifecycle moves of a task that has been admitted. */
  predicate Legal(source: LifeState, target: LifeState) {
    match source
    case Working => target != Working
    case InputRequired => target == Working || target == Canceled || target == FailedState
    case AuthRequired => target == Working || target == Canceled || target == Rejected || target == FailedState
    case _ => false
  }

  /** A terminal task is left alone; any other must be able to make the move. */
  predicate CanEnd(l: Life, target: LifeState) {
    Terminal(l.state) || Legal(l.state, target)
  }

  function Ended(l: Life, target: LifeState): Life {
    if Terminal(l.state) then l else Life(target, l.sequence + 1)
  }

  /** The immutable admission link; `scope` is the destination fence scope of the operation. */
  datatype Link = Link(op: OpKey, token: string, cost: real, fingerprint: string, digest: string, action: string,
                       resultLimit: int, approval: Option<string>, scope: string)

  datatype Decision = Attempt(authorization: Authorization) | Closed(reason: string)

  datatype Result = Result(decision: Decision, evidence: QueuedEffect)

  /** A sealed observation: only the read-only observer makes one. */
  datatype Readback = Readback(task: Task, decision: Decision, evidence: QueuedEffect, observed: int)

  datatype Worker =
    | Loading(task: Task)
    | Fenced(task: Task, attempt: string, epoch: int)
    | Bounded(task: Task, attempt: string, epoch: int, fenceExpiry: real)
    | Holding(task: Task, authorization: Authorization)
    | Recovering(task: Task)

  /** `byOp` is the unique index of the link table on the operation. */
  datatype Queue = Queue(
    links: map<Task, Link>,
    byOp: map<OpKey, Task>,
    lives: map<Task, Life>,
    decisions: map<Task, Decision>,
    results: map<Task, Result>,
    cancels: map<Task, string>,
    workers: map<int, Worker>,
    signed: set<Authorization>,
    sent: set<Authorization>,
    seals: set<Readback>)

  datatype Site = Site(fences: Fences, effects: map<OpKey, QueuedEffect>)

  datatype State = State(books: Tables, gateway: Gateway, queue: Queue, site: Site, timeout: real)

  // ----- events -----

  /**
   Transactions that admit a task, settle, close or cancel also append an audit row. `room` says whether
   the audit table takes it; if not, the whole transaction rolls back. An attempt rolls
   back for that reason or because its authority has lapsed, after it has been signed.
   */
  datatype Event =
    | Tick(elapsed: real)
    | SetPolicy(limits: Limits)
    | AskApproval(id: string, agent: string, scope: string)
    | Decide(id: string, allow: bool)
    // a synchronous call
    | CallAdmit(w: int, request: Request, token: string)
    | CallCancel(w: int)
    | CallAbort(w: int, room: bool)
    | CallInvoke(w: int)
    | CallReturn(w: int)
    | CallRaise(w: int)
    | CallSettle(w: int, room: bool)
    | CallCrash(w: int)
    | Reconcile(op: OpKey, outcome: Outcome, room: bool)
    // a queued task
    | TaskAdmit(task: Task, request: Request, link: Link, room: bool)
    | Move(task: Task, target: LifeState)
    | Begin(w: int, task: Task)
    | Reject(w: int, room: bool)
    | TakeFence(w: int, attempt: string)
    | ReadExpiry(w: int)
    | CommitAttempt(w: int, authority: real, rollback: bool)
    | Send(w: int)
    | Deliver(authorization: Authorization, lag: real)
    | Recover(w: int, task: Task)
    | Observe(w: int)
    | FinishVerified(seal: Readback, trusted: bool, room: bool)
    | Cancel(task: Task, reason: string, room: bool)
    | Crash(w: int)

  // ----- transactions over books and queue -----

  /** The first-dispatch loader, repeated under the locks: an untouched task and its exact held reservation. */
  ghost predicate Dispatchable(b: Tables, q: Queue, task: Task) {
    && task in q.links && task in q.lives
    && q.lives[task] == Life(Working, 1)
    && task !in q.decisions
    && var l := q.links[task];
       && Settleable(b, l.op, l.token, Some(l.cost))
       && (l.approval.Some? ==> ApprovalSpent(b, l.op.agent, l.approval.value))
  }

  ghost predicate ApprovalSpent(b: Tables, agent: string, scope: string) {
    exists id :: id in b.approvals && b.approvals[id] == Approval(agent, scope, Consumed)
  }

  /** The no-effect decision: permitted only while no attempt exists. */
  predicate Closable(b: Tables, q: Queue, task: Task, target: LifeState) {
    && task in q.links && task in q.lives && task !in q.decisions
    && Settleable(b, q.links[task].op, q.links[task].token, Some(q.links[task].cost))
    && CanEnd(q.lives[task], target)
  }

  function CloseQueue(q: Queue, task: Task, reason: string, target: LifeState): Queue
    requires task in q.lives
  {
    q.(decisions := q.decisions[task := Closed(reason)], lives := q.lives[task := Ended(q.lives[task], target)])
  }

  /** The reason recorded when the immutable result allowance cannot hold the evidence envelope. */
  const SHORT_ALLOWANCE := "immutable result allowance is insufficient for queued evidence"

  /** Settlement from a sealed readback of the exact recorded attempt. */
  predicate Finishable(b: Tables, q: Queue, s: Readback) {
    && s in q.seals
    && s.task in q.links && s.task in q.lives && s.task in q.decisions && s.task !in q.results
    && q.decisions[s.task] == s.decision && s.decision.Attempt?
    && Attests(s.evidence, s.decision.authorization, q.links[s.task].action)
    && b.now.Floor - 300 <= s.observed <= b.now.Floor + 30
    && s.evidence.committed <= s.observed as real + 30.0
    && Settleable(b, q.links[s.task].op, q.links[s.task].token, Some(q.links[s.task].cost))
    && CanEnd(q.lives[s.task], Completed)
  }

  function FinishQueue(q: Queue, s: Readback): Queue
    requires s.task in q.lives
  {
    q.(results := q.results[s.task := Result(s.decision, s.evidence)], lives := q.lives[s.task := Ended(q.lives[s.task], Completed)])
  }

  predicate Cancelable(b: Tables, q: Queue, task: Task) {
    && task in q.links && task in q.lives
    && task !in q.results && (task in q.decisions ==> !q.decisions[task].Closed?)
    && Unresolved(b, q.links[task].op)
  }

  /** A cancellation reason: at most 200 characters, and not blank. */
  predicate IsReason(reason: string) {
    |reason| <= 200 && exists i :: 0 <= i < |reason| && reason[i] !in " \t\n\r"
  }

  /** The cancellation transaction: close if nothing was attempted, otherwise only note the request. */
  predicate Cancels(b: Tables, q: Queue, task: Task, reason: string, room: bool) {
    && room && IsReason(reason) && Cancelable(b, q, task)
    && (task !in q.decisions ==> Closable(b, q, task, Canceled))
  }

  function CancelBooks(b: Tables, q: Queue, task: Task): Tables
    requires task !in q.decisions ==> Closable(b, q, task, Canceled)
  {
    if task in q.decisions then b else Settle(b, q.links[task].op, q.links[task].token, Failed)
  }

  function CancelQueue(q: Queue, task: Task, reason: string): Queue
    requires task in q.lives
  {
    if task !in q.decisions then CloseQueue(q, task, reason, Canceled)
    else if task in q.cancels then q
    else q.(cancels := q.cancels[task := reason])
  }

  /** The attempt transaction, under all locks. */
  ghost predicate Attempts(b: Tables, q: Queue, task: Task, fenceExpiry: real, authority: real, timeout: real) {
    Dispatchable(b, q, task) && b.now < Deadline(authority, fenceExpiry, b.now, timeout)
  }

  function AttemptQueue(q: Queue, w: int, a: Authorization): Queue {
    q.(signed := q.signed + {a}, decisions := q.decisions[a.task := Attempt(a)], workers := q.workers[w := Holding(a.task, a)])
  }

  /** A reviewer's settlement of an operation that no task owns. */
  predicate Reconciles(b: Tables, byOp: map<OpKey, Task>, o: OpKey, outcome: Outcome, room: bool) {
    room && outcome != Unknown && o !in byOp && o in b.reservations && Settleable(b, o, b.reservations[o], None)
  }

  function Min(x: real, y: real): real {
    if x <= y then x else y
  }

  function Deadline(authority: real, fenceExpiry: real, now: real, timeout: real): real {
    Min(Min(authority, fenceExpiry), now + timeout)
  }

  /** The authorization that the attempt transaction signs. */
  function Mandate(l: Link, task: Task, attempt: string, epoch: int, now: real, expires: real): Authorization {
    Authorization(task, l.op, l.digest, l.fingerprint, l.action, l.resultLimit, attempt, l.scope, epoch, now, expires)
  }

  function FenceSeconds(timeout: real): int {
    1 - (-timeout).Floor
  }

  // ----- when an event can happen -----

  predicate CallAt(g: Gateway, w: int, phase: Phase) {
    w in g.calls && g.calls[w].phase == phase
  }

  ghost predicate GatewayEnabled(b: Tables, g: Gateway, byOp: map<OpKey, Task>, e: Event) {
    match e
    case CallAdmit(w, r, token) => w !in g.calls && Admissible(b, r, token)
    case CallCancel(w) => CallAt(g, w, Held)
    case CallAbort(w, room) => room && CallAt(g, w, Aborting) && Unresolved(b, g.calls[w].op)
    case CallInvoke(w) => CallAt(g, w, Held)
    case CallReturn(w) => CallAt(g, w, Invoking)
    case CallRaise(w) => CallAt(g, w, Invoking)
    case CallSettle(w, room) => room && CallAt(g, w, Returned) && Settleable(b, g.calls[w].op, g.calls[w].token, Some(g.calls[w].cost))
    case CallCrash(w) => w in g.calls
    case Reconcile(op, outcome, room) => Reconciles(b, byOp, op, outcome, room)
    case _ => false
  }

  ghost predicate QueueEnabled(s: State, e: Event) {
    var b, q := s.books, s.queue;
    match e
    case TaskAdmit(task, r, l, room) =>
      && room && Admissible(b, r, l.token)
      && task !in q.links && r.op !in q.byOp
      && l.op == r.op && l.cost == r.cost && l.fingerprint == r.fingerprint
      && l.approval == (if r.grant.Some? then Some(r.scope) else None)
    case Move(task, target) => task in q.lives && Legal(q.lives[task].state, target)
    case Begin(w, task) => w !in q.workers && task in q.links && task !in q.decisions
    case Reject(w, room) =>
      && room && w in q.workers && q.workers[w].Loading?
      && Dispatchable(b, q, q.workers[w].task)
      && q.links[q.workers[w].task].resultLimit < ENVELOPE_LIMIT
    case TakeFence(w, attempt) =>
      && w in q.workers && q.workers[w].Loading? && q.workers[w].task in q.links
      && q.links[q.workers[w].task].resultLimit >= ENVELOPE_LIMIT
      && Fencing.Bounded(q.links[q.workers[w].task].scope) && Fencing.Bounded(attempt) && 1 <= FenceSeconds(s.timeout) <= 3600
      && Free(s.site.fences, q.links[q.workers[w].task].scope, b.now)
    case ReadExpiry(w) =>
      && w in q.workers && q.workers[w].Fenced? && q.workers[w].task in q.links
      && q.links[q.workers[w].task].scope in s.site.fences
    case CommitAttempt(w, authority, rollback) =>
      && w in q.workers && q.workers[w].Bounded?
      && Attempts(b, q, q.workers[w].task, q.workers[w].fenceExpiry, authority, s.timeout)
    case Send(w) => w in q.workers && q.workers[w].Holding?
    case Deliver(a, lag) => a in q.sent && Accepts(s.site.fences, s.site.effects, q.signed, s.timeout, a, a.action, b.now, lag)
    case Recover(w, task) => w !in q.workers && task in q.links
    case Observe(w) =>
      && w in q.workers && q.workers[w].Recovering?
      && var task := q.workers[w].task;
         && task in q.links && task in q.decisions && q.decisions[task].Attempt? && task !in q.results
         && var a := q.decisions[task].authorization;
            && Authentic(a, q.signed, s.timeout, q.links[task].action)
            && a.op in s.site.effects && Attests(s.site.effects[a.op], a, q.links[task].action)
    case FinishVerified(seal, trusted, room) => trusted && room && Finishable(b, q, seal)
    case Cancel(task, reason, room) => Cancels(b, q, task, reason, room)
    case Crash(w) => w in q.workers
    case _ => false
  }

  // ----- what an event does -----

  ghost function GatewayBooks(b: Tables, g: Gateway, e: Event): Tables
    requires exists byOp :: GatewayEnabled(b, g, byOp, e)
  {
    match e
    case CallAdmit(w, r, token) => Admit(b, r, token)
    case CallAbort(w, _) => Abort(b, g.calls[w].op, g.calls[w].token)
    case CallSettle(w, _) => Settle(b, g.calls[w].op, g.calls[w].token, Succeeded)
    case Reconcile(op, outcome, _) => Settle(b, op, b.reservations[op], outcome)
    case _ => b
  }

  ghost function GatewayNext(b: Tables, g: Gateway, e: Event): Gateway
    requires exists byOp :: GatewayEnabled(b, g, byOp, e)
  {
    match e
    case CallAdmit(w, r, token) => g.(calls := g.calls[w := Call(Held, r.op, token, r.cost)])
    case CallCancel(w) =>
      g.(calls := g.calls[w := g.calls[w].(phase := Aborting)], canceled := g.canceled + {g.calls[w].op})
    case CallAbort(w, _) => g.(calls := g.calls - {w})
    case CallInvoke(w) =>
      g.(calls := g.calls[w := g.calls[w].(phase := Invoking)], invoked := g.invoked + {g.calls[w].op})
    case CallReturn(w) =>
      g.(calls := g.calls[w := g.calls[w].(phase := Returned)], returned := g.returned + {g.calls[w].op})
    case CallRaise(w) => g.(calls := g.calls - {w})
    case CallSettle(w, _) => g.(calls := g.calls - {w})
    case CallCrash(w) => g.(calls := g.calls - {w})
    case Reconcile(op, outcome, _) => g.(reviewed := g.reviewed[op := outcome])
    case _ => g
  }

  ghost function QueueBooks(s: State, e: Event): Tables
    requires QueueEnabled(s, e)
  {
    var b, q := s.books, s.queue;
    match e
    case TaskAdmit(task, r, l, _) => Admit(b, r, l.token)
    case Reject(w, _) => var l := q.links[q.workers[w].task]; Settle(b, l.op, l.token, Failed)
    case FinishVerified(seal, _, _) => var l := q.links[seal.task]; Settle(b, l.op, l.token, Succeeded)
    case Cancel(task, _, _) => CancelBooks(b, q, task)
    case Deliver(a, lag) => b.(now := b.now + lag)
    case _ => b
  }

  ghost function QueueNext(s: State, e: Event): Queue
    requires QueueEnabled(s, e)
  {
    var b, q := s.books, s.queue;
    match e
    case TaskAdmit(task, r, l, _) =>
      q.(links := q.links[task := l], byOp := q.byOp[l.op := task], lives := q.lives[task := Life(Working, 1)])
    case Move(task, target) => q.(lives := q.lives[task := Life(target, q.lives[task].sequence + 1)])
    case Begin(w, task) => q.(workers := q.workers[w := Loading(task)])
    case Reject(w, _) =>
      CloseQueue(q.(workers := q.workers - {w}), q.workers[w].task, SHORT_ALLOWANCE, Rejected)
    case TakeFence(w, attempt) =>
      var task := q.workers[w].task;
      q.(workers := q.workers[w := Fenced(task, attempt, NextEpoch(s.site.fences, q.links[task].scope))])
    case ReadExpiry(w) =>
      var f := q.workers[w];
      q.(workers := q.workers[w := Bounded(f.task, f.attempt, f.epoch, s.site.fences[q.links[f.task].scope].expires)])
    case CommitAttempt(w, authority, rollback) =>
      var f := q.workers[w];
      var a := Mandate(q.links[f.task], f.task, f.attempt, f.epoch, b.now, Deadline(authority, f.fenceExpiry, b.now, s.timeout));
      if rollback then q.(signed := q.signed + {a}, workers := q.workers - {w}) else AttemptQueue(q, w, a)
    case Send(w) =>
      var h := q.workers[w];
      q.(sent := q.sent + {h.authorization}, workers := q.workers[w := Recovering(h.task)])
    case Deliver(a, lag) => q
    case Recover(w, task) => q.(workers := q.workers[w := Recovering(task)])
    case Observe(w) =>
      var task := q.workers[w].task;
      var d := q.decisions[task];
      q.(seals := q.seals + {Readback(task, d, s.site.effects[d.authorization.op], b.now.Floor)}, workers := q.workers - {w})
    case FinishVerified(seal, _, _) => FinishQueue(q, seal)
    case Cancel(task, reason, _) => CancelQueue(q, task, reason)
    case Crash(w) => q.(workers := q.workers - {w})
    case _ => q
  }

  ghost function QueueSite(s: State, e: Event): Site
    requires QueueEnabled(s, e)
  {
    match e
    case TakeFence(w, attempt) =>
      var scope := s.queue.links[s.queue.workers[w].task].scope;
      s.site.(fences := Acquired(s.site.fences, scope, attempt, s.books.now + FenceSeconds(s.timeout) as real))
    case Deliver(a, lag) => s.site.(effects := Committed(s.site.effects, a, a.action, s.books.now))
    case _ => s.site
  }

  /** The parts of the store that neither calls nor tasks drive: clock, policy and approvals. */
  function Outside(b: Tables, e: Event): Tables {
    match e
    case Tick(elapsed) => if elapsed >= 0.0 then b.(now := b.now + elapsed) else b
    case SetPolicy(limits) => if ValidLimits(limits) then b.(limits := limits) else b
    case AskApproval(id, agent, scope) =>
      if id in b.approvals then b else b.(approvals := b.approvals[id := Approval(agent, scope, Pending)])
    case Decide(id, allow) =>
      if id in b.approvals && b.approvals[id].status == Pending
      then b.(approvals := b.approvals[id := b.approvals[id].(status := if allow then Approved else Refused)]) else b
    case _ => b
  }

  /** An event whose checks fail is a rolled-back transaction: it changes nothing. */
  ghost function Apply(s: State, e: Event): State {
    if GatewayEnabled(s.books, s.gateway, s.queue.byOp, e) then
      s.(books := GatewayBooks(s.books, s.gateway, e), gateway := GatewayNext(s.books, s.gateway, e))
    else if QueueEnabled(s, e) then
      s.(books := QueueBooks(s, e), queue := QueueNext(s, e), site := QueueSite(s, e))
    else
      s.(books := Outside(s.books, e))
  }

  ghost function Run(s: State, events: seq<Event>): State {
    if |events| == 0 then s
    else Apply(Run(s, events[..|events| - 1]), events[|events| - 1])
  }

  ghost function Start(now: real, limits: Limits, defaults: B.Budget, timeout: real): State {
    State(Tables(now, map[], map[], map[], map[], map[], limits, defaults, [], map[]),
          Gateway(map[], {}, {}, {}, map[]),
          Queue(map[], map[], map[], map[], map[], map[], map[], {}, {}, {}),
          Site(map[], map[]), timeout)
  }
}
