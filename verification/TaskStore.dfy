/**
 The task tables of the same tenant store, what its dispatch workers remember, and the
 destination they write to, updated in place. Each step of a worker, a reviewer or a
 canceling caller is a method, and each leaves exactly the state the kernel's step leaves.
 */
module TaskStore {
  import opened Ledger
  import opened Wrappers
  import opened QueuedDestination
  import K = Kernel
  import S = TenantStore

  // ----- the kernel's step, event by event -----

  /** No call or reviewer is involved. */
  predicate OfTask(e: K.Event) {
    e.TaskAdmit? || e.Move? || e.Begin? || e.Reject? || e.TakeFence? || e.ReadExpiry? || e.CommitAttempt? || e.Send?
    || e.Deliver? || e.Recover? || e.Observe? || e.FinishVerified? || e.Cancel?
  }

  lemma TaskStep(s: K.State, e: K.Event)
    requires OfTask(e)
    ensures K.Apply(s, e) ==
            if K.QueueEnabled(s, e) then s.(books := K.QueueBooks(s, e), queue := K.QueueNext(s, e), site := K.QueueSite(s, e)) else s
  {
  }

  /** Only the worker's own memory changes. */
  lemma WorkerStep(s: K.State, e: K.Event)
    requires e.Begin? || e.ReadExpiry? || e.Send? || e.Recover? || e.Observe? || e.CommitAttempt? || e.Move?
    ensures K.Apply(s, e) == if K.QueueEnabled(s, e) then s.(queue := K.QueueNext(s, e)) else s
  {
    TaskStep(s, e);
  }

  /** The link that an admission inserts. */
  function LinkOf(r: Request, token: string, digest: string, action: string, resultLimit: int, approved: bool, scope: string): K.Link {
    K.Link(r.op, token, r.cost, r.fingerprint, digest, action, resultLimit, if approved then Some(r.scope) else None, scope)
  }

  function LinkQueue(q: K.Queue, task: Task, l: K.Link): K.Queue {
    q.(links := q.links[task := l], byOp := q.byOp[l.op := task], lives := q.lives[task := K.Life(K.Working, 1)])
  }

  lemma AdmitStep(s: K.State, task: Task, r: Request, token: string, digest: string, action: string, resultLimit: int, scope: string, room: bool)
    ensures var l := LinkOf(r, token, digest, action, resultLimit, r.grant.Some?, scope);
      K.Apply(s, K.TaskAdmit(task, r, l, room)) ==
      if room && Admissible(s.books, r, token) && task !in s.queue.links && r.op !in s.queue.byOp
      then s.(books := Admit(s.books, r, token), queue := LinkQueue(s.queue, task, l)) else s
  {
    TaskStep(s, K.TaskAdmit(task, r, LinkOf(r, token, digest, action, resultLimit, r.grant.Some?, scope), room));
  }

  lemma RejectStep(s: K.State, w: int, room: bool)
    requires w in s.queue.workers && s.queue.workers[w].Loading?
    ensures var task := s.queue.workers[w].task;
      K.Apply(s, K.Reject(w, room)) ==
      if room && K.Dispatchable(s.books, s.queue, task) && s.queue.links[task].resultLimit < ENVELOPE_LIMIT
      then s.(books := Settle(s.books, s.queue.links[task].op, s.queue.links[task].token, Failed),
              queue := K.CloseQueue(s.queue, task, K.SHORT_ALLOWANCE, K.Rejected).(workers := s.queue.workers - {w}))
      else s
  {
    TaskStep(s, K.Reject(w, room));
  }

  /** What the worker asks the authorizer to sign. */
  function Asked(b: Tables, q: K.Queue, f: K.Worker, authority: real, timeout: real): Authorization
    requires f.Bounded? && f.task in q.links
  {
    K.Mandate(q.links[f.task], f.task, f.attempt, f.epoch, b.now, K.Deadline(authority, f.fenceExpiry, b.now, timeout))
  }

  /** A rolled-back attempt leaves its signature behind and nothing else. */
  function SignedOnly(q: K.Queue, w: int, a: Authorization): K.Queue {
    q.(signed := q.signed + {a}, workers := q.workers - {w})
  }

  lemma AttemptStep(s: K.State, w: int, authority: real, rollback: bool)
    requires w in s.queue.workers && s.queue.workers[w].Bounded?
    ensures var f := s.queue.workers[w];
      K.Apply(s, K.CommitAttempt(w, authority, rollback)) ==
      if !K.Attempts(s.books, s.queue, f.task, f.fenceExpiry, authority, s.timeout) then s
      else if rollback then s.(queue := SignedOnly(s.queue, w, Asked(s.books, s.queue, f, authority, s.timeout)))
      else s.(queue := K.AttemptQueue(s.queue, w, Asked(s.books, s.queue, f, authority, s.timeout)))
  {
    WorkerStep(s, K.CommitAttempt(w, authority, rollback));
  }

  predicate Observable(q: K.Queue, w: int) {
    && w in q.workers && q.workers[w].Recovering?
    && var task := q.workers[w].task;
       task in q.links && task in q.decisions && q.decisions[task].Attempt? && task !in q.results
  }

  predicate Observed(q: K.Queue, site: K.Site, w: int, timeout: real)
    requires Observable(q, w)
  {
    var task := q.workers[w].task;
    var a := q.decisions[task].authorization;
    Authentic(a, q.signed, timeout, q.links[task].action) && a.op in site.effects && Attests(site.effects[a.op], a, q.links[task].action)
  }

  function SealQueue(q: K.Queue, w: int, effect: QueuedEffect, now: real): K.Queue
    requires Observable(q, w)
  {
    var task := q.workers[w].task;
    q.(seals := q.seals + {K.Readback(task, q.decisions[task], effect, now.Floor)}, workers := q.workers - {w})
  }

  lemma ObserveStep(s: K.State, w: int)
    ensures K.Apply(s, K.Observe(w)) ==
      if Observable(s.queue, w) && Observed(s.queue, s.site, w, s.timeout)
      then s.(queue := SealQueue(s.queue, w, s.site.effects[s.queue.decisions[s.queue.workers[w].task].authorization.op], s.books.now))
      else s
  {
    WorkerStep(s, K.Observe(w));
  }

  lemma FinishStep(s: K.State, seal: K.Readback, trusted: bool, room: bool)
    ensures K.Apply(s, K.FinishVerified(seal, trusted, room)) ==
      if trusted && room && K.Finishable(s.books, s.queue, seal)
      then s.(books := Settle(s.books, s.queue.links[seal.task].op, s.queue.links[seal.task].token, Succeeded),
              queue := K.FinishQueue(s.queue, seal))
      else s
  {
    TaskStep(s, K.FinishVerified(seal, trusted, room));
  }

  lemma CancelStep(s: K.State, task: Task, reason: string, room: bool)
    ensures K.Apply(s, K.Cancel(task, reason, room)) ==
      if K.Cancels(s.books, s.queue, task, reason, room)
      then s.(books := K.CancelBooks(s.books, s.queue, task), queue := K.CancelQueue(s.queue, task, reason))
      else s
  {
    TaskStep(s, K.Cancel(task, reason, room));
  }

  lemma ReconcileStep(s: K.State, o: OpKey, outcome: Outcome, room: bool)
    ensures K.Apply(s, K.Reconcile(o, outcome, room)) ==
      if K.Reconciles(s.books, s.queue.byOp, o, outcome, room)
      then s.(books := Settle(s.books, o, s.books.reservations[o], outcome), gateway := s.gateway.(reviewed := s.gateway.reviewed[o := outcome]))
      else s
  {
  }

  class Tasks {
    const store: S.Store
    const target: FencedSqliteTarget
    const timeout: real
    var links: map<Task, K.Link>
    var byOp: map<OpKey, Task>
    var lives: map<Task, K.Life>
    var decisions: map<Task, K.Decision>
    var results: map<Task, K.Result>
    var cancels: map<Task, string>
    var workers: map<int, K.Worker>
    /** Every value the authorizer has signed, and every one handed to the destination. */
    var signed: set<Authorization>
    var sent: set<Authorization>
    var seals: set<K.Readback>

    constructor (store: S.Store, target: FencedSqliteTarget)
      ensures this.store == store && this.target == target && timeout == target.timeout
      ensures Rows() == K.Queue(map[], map[], map[], map[], map[], map[], map[], {}, {}, {})
    {
      this.store, this.target, timeout := store, target, target.timeout;
      links, byOp, lives, decisions, results, cancels, workers := map[], map[], map[], map[], map[], map[], map[];
      signed, sent, seals := {}, {}, {};
    }

    function Rows(): K.Queue
      reads this
    {
      K.Queue(links, byOp, lives, decisions, results, cancels, workers, signed, sent, seals)
    }

    /** The objects hold this state of the kernel; the synchronous calls in flight are not theirs. */
    ghost predicate At(s: K.State)
      reads this, store, target
    {
      && s.books == store.Books() && s.queue == Rows() && s.site == K.Site(target.fences, target.effects)
      && s.timeout == timeout == target.timeout
    }

    // ----- the tables of one transaction -----

    /** A task that has not ended takes the terminal state; one that has is left alone. */
    method End(task: Task, target: K.LifeState) returns (ok: bool)
      requires task in lives
      modifies this`lives
      ensures ok <==> old(K.CanEnd(lives[task], target))
      ensures lives == old(if K.CanEnd(lives[task], target) then lives[task := K.Ended(lives[task], target)] else lives)
    {
      var current := lives[task];
      if K.Terminal(current.state) {
        lives := lives[task := current];
        return true;
      }
      if !K.Legal(current.state, target) { return false; }
      lives := lives[task := K.Life(target, current.sequence + 1)];
      return true;
    }

    /** Charge or release the task's own reservation and end the task; all or nothing. */
    method SettleAndEnd(task: Task, outcome: Outcome, target: K.LifeState, room: bool) returns (ok: bool)
      requires task in links && task in lives && outcome != Unknown
      modifies this`lives, store
      ensures ok <==> room && old(Settleable(store.Books(), links[task].op, links[task].token, Some(links[task].cost)) && K.CanEnd(lives[task], target))
      ensures ok ==> store.Books() == old(Settle(store.Books(), links[task].op, links[task].token, outcome))
                     && lives == old(lives[task := K.Ended(lives[task], target)])
      ensures !ok ==> store.Books() == old(store.Books()) && lives == old(lives)
    {
      var books, ends := store.Books(), lives;
      ok := store.SettleOwned(links[task].op, links[task].token, outcome, Some(links[task].cost));
      if !ok { return; }
      ok := End(task, target);
      if !ok || !room {
        store.Restore(books);
        lives := ends;
        return false;
      }
    }

    /** The no-effect decision: insert it, release the reservation, end the task; a failure undoes what was done before it. */
    method Close(task: Task, reason: string, target: K.LifeState, room: bool) returns (ok: bool)
      modifies this`decisions, this`lives, store
      ensures ok <==> room && old(K.Closable(store.Books(), Rows(), task, target))
      ensures ok ==> store.Books() == old(Settle(store.Books(), links[task].op, links[task].token, Failed))
                     && Rows() == old(K.CloseQueue(Rows(), task, reason, target))
      ensures !ok ==> store.Books() == old(store.Books()) && Rows() == old(Rows())
    {
      if task !in links || task !in lives || task in decisions { return false; }
      var before := decisions;
      decisions := decisions[task := K.Closed(reason)];
      ok := SettleAndEnd(task, Failed, target, room);
      if !ok { decisions := before; }
    }

    /** The consumed approval that an approved admission must have left behind. */
    method FindSpent(agent: string, scope: string) returns (found: bool)
      ensures found <==> K.ApprovalSpent(store.Books(), agent, scope)
    {
      var rest := store.approvals.Keys;
      while rest != {}
        invariant rest <= store.approvals.Keys
        invariant forall i :: i in store.approvals && i !in rest ==> store.approvals[i] != Approval(agent, scope, Consumed)
        decreases |rest|
      {
        var i :| i in rest;
        if store.approvals[i] == Approval(agent, scope, Consumed) { return true; }
        rest := rest - {i};
      }
      return false;
    }

    /** The first-dispatch loader: an untouched task, its held reservation and its spent approval. */
    method LoadAdmitted(task: Task) returns (ok: bool)
      ensures ok <==> K.Dispatchable(store.Books(), Rows(), task)
    {
      if task !in links || task !in lives || task in decisions { return false; }
      if lives[task] != K.Life(K.Working, 1) { return false; }
      var l := links[task];
      if l.op !in store.operations || store.operations[l.op].state != Unknown { return false; }
      if l.op !in store.reservations || store.reservations[l.op] != l.token { return false; }
      if l.op.agent !in store.budgets || l.token !in store.budgets[l.op.agent].reserved { return false; }
      var amount := store.budgets[l.op.agent].reserved[l.token];
      if amount < 0.0 || amount != l.cost { return false; }
      if l.approval.None? { return true; }
      ok := FindSpent(l.op.agent, l.approval.value);
    }

    // ----- admission -----

    /** The common admission, then the link, unique per task and per operation, then the audit row; without either nothing is admitted. */
    method AdmitAndLink(task: Task, r: Request, approved: bool, token: string, listed: seq<string>,
                        digest: string, action: string, resultLimit: int, scope: string, room: bool) returns (admitted: Option<Request>)
      requires r.grant.None? && S.Lists(listed, store.approvals)
      modifies this`links, this`byOp, this`lives, store
      ensures admitted.Some? ==>
        && admitted.value == r.(grant := admitted.value.grant) && admitted.value.grant.Some? == approved
        && room && old(Admissible(store.Books(), admitted.value, token) && task !in links && r.op !in byOp)
        && store.Books() == Admit(old(store.Books()), admitted.value, token)
        && Rows() == LinkQueue(old(Rows()), task, LinkOf(r, token, digest, action, resultLimit, approved, scope))
      ensures admitted.None? ==>
        && store.Books() == old(store.Books()) && Rows() == old(Rows())
        && (!room || task in links || r.op in byOp || forall g: Option<string> :: g.Some? == approved ==> !Admissible(store.Books(), r.(grant := g), token))
    {
      var books := store.Books();
      admitted := store.AdmitTransaction(r, approved, token, listed);
      if admitted.None? { return; }
      if task in links || r.op in byOp {
        store.Restore(books);
        return None;
      }
      var ends, rows, index := lives, links, byOp;
      lives := lives[task := K.Life(K.Working, 1)];
      links := links[task := LinkOf(r, token, digest, action, resultLimit, approved, scope)];
      byOp := byOp[r.op := task];
      if !room {
        store.Restore(books);
        lives, links, byOp := ends, rows, index;
        return None;
      }
    }

    /** Whichever request is admitted, it is the kernel's admission of it; if none is, the kernel would admit none either. */
    method AdmitTask(task: Task, r: Request, approved: bool, token: string, listed: seq<string>,
                     digest: string, action: string, resultLimit: int, scope: string, room: bool, ghost s: K.State)
      returns (admitted: Option<Request>)
      requires At(s) && r.grant.None? && S.Lists(listed, store.approvals)
      modifies this`links, this`byOp, this`lives, store
      ensures var l := LinkOf(r, token, digest, action, resultLimit, approved, scope);
        if admitted.Some? then admitted.value == r.(grant := admitted.value.grant) && admitted.value.grant.Some? == approved
                               && At(K.Apply(s, K.TaskAdmit(task, admitted.value, l, room)))
        else forall g: Option<string> :: g.Some? == approved ==> At(K.Apply(s, K.TaskAdmit(task, r.(grant := g), l, room)))
    {
      admitted := AdmitAndLink(task, r, approved, token, listed, digest, action, resultLimit, scope, room);
      if admitted.Some? {
        AdmitStep(s, task, admitted.value, token, digest, action, resultLimit, scope, room);
      } else {
        forall g: Option<string> | g.Some? == approved
          ensures K.Apply(s, K.TaskAdmit(task, r.(grant := g), LinkOf(r, token, digest, action, resultLimit, approved, scope), room)) == s
        {
          AdmitStep(s, task, r.(grant := g), token, digest, action, resultLimit, scope, room);
        }
      }
    }

    // ----- first dispatch -----

    method Begin(w: int, task: Task, ghost s: K.State)
      requires At(s)
      modifies this`workers
      ensures At(K.Apply(s, K.Begin(w, task)))
    {
      WorkerStep(s, K.Begin(w, task));
      if w in workers || task !in links || task in decisions { return; }
      workers := workers[w := K.Loading(task)];
    }

    /** A result allowance that cannot hold the evidence closes the task instead of dispatching it. */
    method CloseShort(task: Task, room: bool) returns (ok: bool)
      modifies this`decisions, this`lives, store
      ensures ok <==> room && old(K.Dispatchable(store.Books(), Rows(), task) && links[task].resultLimit < ENVELOPE_LIMIT)
      ensures ok ==> store.Books() == old(Settle(store.Books(), links[task].op, links[task].token, Failed))
                     && Rows() == old(K.CloseQueue(Rows(), task, K.SHORT_ALLOWANCE, K.Rejected))
      ensures !ok ==> store.Books() == old(store.Books()) && Rows() == old(Rows())
    {
      ok := LoadAdmitted(task);
      if !ok || links[task].resultLimit >= ENVELOPE_LIMIT { return false; }
      ok := Close(task, K.SHORT_ALLOWANCE, K.Rejected, room);
    }

    method Reject(w: int, room: bool, ghost s: K.State)
      requires At(s) && w in workers && workers[w].Loading?
      modifies this`workers, this`decisions, this`lives, store
      ensures At(K.Apply(s, K.Reject(w, room)))
    {
      RejectStep(s, w, room);
      var closed := CloseShort(workers[w].task, room);
      if closed { workers := workers - {w}; }
    }

    method TakeFence(w: int, attempt: string, ghost s: K.State)
      requires At(s)
      modifies this`workers, target
      ensures At(K.Apply(s, K.TakeFence(w, attempt)))
    {
      TaskStep(s, K.TakeFence(w, attempt));
      if w !in workers || !workers[w].Loading? || workers[w].task !in links { return; }
      var task := workers[w].task;
      if links[task].resultLimit < ENVELOPE_LIMIT { return; }
      var answer := target.Acquire(links[task].scope, attempt, K.FenceSeconds(timeout), store.now);
      if answer.Granted? { workers := workers[w := K.Fenced(task, attempt, answer.epoch)]; }
    }

    /** The expiry is read again after the grant, so another worker's row may be there by then. */
    method ReadExpiry(w: int, ghost s: K.State)
      requires At(s)
      modifies this`workers
      ensures At(K.Apply(s, K.ReadExpiry(w)))
    {
      WorkerStep(s, K.ReadExpiry(w));
      if w !in workers || !workers[w].Fenced? || workers[w].task !in links { return; }
      var f := workers[w];
      var scope := links[f.task].scope;
      if scope !in target.fences { return; }
      workers := workers[w := K.Bounded(f.task, f.attempt, f.epoch, target.fences[scope].expires)];
    }

    /** The earliest of the three deadlines. */
    method EarliestDeadline(authority: real, fenceExpiry: real) returns (deadline: real)
      ensures deadline == K.Deadline(authority, fenceExpiry, store.now, timeout)
      ensures deadline <= authority && deadline <= fenceExpiry && deadline <= store.now + timeout
    {
      deadline := authority;
      if fenceExpiry < deadline { deadline := fenceExpiry; }
      if store.now + timeout < deadline { deadline := store.now + timeout; }
    }

    /** Sign and insert; a failure of the last checks undoes the insert, but what was signed stays signed. */
    method SignAttempt(w: int, authority: real, rollback: bool)
      requires w in workers && workers[w].Bounded?
      modifies this`decisions, this`signed, this`workers
      ensures var f := old(workers[w]);
        Rows() == old(if !K.Attempts(store.Books(), Rows(), f.task, f.fenceExpiry, authority, timeout) then Rows()
                      else if rollback then SignedOnly(Rows(), w, Asked(store.Books(), Rows(), f, authority, timeout))
                      else K.AttemptQueue(Rows(), w, Asked(store.Books(), Rows(), f, authority, timeout)))
    {
      var f := workers[w];
      var loaded := LoadAdmitted(f.task);
      if !loaded { return; }
      var deadline := EarliestDeadline(authority, f.fenceExpiry);
      if store.now >= deadline { return; }
      var l, before := links[f.task], decisions;
      var a := Authorization(f.task, l.op, l.digest, l.fingerprint, l.action, l.resultLimit, f.attempt, l.scope, f.epoch, store.now, deadline);
      signed := signed + {a};
      decisions := decisions[f.task := K.Attempt(a)];
      if rollback {
        decisions, workers := before, workers - {w};
      } else {
        workers := workers[w := K.Holding(f.task, a)];
      }
    }

    /** The one attempt of the task, if everything still holds under the locks. */
    method CommitAttempt(w: int, authority: real, rollback: bool, ghost s: K.State)
      requires At(s) && w in workers && workers[w].Bounded?
      modifies this`decisions, this`signed, this`workers
      ensures At(K.Apply(s, K.CommitAttempt(w, authority, rollback)))
    {
      AttemptStep(s, w, authority, rollback);
      SignAttempt(w, authority, rollback);
    }

    /** The worker that committed the attempt hands it over once, and from then on can only look. */
    method Send(w: int, ghost s: K.State)
      requires At(s)
      modifies this`sent, this`workers
      ensures At(K.Apply(s, K.Send(w)))
    {
      WorkerStep(s, K.Send(w));
      if w !in workers || !workers[w].Holding? { return; }
      var h := workers[w];
      sent := sent + {h.authorization};
      workers := workers[w := K.Recovering(h.task)];
    }

    /** The destination's write of what was handed over; the clock is `lag` further when it answers. */
    method Deliver(a: Authorization, lag: real, ghost s: K.State)
      requires At(s) && a in sent && lag >= 0.0
      modifies target, store`now
      ensures At(K.Apply(s, K.Deliver(a, lag)))
    {
      TaskStep(s, K.Deliver(a, lag));
      var answer := target.CommitQueued(a, a.action, signed, store.now, lag);
      if answer.Done? { store.now := store.now + lag; }
    }

    // ----- recovery -----

    method Recover(w: int, task: Task, ghost s: K.State)
      requires At(s)
      modifies this`workers
      ensures At(K.Apply(s, K.Recover(w, task)))
    {
      WorkerStep(s, K.Recover(w, task));
      if w in workers || task !in links { return; }
      workers := workers[w := K.Recovering(task)];
    }

    /** Ask the read-only observer for the recorded attempt, and seal what it reports. */
    method SealObservation(w: int)
      requires timeout == target.timeout
      modifies this`seals, this`workers
      ensures Rows() == old(if Observable(Rows(), w) && Observed(Rows(), K.Site(target.fences, target.effects), w, timeout)
                            then SealQueue(Rows(), w, target.effects[decisions[workers[w].task].authorization.op], store.now) else Rows())
    {
      if w !in workers || !workers[w].Recovering? { return; }
      var task := workers[w].task;
      if task !in links || task !in decisions || !decisions[task].Attempt? || task in results { return; }
      var found := target.Observe(decisions[task].authorization, links[task].action, signed);
      if found.None? { return; }
      seals := seals + {K.Readback(task, decisions[task], found.value, store.now.Floor)};
      workers := workers - {w};
    }

    method Observe(w: int, ghost s: K.State)
      requires At(s)
      modifies this`seals, this`workers
      ensures At(K.Apply(s, K.Observe(w)))
    {
      ObserveStep(s, w);
      SealObservation(w);
    }

    /** The checks of the sealed readback against the recorded attempt, before anything is written. */
    method Verify(seal: K.Readback) returns (ok: bool)
      ensures ok && seal.task in links && seal.task in lives
              && Settleable(store.Books(), links[seal.task].op, links[seal.task].token, Some(links[seal.task].cost)) && K.CanEnd(lives[seal.task], K.Completed)
              <==> K.Finishable(store.Books(), Rows(), seal)
      ensures ok ==> seal.task in links && seal.task in lives
    {
      var task := seal.task;
      if seal !in seals { return false; }
      if task !in decisions || decisions[task] != seal.decision || !seal.decision.Attempt? { return false; }
      if task !in links || task !in lives || task in results { return false; }
      var now := store.now.Floor;
      if !Attests(seal.evidence, seal.decision.authorization, links[task].action) { return false; }
      return now - 300 <= seal.observed <= now + 30 && seal.evidence.committed <= seal.observed as real + 30.0;
    }

    /** The result row, the charge and the completed task; a failure undoes what was done before it. */
    method StoreResult(seal: K.Readback, room: bool) returns (ok: bool)
      modifies this`results, this`lives, store
      ensures ok <==> room && old(K.Finishable(store.Books(), Rows(), seal))
      ensures ok ==> store.Books() == old(Settle(store.Books(), links[seal.task].op, links[seal.task].token, Succeeded))
                     && Rows() == old(K.FinishQueue(Rows(), seal))
      ensures !ok ==> store.Books() == old(store.Books()) && Rows() == old(Rows())
    {
      ok := Verify(seal);
      if !ok { return; }
      var before := results;
      results := results[seal.task := K.Result(seal.decision, seal.evidence)];
      ok := SettleAndEnd(seal.task, Succeeded, K.Completed, room);
      if !ok { results := before; }
    }

    method FinishVerified(seal: K.Readback, trusted: bool, room: bool, ghost s: K.State) returns (ok: bool)
      requires At(s)
      modifies this`results, this`lives, store
      ensures At(K.Apply(s, K.FinishVerified(seal, trusted, room)))
      ensures ok <==> trusted && room && K.Finishable(s.books, s.queue, seal)
    {
      FinishStep(s, seal, trusted, room);
      if !trusted { return false; }
      ok := StoreResult(seal, room);
    }

    // ----- cancellation and review -----

    /** Before an attempt a cancellation closes the task; after one it is only noted, once. */
    method CancelTask(task: Task, reason: string, room: bool, ghost s: K.State)
      requires At(s)
      modifies this`decisions, this`lives, this`cancels, store
      ensures At(K.Apply(s, K.Cancel(task, reason, room)))
    {
      CancelStep(s, task, reason, room);
      if !K.IsReason(reason) { return; }
      if task !in links || task !in lives || task in results { return; }
      if task in decisions && decisions[task].Closed? { return; }
      var o := links[task].op;
      if o !in store.operations || store.operations[o].state != Unknown { return; }
      if task !in decisions {
        var closed := Close(task, reason, K.Canceled, room);
      } else if task !in cancels && room {
        cancels := cancels[task := reason];
      }
    }

    /** A reviewer settles an unresolved operation, unless a task owns it. */
    method SettleReviewed(o: OpKey, outcome: Outcome, room: bool) returns (ok: bool)
      modifies store
      ensures ok <==> old(K.Reconciles(store.Books(), byOp, o, outcome, room))
      ensures store.Books() == if ok then old(Settle(store.Books(), o, store.reservations[o], outcome)) else old(store.Books())
    {
      if o in byOp || o !in store.reservations { return false; }
      var books := store.Books();
      ok := store.SettleOwned(o, store.reservations[o], outcome, None);
      if ok && !room {
        store.Restore(books);
        return false;
      }
    }

    method Reconcile(o: OpKey, outcome: Outcome, room: bool, ghost s: K.State) returns (ok: bool)
      requires At(s)
      modifies store
      ensures At(K.Apply(s, K.Reconcile(o, outcome, room)))
      ensures ok <==> K.Reconciles(s.books, s.queue.byOp, o, outcome, room)
    {
      ReconcileStep(s, o, outcome, room);
      ok := SettleReviewed(o, outcome, room);
    }
  }
}
