/**
 The queued-only destination: one signed authorization, one effect. The fence row,
 the authorization window and the effect table are checked and written under one
 write lock; a separate read-only observer later reports the committed row.
 */
module QueuedDestination {
  import opened Fencing
  import opened Ledger
  import opened Wrappers

  /** A task of one owner: the key of every queued table. */
  datatype Task = Task(owner: string, id: string)

  /** Everything the authorizer signs. A signature is modelled by membership in the set of signed values. */
  datatype Authorization = Authorization(
    task: Task,
    op: OpKey,
    link: string,
    fingerprint: string,
    action: string,
    resultLimit: int,
    attempt: string,
    scope: string,
    epoch: int,
    issued: real,
    expires: real)

  /** A committed effect row together with its signed receipt. */
  datatype QueuedEffect = QueuedEffect(authorization: Authorization, action: string, committed: real)

  /** Bytes that the result, receipt, readback and authorization may take together. */
  const ENVELOPE_LIMIT: int := 65536
  const MAX_RESULT_LIMIT: int := 1048576
  const MAX_EPOCH: int := 9223372036854775807

  /** The historical check: shape, window and signature, but no current time. */
  predicate Authentic(a: Authorization, signed: set<Authorization>, timeout: real, action: string) {
    && a in signed
    && a.action == action
    && 1 <= a.epoch <= MAX_EPOCH
    && 1 <= a.resultLimit <= MAX_RESULT_LIMIT
    && a.issued < a.expires <= a.issued + timeout
  }

  predicate InWindow(a: Authorization, now: real) {
    a.issued <= now < a.expires
  }

  /** The fence row still belongs to this attempt and outlives the authorization. */
  predicate FenceAdmits(f: Fences, a: Authorization, now: real) {
    Holds(f, a.scope, a.attempt, a.epoch, now) && a.expires <= f[a.scope].expires
  }

  ghost predicate AttemptUsed(effects: map<OpKey, QueuedEffect>, attempt: string) {
    exists o :: o in effects && effects[o].authorization.attempt == attempt
  }

  /**
   The destination's decision. The clock is read when the lock is held and again after
   the receipt has been signed, `lag` later; both readings must pass.
   */
  ghost predicate Accepts(f: Fences, effects: map<OpKey, QueuedEffect>, signed: set<Authorization>, timeout: real,
                          a: Authorization, action: string, now: real, lag: real) {
    && lag >= 0.0
    && Authentic(a, signed, timeout, action)
    && InWindow(a, now) && FenceAdmits(f, a, now)
    && a.resultLimit >= ENVELOPE_LIMIT
    && a.op !in effects && !AttemptUsed(effects, a.attempt)
    && InWindow(a, now + lag) && FenceAdmits(f, a, now + lag)
  }

  function Committed(effects: map<OpKey, QueuedEffect>, a: Authorization, action: string, now: real): map<OpKey, QueuedEffect> {
    effects[a.op := QueuedEffect(a, action, now)]
  }

  /** A row that the observer may attest for this authorization: exact authorization and action, committed inside its window. */
  predicate Attests(e: QueuedEffect, a: Authorization, action: string) {
    e.authorization == a && e.action == action && InWindow(a, e.committed)
  }

  // ----- the destination object -----

  datatype Delivery = Done(effect: QueuedEffect) | Untrusted | FenceDenied | TooSmall | AlreadyExecuted

  class FencedSqliteTarget {
    var fences: Fences
    var effects: map<OpKey, QueuedEffect>
    const timeout: real

    constructor (timeout: real)
      ensures fences == map[] && effects == map[] && this.timeout == timeout
    {
      this.timeout := timeout;
      fences, effects := map[], map[];
    }

    method Acquire(scope: string, owner: string, ttl: int, now: real) returns (answer: Answer)
      modifies this`fences
      ensures answer.Granted? <==>
                Bounded(scope) && Bounded(owner) && 1 <= ttl <= 3600 && Free(old(fences), scope, now)
      ensures answer.Granted? ==> answer.epoch == NextEpoch(old(fences), scope)
      ensures fences == if answer.Granted? then Acquired(old(fences), scope, owner, now + ttl as real) else old(fences)
    {
      if !Bounded(scope) || !Bounded(owner) || !(1 <= ttl <= 3600) { return Denied; }
      if scope in fences && fences[scope].expires > now { return Denied; }
      var epoch := if scope in fences then fences[scope].epoch + 1 else 1;
      fences := fences[scope := Fence(owner, epoch, now + ttl as real)];
      return Granted(epoch);
    }

    method FindAttempt(attempt: string) returns (used: bool)
      ensures used <==> AttemptUsed(effects, attempt)
    {
      var rest := effects;
      while |rest| > 0
        invariant forall o :: o in rest ==> o in effects && rest[o] == effects[o]
        invariant forall o :: o in effects && o !in rest ==> effects[o].authorization.attempt != attempt
        decreases |rest|
      {
        var o :| o in rest;
        if rest[o].authorization.attempt == attempt { return true; }
        assert (rest - {o}).Keys == rest.Keys - {o};
        rest := rest - {o};
      }
      return false;
    }

    /** One action under the fence lock; every refusal leaves the tables as they were. */
    method CommitQueued(a: Authorization, action: string, signed: set<Authorization>, now: real, lag: real)
      returns (result: Delivery)
      requires lag >= 0.0
      modifies this`effects
      ensures result.Done? <==> Accepts(fences, old(effects), signed, timeout, a, action, now, lag)
      ensures effects == if result.Done? then Committed(old(effects), a, action, now) else old(effects)
      ensures result.Done? ==> effects[a.op] == result.effect && Attests(result.effect, a, action)
    {
      if !Authentic(a, signed, timeout, action) { return Untrusted; }
      if a.scope !in fences { return FenceDenied; }
      if !InWindow(a, now) { return Untrusted; }
      if !FenceAdmits(fences, a, now) { return FenceDenied; }
      if a.resultLimit < ENVELOPE_LIMIT { return TooSmall; }
      var used := FindAttempt(a.attempt);
      if a.op in effects || used { return AlreadyExecuted; }
      var effect := QueuedEffect(a, action, now);
      var later := now + lag;
      if !FenceAdmits(fences, a, later) { return FenceDenied; }
      if !InWindow(a, later) { return Untrusted; }
      effects := effects[a.op := effect];
      return Done(effect);
    }

    /** The read-only observer: absence or disagreement is never reported as failure. */
    method Observe(a: Authorization, action: string, signed: set<Authorization>) returns (found: Option<QueuedEffect>)
      ensures found.Some? <==>
                Authentic(a, signed, timeout, action) && a.op in effects && Attests(effects[a.op], a, action)
      ensures found.Some? ==> found.value == effects[a.op]
    {
      if !Authentic(a, signed, timeout, action) { return None; }
      if a.op !in effects { return None; }
      var row := effects[a.op];
      if row.authorization != a || row.action != action { return None; }
      if !InWindow(row.authorization, row.committed) { return None; }
      return Some(row);
    }
  }
}
