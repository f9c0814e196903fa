/** Cancellation after a decision, and recovery of an attempt whose answer was lost, over whole runs. */
module KernelRecovery {
  import opened Ledger
  import opened Wrappers
  import opened QueuedDestination
  import opened Kernel
  import opened KernelInvariants
  import opened KernelSafety
  import A = AuditCapacity
  import J = TrustJournal

  // ----- late cancellations are only notes -----

  /** Everything but the cancellation requests. */
  function Plain(s: State): State {
    s.(queue := s.queue.(cancels := map[]))
  }

  /** A cancellation of a task that has been decided. */
  predicate IsLate(s: State, e: Event) {
    e.Cancel? && e.task in s.queue.decisions
  }

  lemma LateCancelIsNote(s: State, e: Event)
    requires IsLate(s, e)
    ensures Plain(Apply(s, e)) == Plain(s)
  {
    assert !GatewayEnabled(s.books, s.gateway, s.queue.byOp, e);
  }

  lemma EnabledIgnoresNotes(s: State, e: Event)
    ensures QueueEnabled(s, e) <==> QueueEnabled(Plain(s), e)
  {
    var q, p := s.queue, Plain(s).queue;
    if e.Reject? || e.CommitAttempt? {
      if e.w in q.workers { assert Dispatchable(s.books, q, q.workers[e.w].task) <==> Dispatchable(s.books, p, q.workers[e.w].task); }
    }
  }

  lemma WorkersIgnoreNotes(s: State, e: Event)
    requires QueueEnabled(s, e) && QueueEnabled(Plain(s), e) && WritesNoRow(e)
    ensures QueueNext(s, e).(cancels := map[]) == QueueNext(Plain(s), e).(cancels := map[])
  {
  }

  lemma RowsIgnoreNotes(s: State, e: Event)
    requires QueueEnabled(s, e) && QueueEnabled(Plain(s), e) && !IsLate(s, e) && !WritesNoRow(e)
    ensures QueueNext(s, e).(cancels := map[]) == QueueNext(Plain(s), e).(cancels := map[])
  {
  }

  lemma TablesIgnoreNotes(s: State, e: Event)
    requires QueueEnabled(s, e) && QueueEnabled(Plain(s), e)
    ensures QueueBooks(s, e) == QueueBooks(Plain(s), e) && QueueSite(s, e) == QueueSite(Plain(s), e)
  {
  }

  /** No check and no other write reads the requests. */
  lemma StepIgnoresNotes(s: State, e: Event)
    requires !IsLate(s, e)
    ensures Plain(Apply(s, e)) == Plain(Apply(Plain(s), e))
  {
    EnabledIgnoresNotes(s, e);
    if !GatewayEnabled(s.books, s.gateway, s.queue.byOp, e) && QueueEnabled(s, e) {
      TablesIgnoreNotes(s, e);
      if WritesNoRow(e) { WorkersIgnoreNotes(s, e); } else { RowsIgnoreNotes(s, e); }
    }
  }

  /** The run without the cancellations that came after their task's decision. */
  ghost function Erased(s: State, events: seq<Event>): seq<Event> {
    if |events| == 0 then []
    else
      var front, e := events[..|events| - 1], events[|events| - 1];
      if IsLate(Run(s, front), e) then Erased(s, front) else Erased(s, front) + [e]
  }

  lemma RunSnoc(s: State, events: seq<Event>, e: Event)
    ensures Run(s, events + [e]) == Apply(Run(s, events), e)
  {
    assert (events + [e])[..|events|] == events;
  }

  lemma SamePlainStep(s: State, t: State, e: Event)
    requires Plain(s) == Plain(t) && !IsLate(s, e)
    ensures Plain(Apply(s, e)) == Plain(Apply(t, e))
  {
    StepIgnoresNotes(s, e);
    StepIgnoresNotes(t, e);
  }

  /** Erasing from any run every cancellation that follows its task's decision changes nothing but the noted requests. */
  lemma {:induction false} LateCancelsChangeNothing(s: State, events: seq<Event>)
    ensures Plain(Run(s, Erased(s, events))) == Plain(Run(s, events))
  {
    if |events| > 0 {
      var front, e := events[..|events| - 1], events[|events| - 1];
      LateCancelsChangeNothing(s, front);
      if IsLate(Run(s, front), e) {
        LateCancelIsNote(Run(s, front), e);
      } else {
        SamePlainStep(Run(s, front), Run(s, Erased(s, front)), e);
        RunSnoc(s, Erased(s, front), e);
      }
    }
  }

  // ----- recovery never dispatches -----

  predicate OnlyRecovers(e: Event) {
    e.Tick? || e.Recover? || e.Observe? || e.FinishVerified? || e.Crash?
  }

  ghost predicate SameDispatch(s: State, s': State) {
    && s'.site == s.site && s'.queue.sent == s.queue.sent && s'.queue.signed == s.queue.signed
    && s'.queue.decisions == s.queue.decisions && s'.queue.links == s.queue.links
  }

  lemma RecoveryStep(s: State, e: Event)
    requires OnlyRecovers(e)
    ensures SameDispatch(s, Apply(s, e))
  {
    assert !GatewayEnabled(s.books, s.gateway, s.queue.byOp, e);
    if !e.FinishVerified? && !e.Tick? && QueueEnabled(s, e) { WorkersKeepRows(s, e); }
  }

  /** Recovering any number of times, with crashes in between, authorizes nothing, sends nothing and causes no effect. */
  lemma {:induction false} RecoveryNeverDispatches(s: State, events: seq<Event>)
    requires forall i :: 0 <= i < |events| ==> OnlyRecovers(events[i])
    ensures SameDispatch(s, Run(s, events))
  {
    if |events| > 0 {
      RecoveryNeverDispatches(s, events[..|events| - 1]);
      RecoveryStep(Run(s, events[..|events| - 1]), events[|events| - 1]);
    }
  }

  // ----- one recovery -----

  /** A task with a recorded attempt whose effect is at the destination and is not yet settled. */
  predicate Recoverable(s: State, task: Task) {
    && task in s.queue.links
    && task in s.queue.decisions && s.queue.decisions[task].Attempt?
    && task !in s.queue.results
    && s.queue.decisions[task].authorization.op in s.site.effects
  }

  /** The observation that the recovery of such a task seals. */
  function SealOf(s: State, task: Task): Readback
    requires Recoverable(s, task)
  {
    var d := s.queue.decisions[task];
    Readback(task, d, s.site.effects[d.authorization.op], s.books.now.Floor)
  }

  /** One recovery: by whom, whether the settlement trust resolves, and whether the audit row fits. */
  datatype Try = Try(worker: int, trusted: bool, room: bool)

  predicate MaySettle(y: Try) {
    y.trusted && y.room
  }

  /** Load, observe, settle from the seal. */
  function RecoveryOf(seal: Readback, y: Try): seq<Event> {
    [Recover(y.worker, seal.task), Observe(y.worker), FinishVerified(seal, y.trusted, y.room)]
  }

  /** What the settling transaction will check, gathered from the invariant. */
  predicate Ready(s: State, task: Task)
    requires Recoverable(s, task)
  {
    var l, a := s.queue.links[task], s.queue.decisions[task].authorization;
    && task in s.queue.lives
    && Authentic(a, s.queue.signed, s.timeout, l.action)
    && Attests(s.site.effects[a.op], a, l.action)
    && s.site.effects[a.op].committed <= s.books.now
    && Settleable(s.books, l.op, l.token, Some(l.cost))
  }

  lemma RecoverableEvidence(s: State, task: Task)
    requires Evidenced(s.queue, s.site.effects) && LinksFit(s.books, s.queue) && Genuine(s) && Recoverable(s, task)
    ensures var l, a := s.queue.links[task], s.queue.decisions[task].authorization;
      && Authentic(a, s.queue.signed, s.timeout, l.action)
      && Attests(s.site.effects[a.op], a, l.action)
      && s.site.effects[a.op].committed <= s.books.now
  {
    var a := s.queue.decisions[task].authorization;
    assert DecisionFits(s.queue, task);
    EffectOwner(s.books, s.queue, s.site.effects, task);
    EffectJustified(s.queue, s.site.effects, a.op);
    assert IsGenuine(s.queue.signed, s.timeout, s.books.now, s.site.effects[a.op]);
  }

  lemma RecoverableReady(s: State, task: Task)
    requires Inv(s) && Recoverable(s, task)
    ensures Ready(s, task)
  {
    RecoverableEvidence(s, task);
    assert LinkFits(s.books, s.queue, task) && StatusFits(s.books, s.queue, task);
    UnresolvedSettles(s.books, s.queue.links[task].op);
  }

  function WithSeal(s: State, seal: Readback): State {
    s.(queue := s.queue.(seals := s.queue.seals + {seal}))
  }

  lemma Observes(s: State, w: int, task: Task)
    requires Recoverable(s, task) && Ready(s, task) && w !in s.queue.workers
    ensures Apply(Apply(s, Recover(w, task)), Observe(w)) == WithSeal(s, SealOf(s, task))
  {
    var s1 := Apply(s, Recover(w, task));
    assert QueueEnabled(s, Recover(w, task));
    assert s1 == s.(queue := s.queue.(workers := s.queue.workers[w := Recovering(task)]));
    assert QueueEnabled(s1, Observe(w));
    assert s1.queue.workers - {w} == s.queue.workers;
  }

  /** The state after the task is settled from the seal. */
  function SettledFrom(s: State, task: Task): State
    requires Recoverable(s, task) && Ready(s, task)
  {
    var l, t := s.queue.links[task], WithSeal(s, SealOf(s, task));
    t.(books := Settle(s.books, l.op, l.token, Succeeded), queue := FinishQueue(t.queue, SealOf(s, task)))
  }

  lemma FinishSettles(s: State, task: Task, trusted: bool, room: bool)
    requires Recoverable(s, task) && Ready(s, task)
    ensures var t := WithSeal(s, SealOf(s, task));
      Apply(t, FinishVerified(SealOf(s, task), trusted, room)) ==
      if trusted && room && CanEnd(s.queue.lives[task], Completed) then SettledFrom(s, task) else t
  {
    var t, e := WithSeal(s, SealOf(s, task)), FinishVerified(SealOf(s, task), trusted, room);
    assert !GatewayEnabled(t.books, t.gateway, t.queue.byOp, e);
    assert s.books.now < s.books.now.Floor as real + 1.0;
    assert QueueEnabled(t, e) <==> trusted && room && CanEnd(s.queue.lives[task], Completed);
  }

  lemma RunThree(s: State, e: Event, f: Event, g: Event)
    ensures Run(s, [e, f, g]) == Apply(Apply(Apply(s, e), f), g)
  {
    assert [e, f, g][..2] == [e, f] && [e, f][..1] == [e] && [e][..0] == [];
    assert Run(s, [e]) == Apply(Run(s, []), e);
    assert Run(s, [e, f]) == Apply(Run(s, [e]), f);
  }

  /** One recovery settles the task or does nothing but leave its seal. */
  lemma OneRecovery(s: State, task: Task, y: Try)
    requires Recoverable(s, task) && Ready(s, task) && y.worker !in s.queue.workers
    ensures Run(s, RecoveryOf(SealOf(s, task), y)) ==
            if MaySettle(y) && CanEnd(s.queue.lives[task], Completed) then SettledFrom(s, task) else WithSeal(s, SealOf(s, task))
  {
    Observes(s, y.worker, task);
    FinishSettles(s, task, y.trusted, y.room);
    RunThree(s, Recover(y.worker, task), Observe(y.worker), FinishVerified(SealOf(s, task), y.trusted, y.room));
  }

  // ----- what an observation is worth later -----

  /** An observation is not from the future, and what it shows was committed before its second ended. */
  predicate SealTimed(now: real, r: Readback) {
    r.observed <= now.Floor && r.evidence.committed < r.observed as real + 1.0
  }

  ghost predicate SealsTimed(s: State) {
    forall r :: r in s.queue.seals ==> SealTimed(s.books.now, r)
  }

  /** What every reachable state satisfies, observation times included. */
  ghost predicate Sane(s: State) {
    Inv(s) && SealsTimed(s)
  }

  lemma SealStays(now: real, later: real, r: Readback)
    requires SealTimed(now, r) && now <= later
    ensures SealTimed(later, r)
  {
    assert now.Floor as real <= now && later < later.Floor as real + 1.0;
  }

  /** The event is the observation of this seal by a worker that recovers its task. */
  predicate Sees(s: State, e: Event, seal: Readback) {
    && e.Observe? && e.w in s.queue.workers && s.queue.workers[e.w] == Recovering(seal.task)
    && Recoverable(s, seal.task) && seal == SealOf(s, seal.task)
  }

  /** Whatever is recoverable passes every check that does not depend on the moment. */
  ghost predicate AllReady(s: State) {
    forall task :: Recoverable(s, task) ==> Ready(s, task)
  }

  lemma InvReady(s: State)
    requires Inv(s)
    ensures AllReady(s)
  {
    forall task | Recoverable(s, task) ensures Ready(s, task) { RecoverableReady(s, task); }
  }

  lemma ObserveIff(s: State, w: int)
    requires AllReady(s)
    ensures QueueEnabled(s, Observe(w)) <==>
              w in s.queue.workers && s.queue.workers[w].Recovering? && Recoverable(s, s.queue.workers[w].task)
  {
    if w in s.queue.workers && s.queue.workers[w].Recovering? && Recoverable(s, s.queue.workers[w].task) {
      assert Ready(s, s.queue.workers[w].task);
    }
  }

  lemma ObserveSeals(s: State, w: int, seal: Readback)
    requires AllReady(s)
    ensures seal in Apply(s, Observe(w)).queue.seals <==> seal in s.queue.seals || Sees(s, Observe(w), seal)
  {
    ObserveIff(s, w);
    assert !GatewayEnabled(s.books, s.gateway, s.queue.byOp, Observe(w));
  }

  lemma OthersSealNothing(s: State, e: Event)
    requires !e.Observe?
    ensures Apply(s, e).queue.seals == s.queue.seals
  {
    if !GatewayEnabled(s.books, s.gateway, s.queue.byOp, e) && QueueEnabled(s, e) { SealedOnlyByObserver(s, e); }
  }

  /** A step adds a seal only if it is an observation, and then exactly that of the recovering worker's task. */
  lemma StepSeals(s: State, e: Event, seal: Readback)
    requires AllReady(s)
    ensures seal in Apply(s, e).queue.seals <==> seal in s.queue.seals || Sees(s, e, seal)
  {
    if e.Observe? { ObserveSeals(s, e.w, seal); } else { OthersSealNothing(s, e); }
  }

  lemma SealOfTimed(s: State, task: Task)
    requires Recoverable(s, task) && Ready(s, task)
    ensures SealTimed(s.books.now, SealOf(s, task))
  {
    assert s.books.now < s.books.now.Floor as real + 1.0;
  }

  lemma StepTimed(s: State, e: Event)
    requires SealsTimed(s) && AllReady(s) && s.books.now <= Apply(s, e).books.now
    ensures SealsTimed(Apply(s, e))
  {
    var s' := Apply(s, e);
    forall r | r in s'.queue.seals ensures SealTimed(s'.books.now, r) {
      StepSeals(s, e, r);
      if r !in s.queue.seals { SealOfTimed(s, r.task); }
      SealStays(s.books.now, s'.books.now, r);
    }
  }

  lemma StepKeepsSane(s: State, e: Event)
    requires Sane(s)
    ensures Sane(Apply(s, e))
  {
    var s' := Apply(s, e);
    StepKeepsInv(s, e);
    StepKeeps(s, e);
    InvReady(s);
    StepTimed(s, e);
  }

  lemma {:induction false} RunKeepsSane(s: State, events: seq<Event>)
    requires Sane(s)
    ensures Sane(Run(s, events))
  {
    if |events| > 0 {
      RunKeepsSane(s, events[..|events| - 1]);
      StepKeepsSane(Run(s, events[..|events| - 1]), events[|events| - 1]);
    }
  }

  lemma ReachableSane(s: State, origin: Setup, events: seq<Event>)
    requires Reachable(s, origin, events)
    ensures Sane(s)
  {
    StartInv(origin.now, origin.limits, origin.defaults, origin.timeout);
    RunKeepsSane(Initial(origin), events);
  }

  // ----- exactly when the settling transaction takes an observation -----

  /** The observation is at most 300 seconds old, by whole seconds of the clock. */
  predicate Recent(s: State, seal: Readback) {
    s.books.now.Floor - 300 <= seal.observed
  }

  predicate Takes(s: State, seal: Readback) {
    && seal in s.queue.seals && seal.task !in s.queue.results
    && seal.task in s.queue.lives && CanEnd(s.queue.lives[seal.task], Completed)
    && Recent(s, seal)
  }

  /** A seal shows the recorded attempt of its task and the effect that is at the destination. */
  predicate Shows(s: State, seal: Readback) {
    && SealTimed(s.books.now, seal)
    && (seal.task !in s.queue.results ==>
          && Recoverable(s, seal.task) && seal.decision == s.queue.decisions[seal.task]
          && seal.evidence == s.site.effects[seal.decision.authorization.op])
  }

  ghost predicate SealsStand(s: State) {
    forall seal :: seal in s.queue.seals ==> Shows(s, seal)
  }

  lemma SaneSeals(s: State)
    requires Sane(s)
    ensures AllReady(s) && SealsStand(s)
  {
    InvReady(s);
    forall seal | seal in s.queue.seals ensures Shows(s, seal) {
      assert SealFits(s.queue, s.site.effects, seal) && SealTimed(s.books.now, seal);
      assert DecisionFits(s.queue, seal.task);
    }
  }

  lemma ShownIsFinishable(s: State, seal: Readback)
    requires Recoverable(s, seal.task) && Ready(s, seal.task) && Shows(s, seal) && seal in s.queue.seals
    ensures Finishable(s.books, s.queue, seal) <==> CanEnd(s.queue.lives[seal.task], Completed) && Recent(s, seal)
  {
  }

  lemma FinishableIff(s: State, seal: Readback)
    requires AllReady(s) && SealsStand(s)
    ensures Finishable(s.books, s.queue, seal) <==> Takes(s, seal)
  {
    if seal in s.queue.seals && seal.task !in s.queue.results {
      assert Shows(s, seal) && Ready(s, seal.task);
      ShownIsFinishable(s, seal);
    }
  }

  /** The state after the task of the seal is settled from it. */
  function FinishedFrom(s: State, seal: Readback): State
    requires Finishable(s.books, s.queue, seal)
  {
    var l := s.queue.links[seal.task];
    s.(books := Settle(s.books, l.op, l.token, Succeeded), queue := FinishQueue(s.queue, seal))
  }

  lemma FinishApplies(s: State, seal: Readback, trusted: bool, room: bool)
    ensures Apply(s, FinishVerified(seal, trusted, room)) ==
            if trusted && room && Finishable(s.books, s.queue, seal) then FinishedFrom(s, seal) else s
  {
    assert !GatewayEnabled(s.books, s.gateway, s.queue.byOp, FinishVerified(seal, trusted, room));
  }

  lemma FinishStep(s: State, seal: Readback, trusted: bool, room: bool)
    requires Sane(s)
    ensures Takes(s, seal) <==> Finishable(s.books, s.queue, seal)
    ensures Apply(s, FinishVerified(seal, trusted, room)) == if trusted && room && Takes(s, seal) then FinishedFrom(s, seal) else s
  {
    SaneSeals(s);
    FinishableIff(s, seal);
    FinishApplies(s, seal, trusted, room);
  }

  // ----- trust and room -----

  /** The signing keys that the immutable target descriptor names. */
  datatype Descriptor = Descriptor(destinationKey: string, destinationMaterial: string, observerKey: string, observerMaterial: string)

  /** A journal instance, what its store holds, and the envelopes its controllers signed. */
  datatype Journal = Journal(instance: J.Instance, store: J.Store, signed: set<J.Envelope>)

  ghost predicate KeyStands(h: seq<J.Row>, floor: int, key: string, material: string, domain: J.Domain, signed: set<J.Envelope>) {
    J.Resolves(h, floor, key, domain, signed) && J.RegistryAt(h, |h| - 1)[key].material == material
  }

  /** Without a journal the descriptor's own keys are trusted; with one, both must stand in it, active and unchanged. */
  ghost predicate TrustStands(journal: Option<Journal>, d: Descriptor) {
    journal.Some? ==>
      var j := journal.value;
      && KeyStands(j.store.destination, j.instance.floors.destination, d.destinationKey, d.destinationMaterial, J.Destination, j.signed)
      && KeyStands(j.store.readback, j.instance.floors.readback, d.observerKey, d.observerMaterial, J.Readback, j.signed)
  }

  /** The journal's own settlement call hands out both keys exactly when both resolve. */
  lemma TrustIsTwoResolutions(j: Journal, d: Descriptor)
    ensures J.Apply(j.instance, J.Settle(j.store, d.destinationKey, d.observerKey), j.signed).log ==
              j.instance.log + [J.Resolution(J.Destination, d.destinationKey, |j.store.destination|),
                                J.Resolution(J.Readback, d.observerKey, |j.store.readback|)]
            <==> J.Resolves(j.store.destination, j.instance.floors.destination, d.destinationKey, J.Destination, j.signed)
                 && J.Resolves(j.store.readback, j.instance.floors.readback, d.observerKey, J.Readback, j.signed)
  {
  }

  /**
   The settling transaction with the trust journal and the audit table in place of their
   answers, in any reachable state and for any observation: exactly when it settles.
   */
  lemma SettlementIff(s: State, origin: Setup, events: seq<Event>, seal: Readback, journal: Option<Journal>, d: Descriptor,
                      legacy: seq<A.Entry>, statements: seq<A.Event>, row: A.Entry)
    requires Reachable(s, origin, events) && A.Unique(legacy)
    ensures Takes(s, seal) ==> Finishable(s.books, s.queue, seal)
    ensures var audit := A.Run(A.Table(legacy, None), statements);
      Apply(s, FinishVerified(seal, TrustStands(journal, d), A.Inserts(audit, row))) ==
      if Takes(s, seal) && TrustStands(journal, d) && !A.Numbers(audit.rows, row.number) && A.Fits(audit.rows + [row], row, A.InForce(audit))
      then FinishedFrom(s, seal) else s
  {
    ReachableSane(s, origin, events);
    A.InsertIffFits(legacy, statements, row);
    FinishStep(s, seal, TrustStands(journal, d), A.Inserts(A.Run(A.Table(legacy, None), statements), row));
  }

  // ----- recovery among any other events -----

  ghost predicate ObservedAt(s: State, more: seq<Event>, j: int, seal: Readback) {
    0 <= j < |more| && Sees(Run(s, more[..j]), more[j], seal)
  }

  /** Some worker observed it on the way, or it was there before. */
  ghost predicate Observed(s: State, more: seq<Event>, seal: Readback) {
    seal in s.queue.seals || exists j :: ObservedAt(s, more, j, seal)
  }

  lemma ObservedMore(s: State, front: seq<Event>, e: Event, seal: Readback)
    ensures Observed(s, front + [e], seal) <==> Observed(s, front, seal) || Sees(Run(s, front), e, seal)
  {
    var more := front + [e];
    assert more[..|front|] == front && more[|front|] == e;
    assert forall j :: 0 <= j < |front| ==> more[..j] == front[..j] && more[j] == front[j];
    if Observed(s, front, seal) && seal !in s.queue.seals {
      var j :| ObservedAt(s, front, j, seal);
      assert ObservedAt(s, more, j, seal);
    }
    if Sees(Run(s, front), e, seal) { assert ObservedAt(s, more, |front|, seal); }
    if Observed(s, more, seal) && seal !in s.queue.seals {
      var j :| ObservedAt(s, more, j, seal);
      assert j < |front| ==> ObservedAt(s, front, j, seal);
    }
  }

  lemma RunReady(s: State, more: seq<Event>)
    requires Inv(s)
    ensures AllReady(Run(s, more))
  {
    RunKeepsInv(s, more);
    InvReady(Run(s, more));
  }

  lemma SealsMore(s: State, front: seq<Event>, e: Event, seal: Readback)
    requires AllReady(Run(s, front)) && (seal in Run(s, front).queue.seals <==> Observed(s, front, seal))
    ensures seal in Run(s, front + [e]).queue.seals <==> Observed(s, front + [e], seal)
  {
    StepSeals(Run(s, front), e, seal);
    ObservedMore(s, front, e, seal);
    RunSnoc(s, front, e);
  }

  lemma {:induction false} SealsAreObserved(s: State, more: seq<Event>, seal: Readback)
    requires Inv(s)
    ensures seal in Run(s, more).queue.seals <==> Observed(s, more, seal)
  {
    if |more| > 0 {
      var front, e := more[..|more| - 1], more[|more| - 1];
      SealsAreObserved(s, front, seal);
      RunReady(s, front);
      SealsMore(s, front, e, seal);
      assert more == front + [e];
    }
  }

  /**
   Event `k` of the run settles the task: its trust resolves and its audit row fits, its
   observation was really made, at most 300 seconds ago, and the lifecycle can still end in
   completed. What else happened before it, and who did it, does not matter.
   */
  ghost predicate SettlesAt(s: State, more: seq<Event>, k: int, task: Task) {
    && 0 <= k < |more| && more[k].FinishVerified? && more[k].trusted && more[k].room && more[k].seal.task == task
    && Observed(s, more[..k], more[k].seal)
    && var t := Run(s, more[..k]);
       task in t.queue.lives && CanEnd(t.queue.lives[task], Completed) && Recent(t, more[k].seal)
  }

  ghost predicate SettlesIn(s: State, more: seq<Event>, task: Task) {
    exists k :: SettlesAt(s, more, k, task)
  }

  lemma SettlesMore(s: State, front: seq<Event>, e: Event, task: Task)
    ensures SettlesIn(s, front + [e], task) <==> SettlesIn(s, front, task) || SettlesAt(s, front + [e], |front|, task)
  {
    var more := front + [e];
    assert forall k :: 0 <= k < |front| ==> more[..k] == front[..k] && more[k] == front[k];
    if SettlesIn(s, front, task) {
      var k :| SettlesAt(s, front, k, task);
      assert SettlesAt(s, more, k, task);
    }
    if SettlesIn(s, more, task) {
      var k :| SettlesAt(s, more, k, task);
      assert k < |front| ==> SettlesAt(s, front, k, task);
    }
  }

  /** Results are never taken away, and only a settling transaction adds one, for the task of its seal. */
  lemma StepResults(t: State, e: Event, task: Task)
    ensures task in t.queue.results ==> task in Apply(t, e).queue.results
    ensures task !in t.queue.results ==>
              (task in Apply(t, e).queue.results <==>
                 e.FinishVerified? && e.seal.task == task && e.trusted && e.room && Finishable(t.books, t.queue, e.seal))
  {
    if e.FinishVerified? {
      FinishApplies(t, e.seal, e.trusted, e.room);
    } else if !GatewayEnabled(t.books, t.gateway, t.queue.byOp, e) && QueueEnabled(t, e) {
      SettledOnlyByFinish(t, e);
    }
  }

  lemma LastSettles(s: State, front: seq<Event>, e: Event, task: Task)
    requires var t := Run(s, front);
      && task !in t.queue.results
      && (e.FinishVerified? ==> (Finishable(t.books, t.queue, e.seal) <==> Takes(t, e.seal)))
      && (e.FinishVerified? ==> (e.seal in t.queue.seals <==> Observed(s, front, e.seal)))
    ensures task in Apply(Run(s, front), e).queue.results <==> SettlesAt(s, front + [e], |front|, task)
  {
    StepResults(Run(s, front), e, task);
    assert (front + [e])[..|front|] == front;
  }

  lemma RunFinishable(s: State, front: seq<Event>, seal: Readback)
    requires Sane(s)
    ensures var t := Run(s, front);
      && (Finishable(t.books, t.queue, seal) <==> Takes(t, seal)) && (seal in t.queue.seals <==> Observed(s, front, seal))
  {
    RunKeepsSane(s, front);
    SaneSeals(Run(s, front));
    FinishableIff(Run(s, front), seal);
    SealsAreObserved(s, front, seal);
  }

  lemma {:induction false} ResultIffSettles(s: State, more: seq<Event>, task: Task)
    requires Sane(s) && task !in s.queue.results
    ensures task in Run(s, more).queue.results <==> SettlesIn(s, more, task)
  {
    if |more| > 0 {
      var front, e := more[..|more| - 1], more[|more| - 1];
      assert more == front + [e];
      ResultIffSettles(s, front, task);
      SettlesMore(s, front, e, task);
      if task in Run(s, front).queue.results {
        StepResults(Run(s, front), e, task);
      } else {
        if e.FinishVerified? { RunFinishable(s, front, e.seal); }
        LastSettles(s, front, e, task);
      }
    }
  }

  /** In `u` the task is settled from the effect that `s` has, and its own token has paid, once. */
  ghost predicate IsSettled(s: State, u: State, task: Task)
    requires Recoverable(s, task)
  {
    var l, d := s.queue.links[task], s.queue.decisions[task];
    && task in u.queue.results && u.queue.results[task] == Result(d, s.site.effects[d.authorization.op])
    && l.op in u.books.operations && u.books.operations[l.op].state == Succeeded && MoneyFits(u.books, l.op)
  }

  /** In `u` the operation is still unknown, its money still held at the admitted cost, and the task still recoverable. */
  predicate IsUnsettled(s: State, u: State, task: Task)
    requires Recoverable(s, task)
  {
    var l := s.queue.links[task];
    Recoverable(u, task) && Settleable(u.books, l.op, l.token, Some(l.cost))
  }

  /** The one attempt and its one effect are as they were. */
  predicate SameAttempt(s: State, u: State, task: Task)
    requires Recoverable(s, task)
  {
    var d := s.queue.decisions[task];
    && task in u.queue.decisions && u.queue.decisions[task] == d && task in u.queue.links && u.queue.links[task] == s.queue.links[task]
    && d.authorization.op in u.site.effects && u.site.effects[d.authorization.op] == s.site.effects[d.authorization.op]
  }

  lemma RecoverableLater(s: State, u: State, task: Task)
    requires Recoverable(s, task) && Inv(s) && Inv(u) && Kept(s, u)
    ensures SameAttempt(s, u, task)
    ensures if task in u.queue.results then IsSettled(s, u, task) else IsUnsettled(s, u, task)
  {
    assert DecisionFits(s.queue, task);
    EffectOwner(s.books, s.queue, s.site.effects, task);
    if task in u.queue.results {
      assert ResultFits(u.queue, u.site.effects, task);
      TaskSettled(u, task);
      SoundMoney(u.books, u.queue.links[task].op);
    } else {
      RecoverableReady(u, task);
    }
  }

  lemma SaneRecovery(s: State, task: Task, more: seq<Event>)
    requires Sane(s) && Recoverable(s, task)
    ensures SameAttempt(s, Run(s, more), task)
    ensures if SettlesIn(s, more, task) then IsSettled(s, Run(s, more), task) else IsUnsettled(s, Run(s, more), task)
  {
    ResultIffSettles(s, more, task);
    RunKeepsInv(s, more);
    RunKeeps(s, more, 0);
    assert more[..0] == [];
    RecoverableLater(s, Run(s, more), task);
  }

  /**
   From any reachable state in which the attempt's effect is at the destination, and through
   any events whatever: the task is settled, once and from that effect, exactly when one of
   the events settles it. Otherwise its operation stays unknown and its money held.
   */
  lemma RecoverySettles(s: State, origin: Setup, events: seq<Event>, task: Task, more: seq<Event>)
    requires Reachable(s, origin, events) && Recoverable(s, task)
    ensures SameAttempt(s, Run(s, more), task)
    ensures if SettlesIn(s, more, task) then IsSettled(s, Run(s, more), task) else IsUnsettled(s, Run(s, more), task)
  {
    ReachableSane(s, origin, events);
    SaneRecovery(s, task, more);
  }

  // ----- repeating recovery -----

  /** An event of somebody's recovery of this task, the clock, or a crash. */
  predicate RecoversOnly(e: Event, task: Task) {
    OnlyRecovers(e) && (e.FinishVerified? ==> e.seal.task == task)
  }

  predicate SameBooks(s: State, u: State) {
    u.books == s.books.(now := u.books.now) && u.queue.results == s.queue.results
  }

  lemma QuietStep(s: State, e: Event, task: Task)
    requires RecoversOnly(e, task)
    ensures SameBooks(s, Apply(s, e)) || (task !in s.queue.results && task in Apply(s, e).queue.results)
  {
    if e.FinishVerified? {
      FinishApplies(s, e.seal, e.trusted, e.room);
    } else {
      RecoveryLeavesBooks(s, e);
    }
  }

  lemma RecoveryLeavesBooks(s: State, e: Event)
    requires e.Tick? || e.Recover? || e.Observe? || e.Crash?
    ensures SameBooks(s, Apply(s, e))
  {
    assert !GatewayEnabled(s.books, s.gateway, s.queue.byOp, e);
    if !e.Tick? && QueueEnabled(s, e) { WorkersKeepRows(s, e); }
  }

  lemma {:induction false} QuietRun(s: State, more: seq<Event>, task: Task)
    requires forall i :: 0 <= i < |more| ==> RecoversOnly(more[i], task)
    requires task in s.queue.results || task !in Run(s, more).queue.results
    ensures SameBooks(s, Run(s, more))
  {
    if |more| > 0 {
      var front, e := more[..|more| - 1], more[|more| - 1];
      StepResults(Run(s, front), e, task);
      QuietRun(s, front, task);
      QuietStep(Run(s, front), e, task);
    }
  }

  /**
   After any events `first`, any further recoveries of the task, interleaved as they may be,
   with crashes and with time passing, change nothing but the clock, exactly unless `first`
   has not settled the task and one of them does.
   */
  lemma RecoveryIsIdempotent(s: State, origin: Setup, events: seq<Event>, task: Task, first: seq<Event>, more: seq<Event>)
    requires Reachable(s, origin, events) && Recoverable(s, task)
    requires forall i :: 0 <= i < |more| ==> RecoversOnly(more[i], task)
    ensures var t := Run(s, first);
      && SameDispatch(t, Run(t, more))
      && (SameBooks(t, Run(t, more)) <==> SettlesIn(s, first, task) || !SettlesIn(t, more, task))
  {
    var t := Run(s, first);
    ReachableSane(s, origin, events);
    RunKeepsSane(s, first);
    ResultIffSettles(s, first, task);
    RecoveryNeverDispatches(t, more);
    if task !in t.queue.results { ResultIffSettles(t, more, task); }
    if task in t.queue.results || task !in Run(t, more).queue.results { QuietRun(t, more, task); }
  }

  // ----- a recovery that stalls -----

  /** A worker that observes, waits, and then settles from what it saw. */
  function StalledOf(seal: Readback, w: int, delay: real, trusted: bool, room: bool): seq<Event> {
    [Recover(w, seal.task), Observe(w), Tick(delay), FinishVerified(seal, trusted, room)]
  }

  lemma RunFour(s: State, e: Event, f: Event, g: Event, h: Event)
    ensures Run(s, [e, f, g, h]) == Apply(Apply(Apply(Apply(s, e), f), g), h)
  {
    RunThree(s, e, f, g);
    assert [e, f, g, h] == [e, f, g] + [h];
    RunSnoc(s, [e, f, g], h);
  }

  /** What the worker holds after the wait. */
  function Waited(s: State, task: Task, delay: real): State
    requires Recoverable(s, task)
  {
    WithSeal(s, SealOf(s, task)).(books := s.books.(now := s.books.now + delay))
  }

  lemma TickStep(s: State, delay: real)
    requires delay >= 0.0
    ensures Apply(s, Tick(delay)) == s.(books := s.books.(now := s.books.now + delay))
  {
  }

  lemma WaitReaches(s: State, w: int, task: Task, delay: real)
    requires Recoverable(s, task) && Ready(s, task) && w !in s.queue.workers && delay >= 0.0
    ensures Apply(Apply(Apply(s, Recover(w, task)), Observe(w)), Tick(delay)) == Waited(s, task, delay)
  {
    Observes(s, w, task);
    TickStep(WithSeal(s, SealOf(s, task)), delay);
  }

  lemma WaitedFinishes(s: State, task: Task, delay: real)
    requires Recoverable(s, task) && Ready(s, task) && delay >= 0.0
    ensures var x := Waited(s, task, delay);
      Finishable(x.books, x.queue, SealOf(s, task)) <==>
      CanEnd(s.queue.lives[task], Completed) && (s.books.now + delay).Floor - 300 <= s.books.now.Floor
  {
    var x, seal := Waited(s, task, delay), SealOf(s, task);
    SealOfTimed(s, task);
    SealStays(s.books.now, x.books.now, seal);
    assert Recoverable(x, task) && Ready(x, task) && Shows(x, seal);
    ShownIsFinishable(x, seal);
  }

  lemma StalledBooks(s: State, task: Task, w: int, delay: real, trusted: bool, room: bool)
    requires Recoverable(s, task) && Ready(s, task) && w !in s.queue.workers && delay >= 0.0
    ensures var u := Run(s, StalledOf(SealOf(s, task), w, delay, trusted, room));
      if trusted && room && CanEnd(s.queue.lives[task], Completed) && (s.books.now + delay).Floor - 300 <= s.books.now.Floor
      then task in u.queue.results else SameBooks(s, u)
  {
    var seal := SealOf(s, task);
    WaitReaches(s, w, task, delay);
    FinishApplies(Waited(s, task, delay), seal, trusted, room);
    WaitedFinishes(s, task, delay);
    RunFour(s, Recover(w, task), Observe(w), Tick(delay), FinishVerified(seal, trusted, room));
  }

  /** With nothing else in between: exactly how long a worker may wait between its observation and its settlement. */
  lemma StalledRecovery(s: State, origin: Setup, events: seq<Event>, task: Task, w: int, delay: real, trusted: bool, room: bool)
    requires Reachable(s, origin, events) && Recoverable(s, task) && w !in s.queue.workers && delay >= 0.0
    ensures task in s.queue.lives
    ensures var u := Run(s, StalledOf(SealOf(s, task), w, delay, trusted, room));
      if trusted && room && CanEnd(s.queue.lives[task], Completed) && (s.books.now + delay).Floor - 300 <= s.books.now.Floor
      then IsSettled(s, u, task) else IsUnsettled(s, u, task) && SameBooks(s, u)
  {
    ReachableInv(s, origin, events);
    RecoverableReady(s, task);
    StalledBooks(s, task, w, delay, trusted, room);
    RecoverySettles(s, origin, events, task, StalledOf(SealOf(s, task), w, delay, trusted, room));
  }

  lemma LateByFloors(now: real, delay: real)
    requires delay >= 301.0
    ensures (now + delay).Floor - 300 > now.Floor
  {
    assert now.Floor as real <= now && now + delay < (now + delay).Floor as real + 1.0;
  }

  /** The failing run: trust and room are there, yet 301 seconds between observation and settlement leave the task as it was. */
  lemma StaleObservationIsRefused(s: State, origin: Setup, events: seq<Event>, task: Task, w: int, delay: real)
    requires Reachable(s, origin, events) && Recoverable(s, task) && w !in s.queue.workers && delay >= 301.0
    ensures var u := Run(s, StalledOf(SealOf(s, task), w, delay, true, true)); IsUnsettled(s, u, task) && SameBooks(s, u)
  {
    LateByFloors(s.books.now, delay);
    StalledRecovery(s, origin, events, task, w, delay, true, true);
  }

  lemma PromptBooks(s: State, task: Task, y: Try)
    requires Recoverable(s, task) && Ready(s, task) && y.worker !in s.queue.workers
    ensures var u := Run(s, RecoveryOf(SealOf(s, task), y));
      if MaySettle(y) && CanEnd(s.queue.lives[task], Completed) then task in u.queue.results else SameBooks(s, u)
  {
    OneRecovery(s, task, y);
  }

  /** A recovery that does not wait settles in every reachable state exactly with trust, room and a lifecycle that can end. */
  lemma PromptRecovery(s: State, origin: Setup, events: seq<Event>, task: Task, y: Try)
    requires Reachable(s, origin, events) && Recoverable(s, task) && y.worker !in s.queue.workers
    ensures task in s.queue.lives
    ensures var u := Run(s, RecoveryOf(SealOf(s, task), y));
      if MaySettle(y) && CanEnd(s.queue.lives[task], Completed) then IsSettled(s, u, task) else IsUnsettled(s, u, task) && SameBooks(s, u)
  {
    ReachableInv(s, origin, events);
    RecoverableReady(s, task);
    PromptBooks(s, task, y);
    RecoverySettles(s, origin, events, task, RecoveryOf(SealOf(s, task), y));
  }
}
