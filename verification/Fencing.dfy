/**
 Destination fences: per scope, one lease row carrying an owner and a monotonic
 epoch. An effect is written in the same transaction that checks the row, so a
 leader that lost its lease can no longer write.
 */
module Fencing {

  datatype Fence = Fence(owner: string, epoch: int, expires: real)

  type Fences = map<string, Fence>

  datatype Answer = Granted(epoch: int) | Denied

  predicate Bounded(id: string) {
    1 <= |id| <= 128
  }

  predicate Lease(ttl: real) {
    0.5 <= ttl <= 3600.0
  }

  /** Nobody holds the scope: the row is missing or has expired. */
  predicate Free(f: Fences, scope: string, now: real) {
    scope !in f || f[scope].expires <= now
  }

  function NextEpoch(f: Fences, scope: string): int {
    if scope in f then f[scope].epoch + 1 else 1
  }

  function Acquired(f: Fences, scope: string, owner: string, expires: real): Fences {
    f[scope := Fence(owner, NextEpoch(f, scope), expires)]
  }

  /** The one test every writer and renewer must pass under the row lock. */
  predicate Holds(f: Fences, scope: string, owner: string, epoch: int, now: real) {
    scope in f && f[scope].owner == owner && f[scope].epoch == epoch && f[scope].expires > now
  }

  // ----- the machine: any number of leaders, one database clock -----

  datatype Effect = Effect(fingerprint: string, reference: string)

  datatype Entry =
    | Grant(scope: string, owner: string, epoch: int, at: real, until: real)
    | Extension(scope: string, owner: string, epoch: int, at: real, until: real)
    | Write(scope: string, owner: string, epoch: int, at: real, agent: string, operation: string)

  datatype World = World(
    now: real,
    fences: Fences,
    effects: map<(string, string), Effect>,
    log: seq<Entry>)

  /** `lag` is the time between the check of the old row and the stamp of the new one. */
  datatype Event =
    | Tick(elapsed: real)
    | Acquire(scope: string, owner: string, ttl: real, lag: real)
    | Renew(scope: string, owner: string, epoch: int, ttl: real, lag: real)
    | Commit(scope: string, owner: string, epoch: int, agent: string, operation: string, fingerprint: string)

  predicate Enabled(w: World, e: Event) {
    match e
    case Tick(elapsed) => elapsed >= 0.0
    case Acquire(scope, owner, ttl, lag) =>
      Bounded(scope) && Bounded(owner) && Lease(ttl) && lag >= 0.0 && Free(w.fences, scope, w.now)
    case Renew(scope, owner, epoch, ttl, lag) =>
      Bounded(scope) && Bounded(owner) && epoch >= 1 && Lease(ttl) && lag >= 0.0 && Holds(w.fences, scope, owner, epoch, w.now)
    case Commit(scope, owner, epoch, agent, operation, fingerprint) =>
      epoch >= 1 && Holds(w.fences, scope, owner, epoch, w.now) && (agent, operation) !in w.effects
  }

  function Apply(w: World, e: Event): World {
    if !Enabled(w, e) then w
    else match e
      case Tick(elapsed) => w.(now := w.now + elapsed)
      case Acquire(scope, owner, ttl, lag) =>
        var f := Acquired(w.fences, scope, owner, w.now + lag + ttl);
        World(w.now + lag, f, w.effects,
              w.log + [Grant(scope, owner, f[scope].epoch, w.now, w.now + lag + ttl)])
      case Renew(scope, owner, epoch, ttl, lag) =>
        World(w.now + lag, w.fences[scope := w.fences[scope].(expires := w.now + lag + ttl)], w.effects,
              w.log + [Extension(scope, owner, epoch, w.now, w.now + lag + ttl)])
      case Commit(scope, owner, epoch, agent, operation, fingerprint) =>
        w.(effects := w.effects[(agent, operation) := Effect(fingerprint, "pg-fenced-effect:" + operation)],
           log := w.log + [Write(scope, owner, epoch, w.now, agent, operation)])
  }

  function Start(now: real): World {
    World(now, map[], map[], [])
  }

  function Run(w: World, events: seq<Event>): World {
    if |events| == 0 then w
    else Apply(Run(w, events[..|events| - 1]), events[|events| - 1])
  }

  // ----- what the log promises -----

  /**
   Two entries of one scope, earlier and later: epochs never go back, a later grant
   has a strictly larger epoch, and one epoch has one owner.
   */
  predicate InOrder(a: Entry, b: Entry) {
    && a.epoch <= b.epoch
    && a.at <= b.at
    && (b.Grant? ==> a.epoch < b.epoch)
    && (a.epoch == b.epoch ==> a.owner == b.owner)
  }

  ghost predicate Ordered(log: seq<Entry>) {
    forall i, j :: 0 <= i < j < |log| && log[i].scope == log[j].scope ==> InOrder(log[i], log[j])
  }

  /** The lease in force for a scope, read off the log alone. */
  function Latest(log: seq<Entry>, scope: string): (r: seq<Entry>)
    ensures |r| <= 1 && (r != [] ==> !r[0].Write? && r[0].scope == scope)
  {
    if |log| == 0 then []
    else
      var last := log[|log| - 1];
      if last.scope == scope && !last.Write? then [last] else Latest(log[..|log| - 1], scope)
  }

  /**
   A write or an extension happens strictly inside the lease in force, under its
   owner and epoch; a grant happens only once the previous lease is over.
   */
  predicate Timely(before: seq<Entry>, e: Entry) {
    var l := Latest(before, e.scope);
    if e.Grant? then l == [] || l[0].until <= e.at
    else l != [] && l[0].owner == e.owner && l[0].epoch == e.epoch && e.at < l[0].until
  }

  ghost predicate AllTimely(log: seq<Entry>) {
    forall k :: 0 <= k < |log| ==> Timely(log[..k], log[k])
  }

  ghost predicate OneWriteEach(log: seq<Entry>) {
    forall i, j :: 0 <= i < j < |log| && log[i].Write? && log[j].Write? ==>
      (log[i].agent, log[i].operation) != (log[j].agent, log[j].operation)
  }

  ghost predicate RowMatches(w: World, scope: string) {
    var l := Latest(w.log, scope);
    if scope in w.fences then l != [] && w.fences[scope] == Fence(l[0].owner, l[0].epoch, l[0].until) && l[0].epoch >= 1
    else l == []
  }

  ghost predicate EntryBelow(w: World, e: Entry) {
    && e.scope in w.fences
    && e.epoch <= w.fences[e.scope].epoch
    && (e.epoch == w.fences[e.scope].epoch ==> e.owner == w.fences[e.scope].owner)
    && e.at <= w.now
    && (e.Write? ==> (e.agent, e.operation) in w.effects)
  }

  ghost predicate Inv(w: World) {
    && (forall scope :: RowMatches(w, scope))
    && (forall k :: 0 <= k < |w.log| ==> EntryBelow(w, w.log[k]))
    && Ordered(w.log)
    && AllTimely(w.log)
    && OneWriteEach(w.log)
  }

  lemma OrderGrows(log: seq<Entry>, e: Entry)
    requires Ordered(log)
    requires forall k :: 0 <= k < |log| && log[k].scope == e.scope ==> InOrder(log[k], e)
    ensures Ordered(log + [e])
  {
  }

  lemma TimelyGrows(log: seq<Entry>, e: Entry)
    requires AllTimely(log) && Timely(log, e)
    ensures AllTimely(log + [e])
  {
    var log' := log + [e];
    forall k | 0 <= k < |log'| ensures Timely(log'[..k], log'[k]) {
      assert log'[..k] == log[..k];
    }
  }

  lemma LatestGrows(log: seq<Entry>, e: Entry, scope: string)
    ensures Latest(log + [e], scope) == if e.scope == scope && !e.Write? then [e] else Latest(log, scope)
  {
    assert (log + [e])[..|log|] == log;
  }

  lemma WritesGrow(w: World, e: Entry)
    requires OneWriteEach(w.log) && forall k :: 0 <= k < |w.log| ==> EntryBelow(w, w.log[k])
    requires e.Write? ==> (e.agent, e.operation) !in w.effects
    ensures OneWriteEach(w.log + [e])
  {
    var log := w.log + [e];
    forall i, j | 0 <= i < j < |log| && log[i].Write? && log[j].Write?
      ensures (log[i].agent, log[i].operation) != (log[j].agent, log[j].operation)
    {
      assert EntryBelow(w, w.log[i]);
    }
  }

  /** What one entry may do to the fence row of its scope. */
  ghost predicate Advances(w: World, w': World, n: Entry) {
    && n.scope in w'.fences && n.epoch == w'.fences[n.scope].epoch && n.owner == w'.fences[n.scope].owner && n.epoch >= 1
    && (!n.Write? ==> n.until == w'.fences[n.scope].expires)
    && (n.Write? ==> n.scope in w.fences && w'.fences[n.scope] == w.fences[n.scope])
    && (n.scope in w.fences ==> InOrder(Grant(n.scope, w.fences[n.scope].owner, w.fences[n.scope].epoch, n.at, n.at), n))
    && w'.fences - {n.scope} == w.fences - {n.scope}
    && n.at == w.now <= w'.now
    && (forall key :: key in w.effects ==> key in w'.effects)
    && (n.Write? ==> (n.agent, n.operation) in w'.effects)
  }

  lemma RowsStay(w: World, w': World, n: Entry, scope: string)
    requires w'.fences - {n.scope} == w.fences - {n.scope}
    requires scope != n.scope
    ensures scope in w'.fences <==> scope in w.fences
    ensures scope in w.fences ==> w'.fences[scope] == w.fences[scope]
  {
    assert scope in w.fences <==> scope in w.fences - {n.scope};
    assert scope in w'.fences <==> scope in w'.fences - {n.scope};
  }

  lemma AppendKeepsRows(w: World, w': World, n: Entry)
    requires forall scope :: RowMatches(w, scope)
    requires Advances(w, w', n) && w'.log == w.log + [n]
    ensures forall scope :: RowMatches(w', scope)
  {
    forall scope ensures RowMatches(w', scope) {
      assert RowMatches(w, scope);
      LatestGrows(w.log, n, scope);
      if scope != n.scope { RowsStay(w, w', n, scope); }
    }
  }

  lemma AppendKeepsBelow(w: World, w': World, n: Entry)
    requires forall k :: 0 <= k < |w.log| ==> EntryBelow(w, w.log[k])
    requires Advances(w, w', n) && w'.log == w.log + [n]
    ensures forall k :: 0 <= k < |w'.log| ==> EntryBelow(w', w'.log[k])
    ensures forall k :: 0 <= k < |w.log| && w.log[k].scope == n.scope ==> InOrder(w.log[k], n)
  {
    forall k | 0 <= k < |w.log|
      ensures EntryBelow(w', w.log[k])
      ensures w.log[k].scope == n.scope ==> InOrder(w.log[k], n)
    {
      var e := w.log[k];
      assert EntryBelow(w, e);
      if e.scope != n.scope { RowsStay(w, w', n, e.scope); }
    }
  }

  lemma StepKeepsInv(w: World, e: Event)
    requires Inv(w)
    ensures Inv(Apply(w, e))
  {
    var w' := Apply(w, e);
    if Enabled(w, e) && !e.Tick? {
      var n := w'.log[|w.log|];
      StepAdvances(w, e);
      AppendKeepsRows(w, w', n);
      AppendKeepsBelow(w, w', n);
      OrderGrows(w.log, n);
      TimelyGrows(w.log, n);
      WritesGrow(w, n);
    } else {
      forall scope ensures RowMatches(w', scope) {
        assert RowMatches(w, scope);
      }
    }
  }

  lemma StepAdvances(w: World, e: Event)
    requires Inv(w) && Enabled(w, e) && !e.Tick?
    ensures |Apply(w, e).log| == |w.log| + 1
    ensures
      var n := Apply(w, e).log[|w.log|];
      && Apply(w, e).log == w.log + [n]
      && Advances(w, Apply(w, e), n)
      && Timely(w.log, n)
      && (n.Write? ==> (n.agent, n.operation) !in w.effects)
  {
    assert RowMatches(w, e.scope);
  }

  lemma {:induction false} RunKeepsInv(w: World, events: seq<Event>)
    requires Inv(w)
    ensures Inv(Run(w, events))
  {
    if |events| > 0 {
      RunKeepsInv(w, events[..|events| - 1]);
      StepKeepsInv(Run(w, events[..|events| - 1]), events[|events| - 1]);
    }
  }

  /**
   Over every run: epochs of a scope strictly increase across grants, every effect is
   written inside its own lease and under its own epoch, effects of a scope come in
   nondecreasing epoch order, no effect of an older epoch follows a newer grant, and
   no operation is written twice.
   */
  lemma FenceSafety(now: real, events: seq<Event>)
    ensures
      var log := Run(Start(now), events).log;
      Ordered(log) && AllTimely(log) && OneWriteEach(log)
  {
    RunKeepsInv(Start(now), events);
  }

  lemma StepNeverRevives(w: World, e: Event, scope: string, owner: string, epoch: int)
    requires scope in w.fences && epoch <= w.fences[scope].epoch
    requires !Holds(w.fences, scope, owner, epoch, w.now)
    ensures
      var w' := Apply(w, e);
      && scope in w'.fences && epoch <= w'.fences[scope].epoch
      && !Holds(w'.fences, scope, owner, epoch, w'.now)
  {
  }

  /**
   A lease that is expired or superseded is never live again: in no later state of
   any run does the check accept its owner and epoch.
   */
  lemma {:induction false} DeadStaysDead(w: World, events: seq<Event>, scope: string, owner: string, epoch: int)
    requires scope in w.fences && epoch <= w.fences[scope].epoch
    requires !Holds(w.fences, scope, owner, epoch, w.now)
    ensures
      var w' := Run(w, events);
      && scope in w'.fences && epoch <= w'.fences[scope].epoch
      && !Holds(w'.fences, scope, owner, epoch, w'.now)
  {
    if |events| > 0 {
      DeadStaysDead(w, events[..|events| - 1], scope, owner, epoch);
      StepNeverRevives(Run(w, events[..|events| - 1]), events[|events| - 1], scope, owner, epoch);
    }
  }

  // ----- the stored procedures -----

  class PgFencing {
    var fences: Fences

    constructor ()
      ensures fences == map[]
    {
      fences := map[];
    }

    /** Insert-or-take-over; `checked` is the clock of the conflict test, `stamped` that of the new expiry. */
    method Acquire(scope: string, owner: string, ttl: real, checked: real, stamped: real) returns (answer: Answer)
      requires checked <= stamped
      modifies this
      ensures answer.Granted? <==> Bounded(scope) && Bounded(owner) && Lease(ttl) && Free(old(fences), scope, checked)
      ensures answer.Granted? ==> answer.epoch == NextEpoch(old(fences), scope) && Holds(fences, scope, owner, answer.epoch, stamped)
      ensures fences == if answer.Granted? then Acquired(old(fences), scope, owner, stamped + ttl) else old(fences)
    {
      if !Bounded(scope) || !Bounded(owner) || !Lease(ttl) { return Denied; }
      if scope !in fences {
        fences := fences[scope := Fence(owner, 1, stamped + ttl)];
        return Granted(1);
      }
      var row := fences[scope];
      if row.expires > checked { return Denied; }
      fences := fences[scope := Fence(owner, row.epoch + 1, stamped + ttl)];
      return Granted(row.epoch + 1);
    }

    method Renew(scope: string, owner: string, epoch: int, ttl: real, checked: real, stamped: real) returns (answer: Answer)
      requires checked <= stamped
      modifies this
      ensures answer.Granted? <==>
                Bounded(scope) && Bounded(owner) && epoch >= 1 && Lease(ttl) && Holds(old(fences), scope, owner, epoch, checked)
      ensures answer.Granted? ==> answer.epoch == epoch && scope in old(fences)
      ensures fences == if answer.Granted? then old(fences)[scope := Fence(owner, epoch, stamped + ttl)] else old(fences)
    {
      if !Bounded(scope) || !Bounded(owner) || epoch < 1 || !Lease(ttl) { return Denied; }
      if scope !in fences { return Denied; }
      var row := fences[scope];
      if row.owner != owner || row.epoch != epoch || row.expires <= checked { return Denied; }
      fences := fences[scope := row.(expires := stamped + ttl)];
      return Granted(epoch);
    }

    method Check(scope: string, owner: string, epoch: int, now: real) returns (live: bool)
      ensures live ==> Holds(fences, scope, owner, epoch, now)
      ensures Bounded(scope) && Bounded(owner) && epoch >= 1 && Holds(fences, scope, owner, epoch, now) ==> live
    {
      if !Bounded(scope) || !Bounded(owner) || epoch < 1 { return false; }
      return scope in fences && fences[scope].owner == owner && fences[scope].epoch == epoch && fences[scope].expires > now;
    }
  }

  predicate WellNamed(names: seq<string>, epoch: int) {
    (forall i :: 0 <= i < |names| ==> 1 <= |names[i]| <= 256) && epoch >= 1
  }

  datatype Written = Receipt(effect: Effect) | Malformed | StaleLeader | Duplicate

  /** The effect table lives beside the fence table, under the same row lock. */
  class FencedPostgresDestination {
    var fencing: PgFencing
    var effects: map<(string, string), Effect>

    constructor (fencing: PgFencing)
      ensures this.fencing == fencing && effects == map[]
    {
      this.fencing := fencing;
      effects := map[];
    }

    method Commit(scope: string, owner: string, epoch: int, agent: string, operation: string, fingerprint: string, now: real)
      returns (result: Written)
      modifies this`effects
      ensures result.Malformed? <==> !WellNamed([scope, owner, agent, operation, fingerprint], epoch)
      ensures result.StaleLeader? <==> !result.Malformed? && !Holds(fencing.fences, scope, owner, epoch, now)
      ensures result.Receipt? <==>
                && WellNamed([scope, owner, agent, operation, fingerprint], epoch)
                && Holds(fencing.fences, scope, owner, epoch, now)
                && (agent, operation) !in old(effects)
      ensures result.Receipt? ==> result.effect == Effect(fingerprint, "pg-fenced-effect:" + operation)
      ensures effects == if result.Receipt? then old(effects)[(agent, operation) := result.effect] else old(effects)
    {
      var names := [scope, owner, agent, operation, fingerprint];
      for i := 0 to |names|
        invariant forall j :: 0 <= j < i ==> 1 <= |names[j]| <= 256
      {
        if !(1 <= |names[i]| <= 256) { return Malformed; }
      }
      if epoch < 1 { return Malformed; }
      var receipt := Effect(fingerprint, "pg-fenced-effect:" + operation);
      if scope !in fencing.fences { return StaleLeader; }
      var row := fencing.fences[scope];
      if row.owner != owner || row.epoch != epoch || !(row.expires > now) { return StaleLeader; }
      if (agent, operation) in effects { return Duplicate; }
      effects := effects[(agent, operation) := receipt];
      return Receipt(receipt);
    }
  }
}
