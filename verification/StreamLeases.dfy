/** Fleet-wide stream allocations: leases with a sliding expiry, a fixed deadline, and caps for the fleet, each tenant and each owner. */
module StreamLeases {
  datatype Lease = Lease(id: string, tenant: string, owner: string, scope: string)

  datatype Row = Row(lease: Lease, expires: real, deadline: real)

  datatype Limits = Limits(maxStreams: int, maxPerTenant: int, maxPerOwner: int, lease: real, life: real)

  /** `granted` remembers when each identity was allocated. */
  datatype State = State(now: real, rows: map<string, Row>, granted: map<string, real>)

  datatype Event =
    | Advance(elapsed: real)
    | Acquire(lease: Lease)
    | Renew(lease: Lease)
    | Release(lease: Lease)

  predicate ValidLimits(l: Limits) {
    && 1 <= l.maxStreams <= 10000 && 1 <= l.maxPerTenant <= 10000 && 1 <= l.maxPerOwner <= 10000
    && 0.05 <= l.lease <= 30.0 && 0.05 <= l.life <= 3600.0 && l.lease <= l.life
  }

  predicate IsLive(r: Row, now: real) {
    r.expires > now && r.deadline > now
  }

  predicate Live(s: State, id: string) {
    id in s.rows && IsLive(s.rows[id], s.now)
  }

  function Pruned(rows: map<string, Row>, now: real): map<string, Row> {
    map id | id in rows && IsLive(rows[id], now) :: rows[id]
  }

  function OfTenant(rows: map<string, Row>, tenant: string): set<string> {
    set id | id in rows && rows[id].lease.tenant == tenant
  }

  function OfOwner(rows: map<string, Row>, owner: string): set<string> {
    set id | id in rows && rows[id].lease.owner == owner
  }

  predicate HasRoom(rows: map<string, Row>, a: Lease, l: Limits) {
    |rows| < l.maxStreams && |OfTenant(rows, a.tenant)| < l.maxPerTenant && |OfOwner(rows, a.owner)| < l.maxPerOwner
  }

  /** A fresh identity is never one that was issued before. */
  predicate Acquires(s: State, a: Lease, l: Limits) {
    a.id !in s.granted && a.id !in s.rows && HasRoom(Pruned(s.rows, s.now), a, l)
  }

  predicate Renews(s: State, a: Lease) {
    Live(s, a.id) && s.rows[a.id].lease == a
  }

  function Min(x: real, y: real): real {
    if x <= y then x else y
  }

  function Apply(s: State, e: Event, l: Limits): State {
    match e
    case Advance(elapsed) => if elapsed >= 0.0 then s.(now := s.now + elapsed) else s
    case Acquire(a) =>
      if !Acquires(s, a, l) then s
      else State(s.now, Pruned(s.rows, s.now)[a.id := Row(a, s.now + l.lease, s.now + l.life)], s.granted[a.id := s.now])
    case Renew(a) =>
      if !Renews(s, a) then s
      else s.(rows := s.rows[a.id := s.rows[a.id].(expires := Min(s.now + l.lease, s.rows[a.id].deadline))])
    case Release(a) =>
      if a.id in s.rows && s.rows[a.id].lease == a then s.(rows := s.rows - {a.id}) else s
  }

  function Run(s: State, events: seq<Event>, l: Limits): State {
    if |events| == 0 then s else Apply(Run(s, events[..|events| - 1], l), events[|events| - 1], l)
  }

  // ----- caps -----

  ghost predicate Capped(rows: map<string, Row>, l: Limits) {
    && |rows| <= l.maxStreams
    && (forall t :: |OfTenant(rows, t)| <= l.maxPerTenant)
    && (forall o :: |OfOwner(rows, o)| <= l.maxPerOwner)
  }

  /** The expiry never passes the deadline, and the deadline is the one set when the lease was granted. */
  predicate RowFits(s: State, id: string, l: Limits)
    requires id in s.rows
  {
    var r := s.rows[id];
    && r.lease.id == id && id in s.granted
    && r.expires <= r.deadline && r.deadline == s.granted[id] + l.life && s.granted[id] <= s.now
  }

  ghost predicate Inv(s: State, l: Limits) {
    Capped(s.rows, l) && forall id :: id in s.rows ==> RowFits(s, id, l)
  }

  lemma SubsetSize<T>(a: set<T>, b: set<T>)
    requires a <= b
    ensures |a| <= |b|
  {
    assert b == a + (b - a);
  }

  lemma FewerCapped(rows: map<string, Row>, fewer: map<string, Row>, l: Limits)
    requires Capped(rows, l) && (forall id :: id in fewer ==> id in rows && fewer[id].lease == rows[id].lease)
    ensures Capped(fewer, l)
  {
    SubsetSize(fewer.Keys, rows.Keys);
    forall t ensures |OfTenant(fewer, t)| <= l.maxPerTenant { SubsetSize(OfTenant(fewer, t), OfTenant(rows, t)); }
    forall o ensures |OfOwner(fewer, o)| <= l.maxPerOwner { SubsetSize(OfOwner(fewer, o), OfOwner(rows, o)); }
  }

  lemma AddedSets(rows: map<string, Row>, id: string, r: Row, t: string)
    requires id !in rows
    ensures OfTenant(rows[id := r], t) == if t == r.lease.tenant then OfTenant(rows, t) + {id} else OfTenant(rows, t)
    ensures OfOwner(rows[id := r], t) == if t == r.lease.owner then OfOwner(rows, t) + {id} else OfOwner(rows, t)
  {
  }

  lemma AddedCapped(rows: map<string, Row>, r: Row, l: Limits)
    requires Capped(rows, l) && HasRoom(rows, r.lease, l) && r.lease.id !in rows
    ensures Capped(rows[r.lease.id := r], l)
  {
    var more := rows[r.lease.id := r];
    assert more.Keys == rows.Keys + {r.lease.id};
    forall t ensures |OfTenant(more, t)| <= l.maxPerTenant { AddedSets(rows, r.lease.id, r, t); }
    forall o ensures |OfOwner(more, o)| <= l.maxPerOwner { AddedSets(rows, r.lease.id, r, o); }
  }

  lemma PrunedCapped(rows: map<string, Row>, now: real, l: Limits)
    requires Capped(rows, l)
    ensures Capped(Pruned(rows, now), l)
  {
    FewerCapped(rows, Pruned(rows, now), l);
  }

  lemma AcquireCapped(s: State, a: Lease, l: Limits)
    requires Capped(s.rows, l) && Acquires(s, a, l)
    ensures Capped(Apply(s, Acquire(a), l).rows, l)
  {
    var live, row := Pruned(s.rows, s.now), Row(a, s.now + l.lease, s.now + l.life);
    PrunedCapped(s.rows, s.now, l);
    AddedCapped(live, row, l);
    assert Apply(s, Acquire(a), l).rows == live[a.id := row];
  }

  lemma StepKeepsRow(s: State, e: Event, l: Limits, id: string)
    requires ValidLimits(l) && id in Apply(s, e, l).rows && (id in s.rows ==> RowFits(s, id, l))
    ensures RowFits(Apply(s, e, l), id, l)
  {
  }

  lemma StepKeepsInv(s: State, e: Event, l: Limits)
    requires ValidLimits(l) && Inv(s, l)
    ensures Inv(Apply(s, e, l), l)
  {
    var s' := Apply(s, e, l);
    if e.Acquire? && Acquires(s, e.lease, l) {
      AcquireCapped(s, e.lease, l);
    } else {
      FewerCapped(s.rows, s'.rows, l);
    }
    forall id | id in s'.rows ensures RowFits(s', id, l) { StepKeepsRow(s, e, l, id); }
  }

  /** In every reachable state the fleet, tenant and owner caps hold and no lease outlives the deadline it started with. */
  lemma {:induction false} CapsHold(now: real, events: seq<Event>, l: Limits)
    requires ValidLimits(l)
    ensures Inv(Run(State(now, map[], map[]), events, l), l)
  {
    if |events| > 0 {
      CapsHold(now, events[..|events| - 1], l);
      StepKeepsInv(Run(State(now, map[], map[]), events[..|events| - 1], l), events[|events| - 1], l);
    } else {
      var none: map<string, Row> := map[];
      forall t ensures |OfTenant(none, t)| <= l.maxPerTenant { assert OfTenant(none, t) == {}; }
      forall o ensures |OfOwner(none, o)| <= l.maxPerOwner { assert OfOwner(none, o) == {}; }
    }
  }

  // ----- no revival -----

  lemma StepNeverRevives(s: State, e: Event, l: Limits, id: string)
    requires id in s.granted && !Live(s, id)
    ensures id in Apply(s, e, l).granted && !Live(Apply(s, e, l), id)
    ensures Apply(s, e, l).granted[id] == s.granted[id]
  {
  }

  /** An allocation that has expired or been released is never live again. */
  lemma {:induction false} DeadStaysDead(s: State, events: seq<Event>, l: Limits, id: string)
    requires id in s.granted && !Live(s, id)
    ensures id in Run(s, events, l).granted && !Live(Run(s, events, l), id)
    ensures Run(s, events, l).granted[id] == s.granted[id]
  {
    if |events| > 0 {
      DeadStaysDead(s, events[..|events| - 1], l, id);
      StepNeverRevives(Run(s, events[..|events| - 1], l), events[|events| - 1], l, id);
    }
  }

  /** A live lease is younger than the configured lifetime, however often it was renewed. */
  lemma LifetimeBounded(now: real, events: seq<Event>, l: Limits, id: string)
    requires ValidLimits(l) && Live(Run(State(now, map[], map[]), events, l), id)
    ensures var s := Run(State(now, map[], map[]), events, l);
      id in s.granted && s.granted[id] <= s.now < s.granted[id] + l.life
  {
    CapsHold(now, events, l);
    assert RowFits(Run(State(now, map[], map[]), events, l), id, l);
  }

  /** Release takes away the caller's own row or nothing, and every other row stays. */
  lemma ReleaseRemovesOwn(s: State, a: Lease, l: Limits, id: string)
    requires forall k :: k in s.rows ==> s.rows[k].lease.id == k
    ensures id in Apply(s, Release(a), l).rows <==> id in s.rows && s.rows[id].lease != a
    ensures id in Apply(s, Release(a), l).rows ==> Apply(s, Release(a), l).rows[id] == s.rows[id]
  {
  }

  // ----- the lease table object -----

  class LeaseTable {
    const limits: Limits
    var now: real
    var rows: map<string, Row>
    ghost var granted: map<string, real>

    constructor (limits: Limits, now: real)
      ensures this.limits == limits && Snapshot() == State(now, map[], map[])
    {
      this.limits, this.now := limits, now;
      rows, granted := map[], map[];
    }

    ghost function Snapshot(): State
      reads this
    {
      State(now, rows, granted)
    }

    method Allocate(a: Lease) returns (ok: bool)
      requires a.id !in granted && a.id !in rows
      modifies this`rows, this`granted
      ensures ok <==> old(HasRoom(Pruned(rows, now), a, limits))
      ensures Snapshot() == old(Apply(Snapshot(), Acquire(a), limits))
    {
      var live := map id | id in rows && rows[id].expires > now && rows[id].deadline > now :: rows[id];
      assert live == Pruned(rows, now);
      var total, tenant, owner := |live|, |OfTenant(live, a.tenant)|, |OfOwner(live, a.owner)|;
      if total >= limits.maxStreams || tenant >= limits.maxPerTenant || owner >= limits.maxPerOwner { return false; }
      rows := live[a.id := Row(a, now + limits.lease, now + limits.life)];
      granted := granted[a.id := now];
      return true;
    }

    method Extend(a: Lease) returns (ok: bool)
      modifies this`rows
      ensures ok <==> old(Renews(Snapshot(), a))
      ensures Snapshot() == old(Apply(Snapshot(), Renew(a), limits))
    {
      if a.id !in rows || rows[a.id].lease != a { return false; }
      var row := rows[a.id];
      if row.expires <= now || row.deadline <= now { return false; }
      var until := now + limits.lease;
      if row.deadline < until { until := row.deadline; }
      rows := rows[a.id := row.(expires := until)];
      return true;
    }

    method Free(a: Lease)
      modifies this`rows
      ensures Snapshot() == old(Apply(Snapshot(), Release(a), limits))
    {
      if a.id in rows && rows[a.id].lease == a { rows := rows - {a.id}; }
    }
  }
}
