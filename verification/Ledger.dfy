/**
 The tenant's accounting tables: claimed operations, their budget reservations, the
 per-agent budgets, the admission quota records and one-shot approvals. Every
 admission and every settlement is one transaction over these tables.
 */
module Ledger {
  import opened Totals
  import opened Wrappers
  import B = Budgets

  datatype OpKey = OpKey(agent: string, operation: string)

  datatype Outcome = Unknown | Succeeded | Failed

  datatype Operation = Operation(fingerprint: string, state: Outcome, updated: real)

  datatype Record = Record(fingerprint: string, owner: string, cost: real, admitted: real)

  datatype Status = Pending | Approved | Refused | Consumed

  datatype Approval = Approval(agent: string, scope: string, status: Status)

  datatype Limits = Limits(
    enabled: bool,
    spend: real,
    userSpend: real,
    rate: int,
    userRate: int,
    window: real,
    maxActive: int,
    userMaxActive: int,
    maxRecords: int)

  /** One committed or released reservation, in the order of the transactions. */
  datatype Settlement = Settlement(op: OpKey, token: string, outcome: Outcome, amount: real, at: real)

  /** `settled` and `grants` are histories: no transaction reads them. */
  datatype Tables = Tables(
    now: real,
    operations: map<OpKey, Operation>,
    reservations: map<OpKey, string>,
    records: map<OpKey, Record>,
    budgets: map<string, B.Budget>,
    approvals: map<string, Approval>,
    limits: Limits,
    defaults: B.Budget,
    settled: seq<Settlement>,
    grants: map<OpKey, string>)

  /** `grant` names the approval row to consume when the policy decision requires one. */
  datatype Request = Request(op: OpKey, fingerprint: string, owner: string, cost: real, grant: Option<string>, scope: string)

  function BudgetOf(t: Tables, agent: string): B.Budget {
    if agent in t.budgets then t.budgets[agent] else t.defaults
  }

  // ----- usage, as the quota check reads it -----

  ghost function Exposures(budgets: map<string, B.Budget>): map<string, real> {
    map a | a in budgets :: B.Exposure(budgets[a])
  }

  predicate Charges(t: Tables, o: OpKey) {
    o in t.records && o in t.operations && t.operations[o].state != Failed
  }

  function Charged(t: Tables): map<OpKey, real> {
    map o | o in t.records && Charges(t, o) :: t.records[o].cost
  }

  function ChargedTo(t: Tables, owner: string): map<OpKey, real> {
    map o | o in t.records && Charges(t, o) && t.records[o].owner == owner :: t.records[o].cost
  }

  predicate IsActive(t: Tables, o: OpKey) {
    o in t.records && o in t.operations && t.operations[o].state == Unknown
  }

  function Active(t: Tables): set<OpKey> {
    set o | o in t.records && IsActive(t, o)
  }

  function ActiveOf(t: Tables, owner: string): set<OpKey> {
    set o | o in t.records && IsActive(t, o) && t.records[o].owner == owner
  }

  function Since(t: Tables, time: real): set<OpKey> {
    set o | o in t.records && o in t.operations && t.records[o].admitted > time
  }

  function SinceOf(t: Tables, owner: string, time: real): set<OpKey> {
    set o | o in t.records && o in t.operations && t.records[o].admitted > time && t.records[o].owner == owner
  }

  /** Operations that predate the quota table count against every owner. */
  function LegacyActive(t: Tables): set<OpKey> {
    set o | o in t.operations && o !in t.records && t.operations[o].state == Unknown
  }

  function LegacySince(t: Tables, time: real): set<OpKey> {
    set o | o in t.operations && o !in t.records && (t.operations[o].state == Unknown || t.operations[o].updated > time)
  }

  function ActiveCount(t: Tables): int {
    |Active(t)| + |LegacyActive(t)|
  }

  function ActiveCountOf(t: Tables, owner: string): int {
    |ActiveOf(t, owner)| + |LegacyActive(t)|
  }

  function RecentCount(t: Tables): int {
    |Since(t, t.now - t.limits.window)| + |LegacySince(t, t.now - t.limits.window)|
  }

  function RecentCountOf(t: Tables, owner: string): int {
    |SinceOf(t, owner, t.now - t.limits.window)| + |LegacySince(t, t.now - t.limits.window)|
  }

  datatype Usage = Usage(spend: real, userSpend: real, unattributed: real,
                         active: int, userActive: int, recent: int, userRecent: int)

  ghost function UsageOf(t: Tables, owner: string): Usage {
    var total := Sum(Exposures(t.budgets));
    var loose := total - Sum(Charged(t));
    var unattributed := if loose > 0.0 then loose else 0.0;
    Usage(total, Sum(ChargedTo(t, owner)) + unattributed, unattributed,
          ActiveCount(t), ActiveCountOf(t, owner), RecentCount(t), RecentCountOf(t, owner))
  }

  predicate Fits(u: Usage, l: Limits, cost: real) {
    && u.spend + cost <= l.spend
    && u.userSpend + cost <= l.userSpend
    && u.recent + 1 <= l.rate
    && u.userRecent + 1 <= l.userRate
    && u.active + 1 <= l.maxActive
    && u.userActive + 1 <= l.userMaxActive
  }

  // ----- the transactions -----

  predicate TokenFree(t: Tables, agent: string, token: string) {
    forall o :: o in t.reservations && o.agent == agent ==> t.reservations[o] != token
  }

  predicate GrantReady(t: Tables, r: Request) {
    r.grant.Some? ==> r.grant.value in t.approvals && t.approvals[r.grant.value] == Approval(r.op.agent, r.scope, Approved)
  }

  ghost predicate Admissible(t: Tables, r: Request, token: string) {
    && r.cost >= 0.0
    && r.op !in t.operations
    && r.op !in t.records
    && |t.records| < t.limits.maxRecords
    && (t.limits.enabled ==> Fits(UsageOf(t, r.owner), t.limits, r.cost))
    && B.Affordable(B.Pruned(BudgetOf(t, r.op.agent), t.now), r.cost)
    && r.op !in t.reservations
    && TokenFree(t, r.op.agent, token)
    && GrantReady(t, r)
  }

  /** Claim, quota record, reservation, token link and consumed approval, all or nothing. */
  function Admit(t: Tables, r: Request, token: string): Tables {
    t.(operations := t.operations[r.op := Operation(r.fingerprint, Unknown, t.now)],
       records := t.records[r.op := Record(r.fingerprint, r.owner, r.cost, t.now)],
       reservations := t.reservations[r.op := token],
       budgets := t.budgets[r.op.agent := B.Reserve(BudgetOf(t, r.op.agent), token, r.cost, t.now)],
       approvals := if r.grant.Some? then t.approvals[r.grant.value := Approval(r.op.agent, r.scope, Consumed)] else t.approvals,
       grants := if r.grant.Some? then t.grants[r.op := r.grant.value] else t.grants)
  }

  predicate Unresolved(t: Tables, o: OpKey) {
    o in t.operations && t.operations[o].state == Unknown
  }

  /** The checks of an owned settlement, under the operation lock. */
  predicate Settleable(t: Tables, o: OpKey, token: string, expected: Option<real>) {
    && Unresolved(t, o)
    && o in t.reservations && t.reservations[o] == token
    && o.agent in t.budgets && token in t.budgets[o.agent].reserved
    && t.budgets[o.agent].reserved[token] >= 0.0
    && (expected.Some? ==> t.budgets[o.agent].reserved[token] == expected.value)
  }

  function Finish(t: Tables, o: OpKey, outcome: Outcome): Tables
    requires o in t.operations
  {
    t.(operations := t.operations[o := t.operations[o].(state := outcome, updated := t.now)])
  }

  function Settle(t: Tables, o: OpKey, token: string, outcome: Outcome): Tables
    requires Settleable(t, o, token, None)
  {
    var b := t.budgets[o.agent];
    var b' := if outcome == Succeeded then B.Commit(b, token, t.now) else B.Release(b, token);
    Finish(t.(budgets := t.budgets[o.agent := b'],
              settled := t.settled + [Settlement(o, token, outcome, b.reserved[token], t.now)]), o, outcome)
  }

  /** The abort before invocation releases whatever it finds and does not look at the answer. */
  function Abort(t: Tables, o: OpKey, token: string): Tables
    requires Unresolved(t, o)
  {
    var b := BudgetOf(t, o.agent);
    var held := token in b.reserved;
    Finish(t.(budgets := t.budgets[o.agent := B.Release(b, token)],
              settled := if held then t.settled + [Settlement(o, token, Failed, b.reserved[token], t.now)] else t.settled), o, Failed)
  }

  // ----- what every transaction keeps -----

  predicate ValidLimits(l: Limits) {
    && l.spend >= 0.0 && l.userSpend >= 0.0 && l.window >= 1.0
    && l.rate >= 1 && l.userRate >= 1 && l.maxActive >= 1 && l.userMaxActive >= 1 && l.maxRecords >= 1
  }

  /** One operation's rows agree in every table. */
  predicate Agrees(t: Tables, o: OpKey)
    requires o in t.operations
  {
    && o in t.reservations && o in t.records && o.agent in t.budgets
    && t.records[o].fingerprint == t.operations[o].fingerprint
    && t.records[o].cost >= 0.0
    && t.records[o].admitted <= t.now
    && (t.operations[o].state == Unknown <==> t.reservations[o] in t.budgets[o.agent].reserved)
    && (t.operations[o].state == Unknown ==> t.budgets[o.agent].reserved[t.reservations[o]] == t.records[o].cost)
  }

  ghost predicate Books(t: Tables) {
    && t.reservations.Keys == t.operations.Keys
    && t.records.Keys == t.operations.Keys
    && (forall o :: o in t.operations ==> Agrees(t, o))
  }

  ghost predicate TokensDistinct(t: Tables) {
    forall o, p :: o in t.reservations && p in t.reservations && o != p && o.agent == p.agent ==> t.reservations[o] != t.reservations[p]
  }

  ghost predicate Owned(t: Tables, agent: string, token: string) {
    exists o :: o in t.reservations && o.agent == agent && t.reservations[o] == token
  }

  /** No reservation exists outside an operation. */
  ghost predicate AllOwned(t: Tables) {
    forall a, k :: a in t.budgets && k in t.budgets[a].reserved ==> Owned(t, a, k)
  }

  predicate IsPaid(t: Tables, a: string, o: OpKey) {
    o in t.records && o in t.operations && o.agent == a && t.operations[o].state == Succeeded
  }

  function Paid(t: Tables, a: string): map<OpKey, real> {
    map o | o in t.records && IsPaid(t, a, o) :: t.records[o].cost
  }

  /** Every agent has paid for its succeeded operations once each, and for nothing else. */
  ghost predicate ChargedOnce(t: Tables) {
    forall a :: a in t.budgets ==> t.budgets[a].spent == Sum(Paid(t, a))
  }

  /** Spent plus reserved over all agents is the cost of the unknown and succeeded operations. */
  ghost predicate Conserved(t: Tables) {
    Sum(Exposures(t.budgets)) == Sum(Charged(t))
  }

  ghost predicate BudgetsWithin(t: Tables) {
    forall a :: a in t.budgets ==> B.WithinSpend(t.budgets[a])
  }

  /** The settlement log: one entry for each operation that has left UNKNOWN, and it names the truth. */
  ghost predicate Logged(t: Tables) {
    && (forall i, j :: 0 <= i < j < |t.settled| ==> t.settled[i].op != t.settled[j].op)
    && (forall i :: 0 <= i < |t.settled| ==> EntryTrue(t, t.settled[i]))
    && (forall o :: o in t.operations && t.operations[o].state != Unknown ==> HasEntry(t, o))
  }

  predicate EntryTrue(t: Tables, s: Settlement) {
    && s.op in t.operations && s.op in t.reservations && s.op in t.records
    && s.outcome != Unknown
    && t.operations[s.op].state == s.outcome
    && s.token == t.reservations[s.op]
    && s.amount == t.records[s.op].cost
    && s.at == t.operations[s.op].updated
  }

  ghost predicate HasEntry(t: Tables, o: OpKey) {
    exists i :: 0 <= i < |t.settled| && t.settled[i].op == o
  }

  /** Each approval is spent by at most one operation, and stays consumed. */
  ghost predicate GrantsOnce(t: Tables) {
    && (forall o :: o in t.grants ==> o in t.operations && t.grants[o] in t.approvals && GrantSpent(t, o))
    && (forall o, p :: o in t.grants && p in t.grants && o != p ==> t.grants[o] != t.grants[p])
  }

  predicate GrantSpent(t: Tables, o: OpKey)
    requires o in t.grants && t.grants[o] in t.approvals
  {
    t.approvals[t.grants[o]].status == Consumed && t.approvals[t.grants[o]].agent == o.agent
  }

  ghost predicate Sound(t: Tables) {
    && B.Fresh(t.defaults)
    && Books(t) && TokensDistinct(t) && AllOwned(t)
    && ChargedOnce(t) && Conserved(t) && BudgetsWithin(t)
    && Logged(t) && GrantsOnce(t)
  }

  // ----- admission -----

  /** The part of an admission the books depend on: a new operation, a new token, a nonnegative cost. */
  predicate Claims(t: Tables, r: Request, token: string) {
    r.cost >= 0.0 && r.op !in t.operations && TokenFree(t, r.op.agent, token) && GrantReady(t, r)
  }

  lemma TokenUnheld(t: Tables, agent: string, token: string)
    requires AllOwned(t) && B.Fresh(t.defaults) && TokenFree(t, agent, token)
    ensures token !in BudgetOf(t, agent).reserved
  {
    assert agent in t.budgets && token in t.budgets[agent].reserved ==> Owned(t, agent, token);
  }

  lemma ReservedExposure(b: B.Budget, token: string, cost: real, now: real)
    requires token !in b.reserved
    ensures B.Exposure(B.Reserve(b, token, cost, now)) == B.Exposure(b) + cost
  {
    SumPut(b.reserved, token, cost);
  }

  lemma AdmitBooks(t: Tables, r: Request, token: string)
    requires B.Fresh(t.defaults) && Books(t) && Claims(t, r, token) && token !in BudgetOf(t, r.op.agent).reserved
    ensures Books(Admit(t, r, token))
  {
    var t' := Admit(t, r, token);
    forall o | o in t'.operations ensures Agrees(t', o) {
      if o != r.op { assert Agrees(t, o); }
    }
  }

  lemma AdmitTokens(t: Tables, r: Request, token: string)
    requires B.Fresh(t.defaults) && t.reservations.Keys == t.operations.Keys && TokensDistinct(t) && AllOwned(t) && Claims(t, r, token)
    ensures TokensDistinct(Admit(t, r, token)) && AllOwned(Admit(t, r, token))
  {
    var t' := Admit(t, r, token);
    forall a, k | a in t'.budgets && k in t'.budgets[a].reserved ensures Owned(t', a, k) {
      if a == r.op.agent && k == token {
        assert t'.reservations[r.op] == token;
      } else {
        assert Owned(t, a, k);
        var o :| o in t.reservations && o.agent == a && t.reservations[o] == k;
        assert t'.reservations[o] == k;
      }
    }
  }

  lemma AdmitWithin(t: Tables, r: Request, token: string)
    requires B.Fresh(t.defaults) && BudgetsWithin(t) && r.cost >= 0.0
    requires B.Affordable(B.Pruned(BudgetOf(t, r.op.agent), t.now), r.cost)
    ensures BudgetsWithin(Admit(t, r, token))
  {
    var b := B.Pruned(BudgetOf(t, r.op.agent), t.now);
    assert B.WithinSpend(b);
    B.SpendReserved(b, token, r.cost);
  }

  lemma AdmitCharged(t: Tables, r: Request, token: string)
    requires r.op !in t.operations
    ensures Charged(Admit(t, r, token)) == Charged(t)[r.op := r.cost]
  {
  }

  lemma AdmitExposures(t: Tables, r: Request, token: string)
    ensures Exposures(Admit(t, r, token).budgets) ==
            Exposures(t.budgets)[r.op.agent := B.Exposure(B.Reserve(BudgetOf(t, r.op.agent), token, r.cost, t.now))]
  {
  }

  lemma AdmitPaid(t: Tables, r: Request, token: string, a: string)
    requires r.op !in t.operations
    ensures Paid(Admit(t, r, token), a) == Paid(t, a)
  {
  }

  lemma AdmitTotal(t: Tables, r: Request, token: string)
    requires B.Fresh(t.defaults) && r.op !in t.operations && token !in BudgetOf(t, r.op.agent).reserved
    ensures Sum(Exposures(Admit(t, r, token).budgets)) == Sum(Exposures(t.budgets)) + r.cost
    ensures Sum(Charged(Admit(t, r, token))) == Sum(Charged(t)) + r.cost
  {
    var b := BudgetOf(t, r.op.agent);
    ReservedExposure(b, token, r.cost, t.now);
    AdmitExposures(t, r, token);
    SumPut(Exposures(t.budgets), r.op.agent, B.Exposure(B.Reserve(b, token, r.cost, t.now)));
    AdmitCharged(t, r, token);
    SumPut(Charged(t), r.op, r.cost);
  }

  lemma NothingPaidYet(t: Tables, a: string)
    requires Books(t) && a !in t.budgets
    ensures Paid(t, a) == map[]
  {
    assert forall o :: o in t.operations && o.agent == a ==> Agrees(t, o);
  }

  lemma AdmitSpent(t: Tables, r: Request, token: string)
    requires B.Fresh(t.defaults) && Books(t) && ChargedOnce(t) && r.op !in t.operations
    ensures ChargedOnce(Admit(t, r, token))
  {
    var t' := Admit(t, r, token);
    forall a | a in t'.budgets ensures t'.budgets[a].spent == Sum(Paid(t', a)) {
      AdmitPaid(t, r, token, a);
      if a !in t.budgets { NothingPaidYet(t, a); }
    }
  }

  lemma AdmitLogged(t: Tables, r: Request, token: string)
    requires Logged(t) && r.op !in t.operations
    ensures Logged(Admit(t, r, token))
  {
    var t' := Admit(t, r, token);
    forall i | 0 <= i < |t'.settled| ensures EntryTrue(t', t'.settled[i]) {
      assert EntryTrue(t, t.settled[i]);
    }
    forall o | o in t'.operations && t'.operations[o].state != Unknown ensures HasEntry(t', o) {
      assert HasEntry(t, o);
    }
  }

  lemma AdmitGrants(t: Tables, r: Request, token: string)
    requires GrantsOnce(t) && r.op !in t.operations && GrantReady(t, r)
    ensures GrantsOnce(Admit(t, r, token))
  {
    forall o | o in t.grants ensures r.grant.Some? ==> t.grants[o] != r.grant.value {
      assert GrantSpent(t, o);
    }
  }

  /** An admission keeps the books, and touches only its own operation. */
  lemma AdmitSound(t: Tables, r: Request, token: string)
    requires Sound(t) && Admissible(t, r, token)
    ensures Sound(Admit(t, r, token))
  {
    TokenUnheld(t, r.op.agent, token);
    AdmitBooks(t, r, token);
    AdmitTokens(t, r, token);
    AdmitWithin(t, r, token);
    AdmitTotal(t, r, token);
    AdmitSpent(t, r, token);
    AdmitLogged(t, r, token);
    AdmitGrants(t, r, token);
  }

  // ----- settlement -----

  lemma SettleBooks(t: Tables, o: OpKey, token: string, outcome: Outcome)
    requires Books(t) && TokensDistinct(t) && Settleable(t, o, token, None) && outcome != Unknown
    ensures Books(Settle(t, o, token, outcome))
  {
    var t' := Settle(t, o, token, outcome);
    forall p | p in t'.operations ensures Agrees(t', p) {
      assert Agrees(t, p);
      if p != o && p.agent == o.agent { assert t.reservations[p] != token; }
    }
  }

  lemma SettleTokens(t: Tables, o: OpKey, token: string, outcome: Outcome)
    requires TokensDistinct(t) && AllOwned(t) && Settleable(t, o, token, None)
    ensures TokensDistinct(Settle(t, o, token, outcome)) && AllOwned(Settle(t, o, token, outcome))
  {
    var t' := Settle(t, o, token, outcome);
    forall a, k | a in t'.budgets && k in t'.budgets[a].reserved ensures Owned(t', a, k) {
      assert Owned(t, a, k);
    }
  }

  lemma SettleWithin(t: Tables, o: OpKey, token: string, outcome: Outcome)
    requires BudgetsWithin(t) && Settleable(t, o, token, None)
    ensures BudgetsWithin(Settle(t, o, token, outcome))
  {
    var b := t.budgets[o.agent];
    B.SpendReleased(b, token);
    B.CommitConserves(b, token, t.now);
    assert B.WithinSpend(Settle(t, o, token, outcome).budgets[o.agent]);
  }

  lemma SettleCharged(t: Tables, o: OpKey, token: string, outcome: Outcome)
    requires Settleable(t, o, token, None) && outcome != Unknown
    ensures Charged(Settle(t, o, token, outcome)) == if outcome == Succeeded then Charged(t) else Charged(t) - {o}
  {
  }

  lemma SettleExposures(t: Tables, o: OpKey, token: string, outcome: Outcome)
    requires Settleable(t, o, token, None)
    ensures Exposures(Settle(t, o, token, outcome).budgets) ==
            Exposures(t.budgets)[o.agent := B.Exposure(Settle(t, o, token, outcome).budgets[o.agent])]
  {
  }

  lemma SettlePaid(t: Tables, o: OpKey, token: string, outcome: Outcome, a: string)
    requires Settleable(t, o, token, None) && outcome != Unknown && o in t.records
    ensures Paid(Settle(t, o, token, outcome), a) ==
            if a == o.agent && outcome == Succeeded then Paid(t, a)[o := t.records[o].cost] else Paid(t, a)
  {
  }

  lemma SettleTotal(t: Tables, o: OpKey, token: string, outcome: Outcome)
    requires Settleable(t, o, token, None) && outcome != Unknown
    requires o in t.records && t.budgets[o.agent].reserved[token] == t.records[o].cost
    ensures
      var cost := if outcome == Succeeded then 0.0 else t.records[o].cost;
      && Sum(Exposures(Settle(t, o, token, outcome).budgets)) == Sum(Exposures(t.budgets)) - cost
      && Sum(Charged(Settle(t, o, token, outcome))) == Sum(Charged(t)) - cost
  {
    var t' := Settle(t, o, token, outcome);
    var b' := t'.budgets[o.agent];
    SumRemove(t.budgets[o.agent].reserved, token);
    SettleExposures(t, o, token, outcome);
    SumPut(Exposures(t.budgets), o.agent, B.Exposure(b'));
    SettleCharged(t, o, token, outcome);
    if outcome != Succeeded { SumRemove(Charged(t), o); }
  }

  lemma SettleSpent(t: Tables, o: OpKey, token: string, outcome: Outcome)
    requires ChargedOnce(t) && Settleable(t, o, token, None) && outcome != Unknown
    requires o in t.records && t.budgets[o.agent].reserved[token] == t.records[o].cost
    ensures ChargedOnce(Settle(t, o, token, outcome))
  {
    var t' := Settle(t, o, token, outcome);
    forall a | a in t'.budgets ensures t'.budgets[a].spent == Sum(Paid(t', a)) {
      SettlePaid(t, o, token, outcome, a);
      SumPut(Paid(t, a), o, t.records[o].cost);
    }
  }

  lemma SettleLogged(t: Tables, o: OpKey, token: string, outcome: Outcome)
    requires Logged(t) && Settleable(t, o, token, None) && outcome != Unknown
    requires o in t.records && t.budgets[o.agent].reserved[token] == t.records[o].cost
    ensures Logged(Settle(t, o, token, outcome))
  {
    var t' := Settle(t, o, token, outcome);
    forall i | 0 <= i < |t'.settled| ensures EntryTrue(t', t'.settled[i]) && (i < |t.settled| ==> t.settled[i].op != o) {
      if i < |t.settled| { assert EntryTrue(t, t.settled[i]); }
    }
    forall p | p in t'.operations && t'.operations[p].state != Unknown ensures HasEntry(t', p) {
      if p == o {
        assert t'.settled[|t.settled|].op == p;
      } else {
        assert HasEntry(t, p);
        var i :| 0 <= i < |t.settled| && t.settled[i].op == p;
        assert t'.settled[i].op == p;
      }
    }
  }

  lemma SettleGrants(t: Tables, o: OpKey, token: string, outcome: Outcome)
    requires GrantsOnce(t) && Settleable(t, o, token, None)
    ensures GrantsOnce(Settle(t, o, token, outcome))
  {
    var t' := Settle(t, o, token, outcome);
    forall p | p in t'.grants ensures GrantSpent(t', p) { assert GrantSpent(t, p); }
  }

  /** A settlement keeps the books. */
  lemma SettleSound(t: Tables, o: OpKey, token: string, outcome: Outcome)
    requires Sound(t) && Settleable(t, o, token, None) && outcome != Unknown
    ensures Sound(Settle(t, o, token, outcome))
  {
    assert Agrees(t, o);
    SettleBooks(t, o, token, outcome);
    SettleTokens(t, o, token, outcome);
    SettleWithin(t, o, token, outcome);
    SettleTotal(t, o, token, outcome);
    SettleSpent(t, o, token, outcome);
    SettleLogged(t, o, token, outcome);
    SettleGrants(t, o, token, outcome);
  }

  /**
   On sound books an unresolved operation can always be settled with its own token,
   and the unchecked abort is exactly a settlement as failed.
   */
  lemma UnresolvedSettles(t: Tables, o: OpKey)
    requires Books(t) && Unresolved(t, o)
    ensures o in t.reservations && o in t.records
    ensures Settleable(t, o, t.reservations[o], Some(t.records[o].cost))
    ensures Abort(t, o, t.reservations[o]) == Settle(t, o, t.reservations[o], Failed)
  {
    assert Agrees(t, o);
  }

  // ----- what usage means -----

  /** An operation that an owner answers for: its own, or one that nobody is recorded for. */
  predicate AnswersFor(t: Tables, owner: string, o: OpKey) {
    o in t.records ==> t.records[o].owner == owner
  }

  predicate IsRecent(t: Tables, o: OpKey, since: real)
    requires o in t.operations
  {
    if o in t.records then t.records[o].admitted > since else t.operations[o].state == Unknown || t.operations[o].updated > since
  }

  function UnknownOperations(t: Tables): set<OpKey> {
    set o | o in t.operations && t.operations[o].state == Unknown
  }

  function RecentOperations(t: Tables, since: real): set<OpKey> {
    set o | o in t.operations && IsRecent(t, o, since)
  }

  function Answered(t: Tables, owner: string, operations: set<OpKey>): set<OpKey> {
    set o | o in operations && AnswersFor(t, owner, o)
  }

  lemma ActiveParts(t: Tables, owner: string)
    ensures UnknownOperations(t) == Active(t) + LegacyActive(t)
    ensures Answered(t, owner, UnknownOperations(t)) == ActiveOf(t, owner) + LegacyActive(t)
    ensures Active(t) !! LegacyActive(t) && ActiveOf(t, owner) !! LegacyActive(t)
  {
  }

  lemma RecentParts(t: Tables, owner: string, since: real)
    ensures RecentOperations(t, since) == Since(t, since) + LegacySince(t, since)
    ensures Answered(t, owner, RecentOperations(t, since)) == SinceOf(t, owner, since) + LegacySince(t, since)
    ensures Since(t, since) !! LegacySince(t, since) && SinceOf(t, owner, since) !! LegacySince(t, since)
  {
  }

  lemma SumOfSizes<T>(whole: set<T>, a: set<T>, b: set<T>)
    requires whole == a + b && a !! b
    ensures |whole| == |a| + |b|
  {
  }

  /** Every unknown operation counts once for the tenant, and once for each owner that answers for it. */
  lemma ActiveCountsAll(t: Tables, owner: string)
    ensures ActiveCount(t) == |UnknownOperations(t)|
    ensures ActiveCountOf(t, owner) == |Answered(t, owner, UnknownOperations(t))|
  {
    ActiveParts(t, owner);
    SumOfSizes(UnknownOperations(t), Active(t), LegacyActive(t));
    SumOfSizes(Answered(t, owner, UnknownOperations(t)), ActiveOf(t, owner), LegacyActive(t));
  }

  /** So does every operation admitted in the window, and every one without a record that is unknown or was touched in it. */
  lemma RecentCountsAll(t: Tables, owner: string)
    ensures RecentCount(t) == |RecentOperations(t, t.now - t.limits.window)|
    ensures RecentCountOf(t, owner) == |Answered(t, owner, RecentOperations(t, t.now - t.limits.window))|
  {
    var since := t.now - t.limits.window;
    RecentParts(t, owner, since);
    SumOfSizes(RecentOperations(t, since), Since(t, since), LegacySince(t, since));
    SumOfSizes(Answered(t, owner, RecentOperations(t, since)), SinceOf(t, owner, since), LegacySince(t, since));
  }

  function ChargedToOthers(t: Tables, owner: string): map<OpKey, real> {
    map o | o in t.records && Charges(t, o) && t.records[o].owner != owner :: t.records[o].cost
  }

  lemma ChargedSplits(t: Tables, owner: string)
    ensures Sum(Charged(t)) == Sum(ChargedTo(t, owner)) + Sum(ChargedToOthers(t, owner))
  {
    assert Charged(t) == ChargedTo(t, owner) + ChargedToOthers(t, owner);
    SumSplit(Charged(t), ChargedTo(t, owner), ChargedToOthers(t, owner));
  }

  /** On any tables, an owner is charged for all spend that is not recorded against somebody else. */
  lemma SpendHidesNothing(t: Tables, owner: string)
    ensures UsageOf(t, owner).userSpend >= UsageOf(t, owner).spend - Sum(ChargedToOthers(t, owner))
  {
    ChargedSplits(t, owner);
  }

  // ----- quotas -----

  function Window(t: Tables, lo: real, width: real): set<OpKey> {
    set o | o in t.records && lo < t.records[o].admitted <= lo + width
  }

  function WindowOf(t: Tables, owner: string, lo: real, width: real): set<OpKey> {
    set o | o in t.records && lo < t.records[o].admitted <= lo + width && t.records[o].owner == owner
  }

  ghost predicate SpendCapped(t: Tables, l: Limits) {
    && Sum(Exposures(t.budgets)) <= l.spend
    && (forall w :: Sum(ChargedTo(t, w)) <= l.userSpend)
  }

  ghost predicate ActiveCapped(t: Tables, l: Limits) {
    && |Active(t)| <= l.maxActive
    && (forall w :: |ActiveOf(t, w)| <= l.userMaxActive)
  }

  ghost predicate RateCapped(t: Tables, l: Limits) {
    && (forall lo: real :: |Window(t, lo, l.window)| <= l.rate)
    && (forall w, lo: real :: |WindowOf(t, w, lo, l.window)| <= l.userRate)
  }

  ghost predicate Capped(t: Tables, l: Limits) {
    SpendCapped(t, l) && ActiveCapped(t, l) && RateCapped(t, l)
  }

  /** The books attribute all usage: nothing is charged to every owner. */
  lemma NothingUnattributed(t: Tables, owner: string)
    requires Conserved(t)
    ensures UsageOf(t, owner).unattributed == 0.0
    ensures UsageOf(t, owner).userSpend == Sum(ChargedTo(t, owner))
  {
  }

  lemma AdmitChargedTo(t: Tables, r: Request, token: string, w: string)
    requires r.op !in t.operations
    ensures ChargedTo(Admit(t, r, token), w) == if w == r.owner then ChargedTo(t, w)[r.op := r.cost] else ChargedTo(t, w)
  {
  }

  lemma AdmitActive(t: Tables, r: Request, token: string, w: string)
    requires r.op !in t.operations
    ensures Active(Admit(t, r, token)) == Active(t) + {r.op}
    ensures ActiveOf(Admit(t, r, token), w) == if w == r.owner then ActiveOf(t, w) + {r.op} else ActiveOf(t, w)
  {
  }

  lemma AdmitWindow(t: Tables, r: Request, token: string, lo: real, width: real)
    requires r.op !in t.records
    ensures Window(Admit(t, r, token), lo, width) == if lo < t.now <= lo + width then Window(t, lo, width) + {r.op} else Window(t, lo, width)
  {
    var t' := Admit(t, r, token);
    assert t'.records == t.records[r.op := Record(r.fingerprint, r.owner, r.cost, t.now)];
  }

  lemma AdmitWindowOf(t: Tables, r: Request, token: string, w: string, lo: real, width: real)
    requires r.op !in t.records
    ensures WindowOf(Admit(t, r, token), w, lo, width) ==
            if lo < t.now <= lo + width && w == r.owner then WindowOf(t, w, lo, width) + {r.op} else WindowOf(t, w, lo, width)
  {
    var t' := Admit(t, r, token);
    assert t'.records == t.records[r.op := Record(r.fingerprint, r.owner, r.cost, t.now)];
  }

  lemma UserSpendCapped(t: Tables, r: Request, token: string, w: string)
    requires r.op !in t.operations
    requires Sum(ChargedTo(t, w)) + (if w == r.owner then r.cost else 0.0) <= t.limits.userSpend
    ensures Sum(ChargedTo(Admit(t, r, token), w)) <= t.limits.userSpend
  {
    AdmitChargedTo(t, r, token, w);
    SumPut(ChargedTo(t, w), r.op, r.cost);
  }

  lemma AdmitSpendCapped(t: Tables, r: Request, token: string)
    requires B.Fresh(t.defaults) && r.op !in t.operations && token !in BudgetOf(t, r.op.agent).reserved
    requires SpendCapped(t, t.limits) && Sum(Exposures(t.budgets)) + r.cost <= t.limits.spend
    requires Sum(ChargedTo(t, r.owner)) + r.cost <= t.limits.userSpend
    ensures SpendCapped(Admit(t, r, token), t.limits)
  {
    AdmitTotal(t, r, token);
    forall w ensures Sum(ChargedTo(Admit(t, r, token), w)) <= t.limits.userSpend {
      UserSpendCapped(t, r, token, w);
    }
  }

  lemma AdmitActiveCapped(t: Tables, r: Request, token: string)
    requires r.op !in t.operations && ActiveCapped(t, t.limits)
    requires |Active(t)| + 1 <= t.limits.maxActive && |ActiveOf(t, r.owner)| + 1 <= t.limits.userMaxActive
    ensures ActiveCapped(Admit(t, r, token), t.limits)
  {
    AdmitActive(t, r, token, r.owner);
    forall w ensures |ActiveOf(Admit(t, r, token), w)| <= t.limits.userMaxActive {
      AdmitActive(t, r, token, w);
    }
  }

  lemma SubsetSize<T>(a: set<T>, b: set<T>)
    requires a <= b
    ensures |a| <= |b|
  {
    assert b == a + (b - a);
  }

  /** A window that contains the new record ends after it, so the check has counted all of it. */
  lemma AdmitWindowCapped(t: Tables, r: Request, token: string, lo: real, width: real, limit: int)
    requires t.records.Keys == t.operations.Keys && r.op !in t.records
    requires |Window(t, lo, width)| <= limit && |Since(t, t.now - width)| + 1 <= limit
    ensures |Window(Admit(t, r, token), lo, width)| <= limit
  {
    AdmitWindow(t, r, token, lo, width);
    if lo < t.now <= lo + width { SubsetSize(Window(t, lo, width), Since(t, t.now - width)); }
  }

  lemma AdmitWindowOfCapped(t: Tables, r: Request, token: string, w: string, lo: real, width: real, limit: int)
    requires t.records.Keys == t.operations.Keys && r.op !in t.records
    requires |WindowOf(t, w, lo, width)| <= limit
    requires w == r.owner ==> |SinceOf(t, w, t.now - width)| + 1 <= limit
    ensures |WindowOf(Admit(t, r, token), w, lo, width)| <= limit
  {
    AdmitWindowOf(t, r, token, w, lo, width);
    if lo < t.now <= lo + width && w == r.owner { SubsetSize(WindowOf(t, w, lo, width), SinceOf(t, w, t.now - width)); }
  }

  lemma AdmitRateCapped(t: Tables, r: Request, token: string)
    requires t.records.Keys == t.operations.Keys && r.op !in t.operations && RateCapped(t, t.limits)
    requires |Since(t, t.now - t.limits.window)| + 1 <= t.limits.rate
    requires |SinceOf(t, r.owner, t.now - t.limits.window)| + 1 <= t.limits.userRate
    ensures RateCapped(Admit(t, r, token), t.limits)
  {
    forall lo: real ensures |Window(Admit(t, r, token), lo, t.limits.window)| <= t.limits.rate {
      AdmitWindowCapped(t, r, token, lo, t.limits.window, t.limits.rate);
    }
    forall w, lo: real ensures |WindowOf(Admit(t, r, token), w, lo, t.limits.window)| <= t.limits.userRate {
      AdmitWindowOfCapped(t, r, token, w, lo, t.limits.window, t.limits.userRate);
    }
  }

  /** What the quota check establishes on sound books. */
  lemma FitsSpend(t: Tables, r: Request)
    requires Conserved(t) && Fits(UsageOf(t, r.owner), t.limits, r.cost)
    ensures Sum(Exposures(t.budgets)) + r.cost <= t.limits.spend
    ensures Sum(ChargedTo(t, r.owner)) + r.cost <= t.limits.userSpend
  {
    NothingUnattributed(t, r.owner);
  }

  lemma FitsCounts(t: Tables, r: Request)
    requires Fits(UsageOf(t, r.owner), t.limits, r.cost)
    ensures ActiveCount(t) + 1 <= t.limits.maxActive && ActiveCountOf(t, r.owner) + 1 <= t.limits.userMaxActive
    ensures RecentCount(t) + 1 <= t.limits.rate && RecentCountOf(t, r.owner) + 1 <= t.limits.userRate
  {
  }

  lemma RecordedActive(t: Tables, owner: string)
    ensures |Active(t)| <= ActiveCount(t) && |ActiveOf(t, owner)| <= ActiveCountOf(t, owner)
  {
  }

  lemma RecordedRecent(t: Tables, owner: string)
    ensures |Since(t, t.now - t.limits.window)| <= RecentCount(t)
    ensures |SinceOf(t, owner, t.now - t.limits.window)| <= RecentCountOf(t, owner)
  {
  }

  /** Under enabled limits an admission stays within every cap. */
  lemma AdmitCapped(t: Tables, r: Request, token: string)
    requires Sound(t) && t.limits.enabled && Admissible(t, r, token) && Capped(t, t.limits)
    ensures Capped(Admit(t, r, token), t.limits)
  {
    TokenUnheld(t, r.op.agent, token);
    FitsSpend(t, r);
    FitsCounts(t, r);
    RecordedActive(t, r.owner);
    RecordedRecent(t, r.owner);
    AdmitSpendCapped(t, r, token);
    AdmitActiveCapped(t, r, token);
    AdmitRateCapped(t, r, token);
  }

  lemma SettleChargedTo(t: Tables, o: OpKey, token: string, outcome: Outcome, w: string)
    requires Settleable(t, o, token, None) && outcome != Unknown
    ensures ChargedTo(Settle(t, o, token, outcome), w) == if outcome == Succeeded then ChargedTo(t, w) else ChargedTo(t, w) - {o}
  {
  }

  lemma CostsNonNegative(t: Tables, w: string)
    requires Books(t)
    ensures NonNegative(ChargedTo(t, w))
  {
    assert forall p :: p in t.operations ==> Agrees(t, p);
  }

  lemma SettleSpendCapped(t: Tables, l: Limits, o: OpKey, token: string, outcome: Outcome)
    requires Books(t) && Settleable(t, o, token, None) && outcome != Unknown && SpendCapped(t, l)
    ensures SpendCapped(Settle(t, o, token, outcome), l)
  {
    var t' := Settle(t, o, token, outcome);
    assert Agrees(t, o);
    SettleTotal(t, o, token, outcome);
    forall w ensures Sum(ChargedTo(t', w)) <= l.userSpend {
      SettleChargedTo(t, o, token, outcome, w);
      CostsNonNegative(t, w);
      SumDropBelow(ChargedTo(t, w), o);
    }
  }

  lemma SettleActiveCapped(t: Tables, l: Limits, o: OpKey, token: string, outcome: Outcome)
    requires Settleable(t, o, token, None) && outcome != Unknown && ActiveCapped(t, l)
    ensures ActiveCapped(Settle(t, o, token, outcome), l)
  {
    var t' := Settle(t, o, token, outcome);
    SubsetSize(Active(t'), Active(t));
    forall w ensures |ActiveOf(t', w)| <= l.userMaxActive { SubsetSize(ActiveOf(t', w), ActiveOf(t, w)); }
  }

  lemma RateDependsOnRecords(t: Tables, t': Tables, l: Limits)
    requires RateCapped(t, l) && t'.records == t.records
    ensures RateCapped(t', l)
  {
    forall lo: real ensures |Window(t', lo, l.window)| <= l.rate { assert Window(t', lo, l.window) == Window(t, lo, l.window); }
    forall w, lo: real ensures |WindowOf(t', w, lo, l.window)| <= l.userRate {
      assert WindowOf(t', w, lo, l.window) == WindowOf(t, w, lo, l.window);
    }
  }

  /** A settlement can only preserve or reduce what the caps measure. */
  lemma SettleCapped(t: Tables, l: Limits, o: OpKey, token: string, outcome: Outcome)
    requires Books(t) && Settleable(t, o, token, None) && outcome != Unknown && Capped(t, l)
    ensures Capped(Settle(t, o, token, outcome), l)
  {
    SettleSpendCapped(t, l, o, token, outcome);
    SettleActiveCapped(t, l, o, token, outcome);
    RateDependsOnRecords(t, Settle(t, o, token, outcome), l);
  }
}
