/**
 The tenant's accounting tables as one object, updated in place. Each public method is
 one transaction: it checks in the order the source checks, writes table by table, and
 puts the tables back if a later check fails.
 */
module TenantStore {
  import opened Totals
  import opened Ledger
  import opened Wrappers
  import B = Budgets

  /** Any agent's exposure may be added first. */
  lemma ExposureFirst(budgets: map<string, B.Budget>, a: string)
    requires a in budgets
    ensures Sum(Exposures(budgets)) == budgets[a].spent + Sum(budgets[a].reserved) + Sum(Exposures(budgets - {a}))
    ensures |budgets - {a}| < |budgets|
  {
    SumRemove(Exposures(budgets), a);
    assert Exposures(budgets) - {a} == Exposures(budgets - {a});
    assert (budgets - {a}).Keys == budgets.Keys - {a};
  }

  // ----- an admission in two halves -----

  ghost predicate Claimable(t: Tables, r: Request) {
    && r.cost >= 0.0 && r.op !in t.operations
    && |t.records| < t.limits.maxRecords && r.op !in t.records && (t.limits.enabled ==> Fits(UsageOf(t, r.owner), t.limits, r.cost))
  }

  function Claimed(t: Tables, r: Request): Tables {
    t.(operations := t.operations[r.op := Operation(r.fingerprint, Unknown, t.now)],
       records := t.records[r.op := Record(r.fingerprint, r.owner, r.cost, t.now)])
  }

  ghost predicate Holdable(t: Tables, op: OpKey, token: string, cost: real) {
    B.Affordable(B.Pruned(BudgetOf(t, op.agent), t.now), cost) && op !in t.reservations && TokenFree(t, op.agent, token)
  }

  function Held(t: Tables, op: OpKey, token: string, cost: real): Tables {
    t.(budgets := t.budgets[op.agent := B.Reserve(BudgetOf(t, op.agent), token, cost, t.now)],
       reservations := t.reservations[op := token])
  }

  lemma AdmitInTwo(t: Tables, r: Request, token: string)
    requires r.grant.None?
    ensures Admissible(t, r, token) <==> Claimable(t, r) && Holdable(Claimed(t, r), r.op, token, r.cost)
    ensures Admit(t, r, token) == Held(Claimed(t, r), r.op, token, r.cost)
  {
    assert BudgetOf(Claimed(t, r), r.op.agent) == BudgetOf(t, r.op.agent);
    assert TokenFree(Claimed(t, r), r.op.agent, token) <==> TokenFree(t, r.op.agent, token);
  }

  // ----- approvals -----

  /** `listed` gives the approval rows in the order in which the table returns them. */
  predicate Lists(listed: seq<string>, approvals: map<string, Approval>) {
    && (forall i :: i in approvals && approvals[i].status == Approved ==> i in listed)
    && forall k :: 0 <= k < |listed| ==> listed[k] in approvals
  }

  /** The first row of the list that is an approved grant for this agent and scope. */
  predicate IsFirstGrant(listed: seq<string>, approvals: map<string, Approval>, agent: string, scope: string, id: string)
    requires Lists(listed, approvals)
  {
    exists k :: 0 <= k < |listed| && listed[k] == id && approvals[id] == Approval(agent, scope, Approved)
                && forall j :: 0 <= j < k ==> approvals[listed[j]] != Approval(agent, scope, Approved)
  }

  class Store {
    var now: real
    var operations: map<OpKey, Operation>
    var reservations: map<OpKey, string>
    var records: map<OpKey, Record>
    var budgets: map<string, B.Budget>
    var approvals: map<string, Approval>
    var limits: Limits
    const defaults: B.Budget
    /** Histories of the transactions; no check reads them. */
    var settled: seq<Settlement>
    var grants: map<OpKey, string>

    constructor (now: real, limits: Limits, defaults: B.Budget)
      ensures Books() == Tables(now, map[], map[], map[], map[], map[], limits, defaults, [], map[])
    {
      this.now, this.limits, this.defaults := now, limits, defaults;
      operations, reservations, records, budgets, approvals := map[], map[], map[], map[], map[];
      settled, grants := [], map[];
    }

    function Books(): Tables
      reads this
    {
      Tables(now, operations, reservations, records, budgets, approvals, limits, defaults, settled, grants)
    }

    method Restore(t: Tables)
      requires t.defaults == defaults
      modifies this
      ensures Books() == t
    {
      now, operations, reservations, records, budgets := t.now, t.operations, t.reservations, t.records, t.budgets;
      approvals, limits, settled, grants := t.approvals, t.limits, t.settled, t.grants;
    }

    // ----- what the quota check measures -----

    /** Spent and reserved over all agents, budget by budget. */
    method TotalExposure() returns (total: real)
      ensures total == Sum(Exposures(budgets))
    {
      total := 0.0;
      var rest := budgets;
      assert Exposures(map[]) == map[];
      while |rest| > 0
        invariant total + Sum(Exposures(rest)) == Sum(Exposures(budgets))
        decreases |rest|
      {
        var a :| a in rest;
        var held := Total(rest[a].reserved);
        ExposureFirst(rest, a);
        total := total + (rest[a].spent + held);
        rest := rest - {a};
      }
    }

    method SpendUsage(owner: string) returns (total: real, owned: real, unattributed: real)
      ensures var u := UsageOf(Books(), owner); total == u.spend && owned == u.userSpend && unattributed == u.unattributed
    {
      total := TotalExposure();
      var attributed := Total(Charged(Books()));
      owned := Total(ChargedTo(Books(), owner));
      unattributed := if total - attributed > 0.0 then total - attributed else 0.0;
      owned := owned + unattributed;
    }

    method MeasureUsage(owner: string) returns (u: Usage)
      ensures u == UsageOf(Books(), owner)
    {
      var total, owned, unattributed := SpendUsage(owner);
      u := Usage(total, owned, unattributed,
                 ActiveCount(Books()), ActiveCountOf(Books(), owner), RecentCount(Books()), RecentCountOf(Books(), owner));
    }

    // ----- the steps of an admission -----

    /** The quota hook: history capacity first, then every cap, then the record. */
    method AdmitQuota(op: OpKey, fingerprint: string, owner: string, cost: real) returns (ok: bool)
      modifies this`records
      ensures ok <==> old(|records| < limits.maxRecords && op !in records && (limits.enabled ==> Fits(UsageOf(Books(), owner), limits, cost)))
      ensures records == if ok then old(records)[op := Record(fingerprint, owner, cost, now)] else old(records)
    {
      if |records| >= limits.maxRecords { return false; }
      if limits.enabled {
        var u := MeasureUsage(owner);
        if u.spend + cost > limits.spend || u.userSpend + cost > limits.userSpend { return false; }
        if u.recent + 1 > limits.rate || u.userRecent + 1 > limits.userRate { return false; }
        if u.active + 1 > limits.maxActive || u.userActive + 1 > limits.userMaxActive { return false; }
      }
      if op in records { return false; }
      records := records[op := Record(fingerprint, owner, cost, now)];
      return true;
    }

    static method Prune(b: B.Budget, now: real) returns (p: B.Budget)
      ensures p == B.Pruned(b, now)
    {
      var kept, cutoff, i := [], now - b.window, 0;
      while i < |b.calls|
        invariant 0 <= i <= |b.calls|
        invariant kept == B.Live(b.calls[..i], cutoff)
      {
        assert b.calls[..i + 1][..i] == b.calls[..i];
        if b.calls[i] > cutoff { kept := kept + [b.calls[i]]; }
        i := i + 1;
      }
      assert b.calls[..i] == b.calls;
      p := b.(calls := kept);
    }

    static method CanAfford(b: B.Budget, cost: real) returns (ok: bool)
      ensures ok <==> B.Affordable(b, cost)
    {
      var held := Total(b.reserved);
      if b.spent + held + cost > b.spendLimit { return false; }
      return |b.calls| + |b.reserved| < b.rateLimit;
    }

    method ReserveBudget(agent: string, token: string, cost: real) returns (ok: bool)
      modifies this`budgets
      ensures ok <==> old(B.Affordable(B.Pruned(BudgetOf(Books(), agent), now), cost))
      ensures ok ==> budgets == old(budgets[agent := B.Reserve(BudgetOf(Books(), agent), token, cost, now)])
      ensures !ok ==> budgets == old(budgets[agent := B.Pruned(BudgetOf(Books(), agent), now)])
    {
      var p := Prune(BudgetOf(Books(), agent), now);
      ok := CanAfford(p, cost);
      if ok { p := p.(reserved := p.reserved[token := cost]); }
      budgets := budgets[agent := p];
    }

    method TokenAttached(agent: string, token: string) returns (found: bool)
      ensures found <==> !TokenFree(Books(), agent, token)
    {
      var rest := reservations.Keys;
      while rest != {}
        invariant rest <= reservations.Keys
        invariant forall o :: o in reservations && o !in rest && o.agent == agent ==> reservations[o] != token
        decreases |rest|
      {
        var o :| o in rest;
        if o.agent == agent && reservations[o] == token { return true; }
        rest := rest - {o};
      }
      return false;
    }

    /** The token must be pending for this agent and belong to no other operation. */
    method AttachReservation(op: OpKey, token: string) returns (ok: bool)
      modifies this`reservations
      ensures ok <==> old(Unresolved(Books(), op) && op !in reservations
                          && op.agent in budgets && token in budgets[op.agent].reserved && TokenFree(Books(), op.agent, token))
      ensures reservations == if ok then old(reservations)[op := token] else old(reservations)
    {
      if op !in operations || operations[op].state != Unknown { return false; }
      if op in reservations { return false; }
      if op.agent !in budgets || token !in budgets[op.agent].reserved { return false; }
      var attached := TokenAttached(op.agent, token);
      if attached { return false; }
      reservations := reservations[op := token];
      return true;
    }

    /** Spend the first approved grant of this agent and scope, if there is one. */
    method ConsumeApproval(agent: string, scope: string, listed: seq<string>) returns (id: Option<string>)
      requires Lists(listed, approvals)
      modifies this`approvals
      ensures id.Some? ==> IsFirstGrant(listed, old(approvals), agent, scope, id.value)
                           && approvals == old(approvals)[id.value := Approval(agent, scope, Consumed)]
      ensures id.None? ==> approvals == old(approvals) && forall i :: i in approvals ==> approvals[i] != Approval(agent, scope, Approved)
    {
      for k := 0 to |listed|
        invariant approvals == old(approvals)
        invariant forall j :: 0 <= j < k ==> approvals[listed[j]] != Approval(agent, scope, Approved)
      {
        var a := approvals[listed[k]];
        if a.status == Approved && a.agent == agent && a.scope == scope {
          approvals := approvals[listed[k] := a.(status := Consumed)];
          return Some(listed[k]);
        }
      }
      return None;
    }

    /** The claim of the operation and its quota record. */
    method Claim(r: Request) returns (ok: bool)
      modifies this`operations, this`records
      ensures ok <==> old(Claimable(Books(), r))
      ensures Books() == if ok then Claimed(old(Books()), r) else old(Books())
    {
      if r.cost < 0.0 || r.op in operations { return false; }
      ok := AdmitQuota(r.op, r.fingerprint, r.owner, r.cost);
      if ok { operations := operations[r.op := Operation(r.fingerprint, Unknown, now)]; }
    }

    /** Hold the cost and tie the token to the operation. After a refusal the budgets and reservations are unspecified. */
    method ReserveAndAttach(op: OpKey, token: string, cost: real) returns (ok: bool)
      requires Unresolved(Books(), op)
      modifies this`budgets, this`reservations
      ensures ok <==> old(Holdable(Books(), op, token, cost))
      ensures ok ==> Books() == old(Held(Books(), op, token, cost))
    {
      ok := ReserveBudget(op.agent, token, cost);
      if ok { ok := AttachReservation(op, token); }
    }

    /** Claim, quota record, reservation and token link; a refusal at any step undoes the steps before it. */
    method ClaimAndReserve(r: Request, token: string) returns (ok: bool)
      requires r.grant.None?
      modifies this
      ensures ok <==> old(Admissible(Books(), r, token))
      ensures Books() == if ok then Admit(old(Books()), r, token) else old(Books())
    {
      var before := Books();
      AdmitInTwo(before, r, token);
      ok := Claim(r);
      if !ok { return; }
      ok := ReserveAndAttach(r.op, token, r.cost);
      if !ok { Restore(before); }
    }

    /**
     The whole admission in one transaction. The grant is the first approved row that fits;
     without one, or if any other step refuses, the tables are as before.
     */
    method AdmitTransaction(r: Request, needsApproval: bool, token: string, listed: seq<string>) returns (admitted: Option<Request>)
      requires r.grant.None? && Lists(listed, approvals)
      modifies this
      ensures admitted.Some? ==>
        && admitted.value == r.(grant := admitted.value.grant) && admitted.value.grant.Some? == needsApproval
        && old(Admissible(Books(), admitted.value, token)) && Books() == Admit(old(Books()), admitted.value, token)
        && (needsApproval ==> IsFirstGrant(listed, old(approvals), r.op.agent, r.scope, admitted.value.grant.value))
      ensures admitted.None? ==>
        && Books() == old(Books())
        && forall g: Option<string> :: g.Some? == needsApproval ==> !Admissible(Books(), r.(grant := g), token)
    {
      var before := Books();
      var claimed := ClaimAndReserve(r, token);
      if !claimed {
        assert forall g: Option<string> :: Admissible(before, r.(grant := g), token) ==> Admissible(before, r, token);
        return None;
      }
      if !needsApproval { return Some(r); }
      var grant := ConsumeApproval(r.op.agent, r.scope, listed);
      if grant.None? {
        Restore(before);
        return None;
      }
      grants := grants[r.op := grant.value];
      return Some(r.(grant := grant));
    }

    // ----- settlement -----

    /** An agent without a budget gets the default one, even if the token is not held. */
    method CommitBudget(agent: string, token: string) returns (ok: bool)
      modifies this`budgets
      ensures ok <==> old(token in BudgetOf(Books(), agent).reserved)
      ensures ok ==> budgets == old(budgets[agent := B.Commit(BudgetOf(Books(), agent), token, now)])
      ensures !ok ==> budgets == old(budgets[agent := BudgetOf(Books(), agent)])
    {
      var b := BudgetOf(Books(), agent);
      ok := token in b.reserved;
      if ok {
        var cost := b.reserved[token];
        b := b.(reserved := b.reserved - {token});
        b := b.(spent := b.spent + cost);
        b := b.(calls := b.calls + [now]);
      }
      budgets := budgets[agent := b];
    }

    method ReleaseBudget(agent: string, token: string) returns (ok: bool)
      modifies this`budgets
      ensures ok <==> old(token in BudgetOf(Books(), agent).reserved)
      ensures budgets == old(budgets[agent := B.Release(BudgetOf(Books(), agent), token)])
    {
      var b := if agent in budgets then budgets[agent] else defaults;
      ok := token in b.reserved;
      budgets := budgets[agent := b.(reserved := b.reserved - {token})];
    }

    /** Only the operation's own token, at the admitted amount, settles it; the operation is already known to be unresolved. */
    method SettleOwned(op: OpKey, token: string, outcome: Outcome, expected: Option<real>) returns (ok: bool)
      modifies this`budgets, this`operations, this`settled
      ensures ok <==> outcome != Unknown && old(Settleable(Books(), op, token, expected))
      ensures ok ==> Books() == old(Settle(Books(), op, token, outcome))
      ensures !ok ==> Books() == old(Books())
    {
      if outcome == Unknown { return false; }
      if op !in operations || operations[op].state != Unknown { return false; }
      if op !in reservations || reservations[op] != token { return false; }
      if op.agent !in budgets || token !in budgets[op.agent].reserved { return false; }
      var amount := budgets[op.agent].reserved[token];
      if amount < 0.0 { return false; }
      if expected.Some? && amount != expected.value { return false; }
      var changed: bool;
      if outcome == Succeeded { changed := CommitBudget(op.agent, token); } else { changed := ReleaseBudget(op.agent, token); }
      operations := operations[op := operations[op].(state := outcome, updated := now)];
      settled := settled + [Settlement(op, token, outcome, amount, now)];
      return changed;
    }

    /** A call canceled before it was sent: release and fail, unless somebody has settled it meanwhile. */
    method AbortAdmission(op: OpKey, token: string) returns (ok: bool)
      modifies this`budgets, this`operations, this`settled
      ensures ok <==> old(Unresolved(Books(), op))
      ensures ok ==> Books() == old(Abort(Books(), op, token))
      ensures !ok ==> Books() == old(Books())
    {
      if op !in operations || operations[op].state != Unknown { return false; }
      var b := if op.agent in budgets then budgets[op.agent] else defaults;
      var held := ReleaseBudget(op.agent, token);
      if held { settled := settled + [Settlement(op, token, Failed, b.reserved[token], now)]; }
      operations := operations[op := operations[op].(state := Failed, updated := now)];
      return true;
    }
  }
}
