/**
 The shared nonce table of signed requests outside tenants. A claim samples the clock
 before it takes the write lock; the sample decides freshness, the pruning cutoff and
 the stored time, whatever the clock says when the transaction runs.
 */
module DurableReplay {
  /** The text of a nonce is its time, spelled in `width` characters, a colon and the random part. */
  datatype Nonce = Nonce(agent: string, width: nat, stamp: real, random: string)

  /** An accepted claim: the clock sampled before the lock, and the clock when it ran. */
  datatype Accepted = Accepted(nonce: Nonce, sampled: real, at: real)

  datatype Store = Store(now: real, rows: map<Nonce, real>, log: seq<Accepted>)

  /** `elapsed` passes before the transaction runs. */
  datatype Claim = Claim(nonce: Nonce, sampled: real, elapsed: real)

  predicate WellFormed(n: Nonce) {
    |n.random| >= 16 && n.width + 1 + |n.random| <= 256
  }

  predicate Fresh(n: Nonce, sampled: real, ttl: real) {
    n.stamp - ttl <= sampled <= n.stamp + ttl
  }

  function Pruned(rows: map<Nonce, real>, cutoff: real): map<Nonce, real> {
    map n | n in rows && rows[n] >= cutoff :: rows[n]
  }

  predicate Possible(s: Store, c: Claim) {
    c.elapsed >= 0.0 && c.sampled <= s.now + c.elapsed
  }

  predicate Wins(s: Store, c: Claim, ttl: real) {
    WellFormed(c.nonce) && Fresh(c.nonce, c.sampled, ttl) && c.nonce !in Pruned(s.rows, c.sampled - 2.0 * ttl)
  }

  function Apply(s: Store, c: Claim, ttl: real): Store {
    if !Possible(s, c) then s
    else
      var s' := s.(now := s.now + c.elapsed);
      if !WellFormed(c.nonce) || !Fresh(c.nonce, c.sampled, ttl) then s'
      else
        var rows := Pruned(s.rows, c.sampled - 2.0 * ttl);
        if c.nonce in rows then s'.(rows := rows)
        else s'.(rows := rows[c.nonce := c.sampled], log := s.log + [Accepted(c.nonce, c.sampled, s'.now)])
  }

  function Run(s: Store, claims: seq<Claim>, ttl: real): Store {
    if |claims| == 0 then s else Apply(Run(s, claims[..|claims| - 1], ttl), claims[|claims| - 1], ttl)
  }

  function Start(now: real): Store {
    Store(now, map[], [])
  }

  // ----- a second acceptance is late -----

  /** The claim ran after its own freshness had ended. */
  predicate Late(a: Accepted, ttl: real) {
    a.at > a.nonce.stamp + ttl
  }

  predicate EntryFits(s: Store, a: Accepted, ttl: real) {
    && Fresh(a.nonce, a.sampled, ttl) && a.sampled <= a.at <= s.now
    && (a.nonce !in s.rows ==> s.now > a.nonce.stamp + ttl)
  }

  ghost predicate Inv(s: Store, ttl: real) {
    && (forall n :: n in s.rows ==> Fresh(n, s.rows[n], ttl) && s.rows[n] <= s.now)
    && (forall i :: 0 <= i < |s.log| ==> EntryFits(s, s.log[i], ttl))
    && (forall i, j :: 0 <= i < j < |s.log| && s.log[i].nonce == s.log[j].nonce ==> Late(s.log[j], ttl))
  }

  lemma StepKeepsEntry(s: Store, c: Claim, ttl: real, a: Accepted)
    requires ttl >= 0.0 && Inv(s, ttl) && EntryFits(s, a, ttl)
    ensures EntryFits(Apply(s, c, ttl), a, ttl)
  {
  }

  lemma StepKeepsInv(s: Store, c: Claim, ttl: real)
    requires ttl >= 0.0 && Inv(s, ttl)
    ensures Inv(Apply(s, c, ttl), ttl)
  {
    var s' := Apply(s, c, ttl);
    forall i | 0 <= i < |s'.log| ensures EntryFits(s', s'.log[i], ttl) {
      if i < |s.log| { StepKeepsEntry(s, c, ttl, s.log[i]); }
    }
    forall i, j | 0 <= i < j < |s'.log| && s'.log[i].nonce == s'.log[j].nonce ensures Late(s'.log[j], ttl) {
      assert EntryFits(s, s.log[i], ttl);
    }
  }

  lemma {:induction false} RunKeepsInv(s: Store, claims: seq<Claim>, ttl: real)
    requires ttl >= 0.0 && Inv(s, ttl)
    ensures Inv(Run(s, claims, ttl), ttl)
  {
    if |claims| > 0 {
      RunKeepsInv(s, claims[..|claims| - 1], ttl);
      StepKeepsInv(Run(s, claims[..|claims| - 1], ttl), claims[|claims| - 1], ttl);
    }
  }

  /** In any run, a nonce that is accepted again is accepted by a claim that ran after the nonce's freshness ended. */
  lemma SecondClaimsAreLate(now: real, claims: seq<Claim>, ttl: real, i: nat, j: nat)
    requires ttl >= 0.0 && i < j < |Run(Start(now), claims, ttl).log|
    requires Run(Start(now), claims, ttl).log[i].nonce == Run(Start(now), claims, ttl).log[j].nonce
    ensures Late(Run(Start(now), claims, ttl).log[j], ttl)
  {
    RunKeepsInv(Start(now), claims, ttl);
  }

  // ----- and every late claim can be a second acceptance -----

  /** Some run, ending with this claim at time `at`, accepts the nonce twice. */
  ghost predicate Repeatable(n: Nonce, sampled: real, at: real, ttl: real) {
    exists now: real, claims: seq<Claim> :: RepeatsIn(now, claims, n, sampled, at, ttl)
  }

  predicate RepeatsIn(now: real, claims: seq<Claim>, n: Nonce, sampled: real, at: real, ttl: real) {
    var log := Run(Start(now), claims, ttl).log;
    && |log| > 1 && log[|log| - 1] == Accepted(n, sampled, at)
    && exists i :: 0 <= i < |log| - 1 && log[i].nonce == n
  }

  /** One claim early, one of somebody else's that prunes it, and the stalled second claim. */
  function Stalled(n: Nonce, sampled: real, at: real, ttl: real): seq<Claim> {
    [Claim(n, n.stamp - ttl, 0.0),
     Claim(Nonce(n.agent + "'", n.width, at, n.random), at, at - (n.stamp - ttl)),
     Claim(n, sampled, 0.0)]
  }

  lemma RunThree(s: Store, claims: seq<Claim>, ttl: real)
    requires |claims| == 3
    ensures Run(s, claims, ttl) == Apply(Apply(Apply(s, claims[0], ttl), claims[1], ttl), claims[2], ttl)
  {
    assert claims[..2][..1] == claims[..1] && claims[..1][..0] == [];
    assert Run(s, claims[..1], ttl) == Apply(s, claims[0], ttl);
    assert Run(s, claims[..2], ttl) == Apply(Apply(s, claims[0], ttl), claims[1], ttl);
  }

  lemma StalledRepeats(n: Nonce, sampled: real, at: real, ttl: real)
    requires ttl >= 0.0 && WellFormed(n) && Fresh(n, sampled, ttl) && sampled <= at && n.stamp + ttl < at
    ensures RepeatsIn(n.stamp - ttl, Stalled(n, sampled, at, ttl), n, sampled, at, ttl)
  {
    var claims, now := Stalled(n, sampled, at, ttl), n.stamp - ttl;
    var other := Nonce(n.agent + "'", n.width, at, n.random);
    assert |other.agent| == |n.agent| + 1;
    var s1 := Apply(Start(now), claims[0], ttl);
    assert s1 == Store(now, map[n := now], [Accepted(n, now, now)]);
    var s2 := Apply(s1, claims[1], ttl);
    assert Pruned(s1.rows, at - 2.0 * ttl) == map[];
    assert s2.rows == map[other := at] && s2.now == at;
    var s3 := Apply(s2, claims[2], ttl);
    assert s3.log == [Accepted(n, now, now), Accepted(other, at, at), Accepted(n, sampled, at)];
    RunThree(Start(now), claims, ttl);
    assert s3.log[0].nonce == n;
  }

  /**
   A well-formed, fresh claim can be a replay exactly when it runs after the nonce's own
   freshness has ended. A caller that refuses such a claim makes every nonce single-use.
   */
  lemma RepeatableIffLate(n: Nonce, sampled: real, at: real, ttl: real)
    requires ttl >= 0.0 && WellFormed(n) && Fresh(n, sampled, ttl) && sampled <= at
    ensures Repeatable(n, sampled, at, ttl) <==> n.stamp + ttl < at
  {
    if n.stamp + ttl < at {
      StalledRepeats(n, sampled, at, ttl);
    }
    forall now: real, claims: seq<Claim> | RepeatsIn(now, claims, n, sampled, at, ttl) ensures n.stamp + ttl < at {
      var log := Run(Start(now), claims, ttl).log;
      var i :| 0 <= i < |log| - 1 && log[i].nonce == n;
      SecondClaimsAreLate(now, claims, ttl, i, |log| - 1);
    }
  }

  /** When the clock does not move between the sample and the transaction, every nonce is accepted at most once. */
  lemma {:induction false} PromptClaimsAreUnique(now: real, claims: seq<Claim>, ttl: real)
    requires ttl >= 0.0
    requires forall k :: 0 <= k < |claims| ==> Prompt(Run(Start(now), claims[..k], ttl), claims[k])
    ensures forall i, j :: 0 <= i < j < |Run(Start(now), claims, ttl).log| ==>
              Run(Start(now), claims, ttl).log[i].nonce != Run(Start(now), claims, ttl).log[j].nonce
    ensures forall i :: 0 <= i < |Run(Start(now), claims, ttl).log| ==>
              Run(Start(now), claims, ttl).log[i].sampled == Run(Start(now), claims, ttl).log[i].at
  {
    if |claims| > 0 {
      var front, c := claims[..|claims| - 1], claims[|claims| - 1];
      forall k | 0 <= k < |front| ensures Prompt(Run(Start(now), front[..k], ttl), front[k]) {
        assert front[..k] == claims[..k] && Prompt(Run(Start(now), claims[..k], ttl), claims[k]);
      }
      PromptClaimsAreUnique(now, front, ttl);
      assert Prompt(Run(Start(now), front, ttl), c);
      RunKeepsInv(Start(now), claims, ttl);
      var log := Run(Start(now), claims, ttl).log;
      forall i, j | 0 <= i < j < |log| ensures log[i].nonce != log[j].nonce {
        assert EntryFits(Run(Start(now), claims, ttl), log[j], ttl);
        assert log[j].sampled == log[j].at;
      }
    }
  }

  predicate Prompt(s: Store, c: Claim) {
    c.sampled == s.now + c.elapsed
  }

  // ----- the store object -----

  class NonceStore {
    var now: real
    var rows: map<Nonce, real>
    ghost var log: seq<Accepted>

    constructor (now: real)
      ensures Snapshot() == Start(now)
    {
      this.now := now;
      rows, log := map[], [];
    }

    ghost function Snapshot(): Store
      reads this
    {
      Store(now, rows, log)
    }

    /** `elapsed` is the wait for the write lock. */
    method ClaimNonce(nonce: Nonce, sampled: real, elapsed: real, ttl: real) returns (ok: bool)
      requires elapsed >= 0.0 && sampled <= now + elapsed
      modifies this
      ensures ok <==> old(Wins(Snapshot(), Claim(nonce, sampled, elapsed), ttl))
      ensures Snapshot() == old(Apply(Snapshot(), Claim(nonce, sampled, elapsed), ttl))
    {
      now := now + elapsed;
      if nonce.width + 1 + |nonce.random| > 256 { return false; }
      if |nonce.random| < 16 { return false; }
      if sampled - nonce.stamp > ttl || nonce.stamp - sampled > ttl { return false; }
      var cutoff := sampled - 2.0 * ttl;
      rows := map n | n in rows && rows[n] >= cutoff :: rows[n];
      if nonce in rows { return false; }
      rows := rows[nonce := sampled];
      log := log + [Accepted(nonce, sampled, now)];
      return true;
    }
  }
}
