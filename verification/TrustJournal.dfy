/**
 Controller-signed key histories. Each domain's history is a chain of signed registry
 envelopes; a journal instance revalidates the whole chain on every use and pins the
 highest revision it has settled with or published.
 */
module TrustJournal {
  import opened KeyRegistry
  import opened Wrappers

  datatype Domain = Destination | Readback

  /** An ideal digest: equal digests have equal signed fields, and none is the all-zero predecessor. */
  datatype Digest = Zero | Sha(domain: Domain, revision: int, previous: Digest, keys: seq<Key>)

  datatype Envelope = Envelope(domain: Domain, revision: int, previous: Digest, keys: seq<Key>, signature: string)

  /** A stored revision; `None` is text that no longer parses. */
  datatype Row = Row(revision: int, envelope: Option<Envelope>)

  function DigestOf(e: Envelope): Digest {
    Sha(e.domain, e.revision, e.previous, e.keys)
  }

  predicate Leq(a: string, b: string) {
    if |a| == 0 then true
    else if |b| == 0 then false
    else if a[0] != b[0] then a[0] < b[0]
    else Leq(a[1..], b[1..])
  }

  predicate InOrder(keys: seq<Key>) {
    forall i, j :: 0 <= i < j < |keys| ==> Leq(keys[i].id, keys[j].id)
  }

  /** `trusted` holds the envelopes whose signature verifies under the pinned controller of their domain. */
  ghost predicate Verified(e: Envelope, trusted: set<Envelope>) {
    1 <= e.revision <= 2147483647 && |e.keys| <= 128 && ValidKeys(e.keys) && InOrder(e.keys) && e in trusted
  }

  predicate Parses(h: seq<Row>) {
    forall i :: 0 <= i < |h| ==> h[i].envelope.Some?
  }

  function RegistryAt(h: seq<Row>, i: int): Registry
    requires 0 <= i < |h| && h[i].envelope.Some?
  {
    RegistryOf(h[i].envelope.value.keys)
  }

  /** The digest that the row after the first `i` rows must name. */
  function HeadAt(h: seq<Row>, i: int): Digest
    requires 0 <= i <= |h| && Parses(h)
  {
    if i == 0 then Zero else DigestOf(h[i - 1].envelope.value)
  }

  ghost predicate RowOk(h: seq<Row>, i: int, domain: Domain, trusted: set<Envelope>)
    requires 0 <= i < |h| && Parses(h)
  {
    var e := h[i].envelope.value;
    && Verified(e, trusted)
    && h[i].revision == i + 1 && e.revision == i + 1 && e.domain == domain
    && e.previous == HeadAt(h, i)
    && (i > 0 ==> Rotates(RegistryAt(h, i - 1), RegistryAt(h, i)))
  }

  /** Full revalidation of a stored history. */
  ghost predicate Loads(h: seq<Row>, domain: Domain, trusted: set<Envelope>) {
    Parses(h) && forall i :: 0 <= i < |h| ==> RowOk(h, i, domain, trusted)
  }

  lemma PrefixLoads(h: seq<Row>, n: nat, domain: Domain, trusted: set<Envelope>)
    requires Loads(h, domain, trusted) && n <= |h|
    ensures Loads(h[..n], domain, trusted)
  {
    forall i | 0 <= i < n ensures RowOk(h[..n], i, domain, trusted) { assert RowOk(h, i, domain, trusted); }
  }

  // ----- lifecycle over whole histories -----

  /** However many rotations apart, keys persist with their material, move forward only, and an active domain stays active. */
  lemma {:induction false} HistoryEvolves(h: seq<Row>, i: nat, j: nat, domain: Domain, trusted: set<Envelope>)
    requires Loads(h, domain, trusted) && i <= j < |h|
    ensures Evolves(RegistryAt(h, i), RegistryAt(h, j))
    decreases j
  {
    if i < j {
      HistoryEvolves(h, i, j - 1, domain, trusted);
      assert RowOk(h, j, domain, trusted);
      EvolvesTransitive(RegistryAt(h, i), RegistryAt(h, j - 1), RegistryAt(h, j));
    }
  }

  lemma RegistryConsistent(h: seq<Row>, i: nat, domain: Domain, trusted: set<Envelope>)
    requires Loads(h, domain, trusted) && i < |h|
    ensures Consistent(RegistryAt(h, i))
  {
    assert RowOk(h, i, domain, trusted);
    ValidIsConsistent(h[i].envelope.value.keys);
  }

  /** Key material never moves to another identity, in any two registries of one history. */
  lemma MaterialNeverReassigned(h: seq<Row>, i: nat, j: nat, k: string, l: string, domain: Domain, trusted: set<Envelope>)
    requires Loads(h, domain, trusted) && i <= j < |h|
    requires k in RegistryAt(h, i) && l in RegistryAt(h, j) && k != l
    ensures Lower(RegistryAt(h, i)[k].material) != Lower(RegistryAt(h, j)[l].material)
  {
    HistoryEvolves(h, i, j, domain, trusted);
    RegistryConsistent(h, j, domain, trusted);
    assert Succeeds(RegistryAt(h, i)[k], RegistryAt(h, j)[k]);
  }

  /** A key that was not there at first entered the history staged. */
  lemma {:induction false} StagedFirst(h: seq<Row>, j: nat, k: string, domain: Domain, trusted: set<Envelope>) returns (i: nat)
    requires Loads(h, domain, trusted) && j < |h| && k in RegistryAt(h, j) && k !in RegistryAt(h, 0)
    ensures 0 < i <= j && k in RegistryAt(h, i) && k !in RegistryAt(h, i - 1) && RegistryAt(h, i)[k].state == Staged
    decreases j
  {
    assert RowOk(h, j, domain, trusted);
    if k in RegistryAt(h, j - 1) { i := StagedFirst(h, j - 1, k, domain, trusted); } else { i := j; }
  }

  // ----- publication -----

  /** The incremental check on top of an accepted history. */
  ghost predicate Extends(h: seq<Row>, e: Envelope, domain: Domain, trusted: set<Envelope>)
    requires Parses(h)
  {
    && Verified(e, trusted) && e.domain == domain
    && e.revision == |h| + 1 && e.previous == HeadAt(h, |h|)
    && (|h| > 0 ==> Rotates(RegistryAt(h, |h| - 1), RegistryOf(e.keys)))
  }

  function Extended(h: seq<Row>, e: Envelope): seq<Row> {
    h + [Row(|h| + 1, Some(e))]
  }

  /** Checking one envelope against the head accepts exactly what revalidating everything would. */
  lemma PublishRefinesLoad(h: seq<Row>, e: Envelope, domain: Domain, trusted: set<Envelope>)
    requires Loads(h, domain, trusted)
    ensures Extends(h, e, domain, trusted) <==> Loads(Extended(h, e), domain, trusted)
  {
    var h' := Extended(h, e);
    if Extends(h, e, domain, trusted) {
      forall i | 0 <= i < |h'| ensures RowOk(h', i, domain, trusted) { if i < |h| { assert RowOk(h, i, domain, trusted); } }
    }
    if Loads(h', domain, trusted) {
      assert RowOk(h', |h|, domain, trusted);
    }
  }

  lemma RowExtends(h: seq<Row>, i: nat, domain: Domain, trusted: set<Envelope>)
    requires Loads(h, domain, trusted) && i < |h|
    ensures Loads(h[..i], domain, trusted)
    ensures h[i].revision == i + 1 && Extends(h[..i], h[i].envelope.value, domain, trusted)
  {
    PrefixLoads(h, i, domain, trusted);
    assert RowOk(h, i, domain, trusted);
  }

  /** Two accepted histories with one head digest are the same history, in every signed field. */
  lemma {:induction false} SameHeadSameHistory(g: seq<Row>, h: seq<Row>, domain: Domain, trusted: set<Envelope>)
    requires Loads(g, domain, trusted) && Loads(h, domain, trusted)
    requires HeadAt(g, |g|) == HeadAt(h, |h|)
    ensures |g| == |h|
    ensures forall i :: 0 <= i < |g| ==> DigestOf(g[i].envelope.value) == DigestOf(h[i].envelope.value)
  {
    if |g| > 0 {
      var m, n := |g| - 1, |h| - 1;
      assert RowOk(g, m, domain, trusted);
      assert RowOk(h, n, domain, trusted);
      PrefixLoads(g, m, domain, trusted);
      PrefixLoads(h, n, domain, trusted);
      SameHeadSameHistory(g[..m], h[..n], domain, trusted);
      forall i | 0 <= i < |g| ensures DigestOf(g[i].envelope.value) == DigestOf(h[i].envelope.value) {
        if i < m { assert g[i] == g[..m][i] && h[i] == h[..n][i]; }
      }
    }
  }

  // ----- one instance against a store that may be rolled back -----

  datatype Store = Store(destination: seq<Row>, readback: seq<Row>)

  datatype Floors = Floors(destination: int, readback: int)

  datatype Resolution = Resolution(domain: Domain, key: string, revision: int)

  /** `log` lists the keys the instance has handed out, in order. */
  datatype Instance = Instance(floors: Floors, log: seq<Resolution>)

  /** Every call meets whatever the store then holds. */
  datatype Call =
    | Settle(store: Store, destinationKey: string, observerKey: string)
    | Publish(store: Store, envelope: Envelope, room: bool)

  function Of(s: Store, d: Domain): seq<Row> {
    if d == Destination then s.destination else s.readback
  }

  function FloorOf(f: Floors, d: Domain): int {
    if d == Destination then f.destination else f.readback
  }

  function SetFloor(f: Floors, d: Domain, revision: int): Floors {
    if d == Destination then f.(destination := revision) else f.(readback := revision)
  }

  /** The history loads, is not behind the floor, and shows the key active at its head. */
  ghost predicate Resolves(h: seq<Row>, floor: int, key: string, domain: Domain, trusted: set<Envelope>) {
    Loads(h, domain, trusted) && |h| > 0 && |h| >= floor && ResolvesActive(RegistryAt(h, |h| - 1), key)
  }

  ghost function ResolveIn(i: Instance, s: Store, key: string, d: Domain, trusted: set<Envelope>): Instance
    requires Resolves(Of(s, d), FloorOf(i.floors, d), key, d, trusted)
  {
    Instance(SetFloor(i.floors, d, |Of(s, d)|), i.log + [Resolution(d, key, |Of(s, d)|)])
  }

  ghost predicate Publishes(h: seq<Row>, floor: int, e: Envelope, trusted: set<Envelope>) {
    && Loads(h, e.domain, trusted) && Extends(h, e, e.domain, trusted)
    && (|h| > 0 ==> |h| >= floor) && e.revision >= floor
  }

  /** A failed lookup in the second domain does not undo the floor of the first. */
  ghost function Apply(i: Instance, c: Call, trusted: set<Envelope>): Instance {
    match c
    case Settle(s, destinationKey, observerKey) =>
      if !Resolves(s.destination, i.floors.destination, destinationKey, Destination, trusted) then i
      else
        var m := ResolveIn(i, s, destinationKey, Destination, trusted);
        if !Resolves(s.readback, m.floors.readback, observerKey, Readback, trusted) then m
        else ResolveIn(m, s, observerKey, Readback, trusted)
    case Publish(s, e, room) =>
      if !room || !Publishes(Of(s, e.domain), FloorOf(i.floors, e.domain), e, trusted) then i
      else i.(floors := SetFloor(i.floors, e.domain, e.revision))
  }

  ghost function Run(i: Instance, calls: seq<Call>, trusted: set<Envelope>): Instance {
    if |calls| == 0 then i else Apply(Run(i, calls[..|calls| - 1], trusted), calls[|calls| - 1], trusted)
  }

  /** Floors only rise; the log only grows. */
  ghost predicate Advances(i: Instance, i': Instance) {
    i.floors.destination <= i'.floors.destination && i.floors.readback <= i'.floors.readback && i.log <= i'.log
  }

  lemma StepAdvances(i: Instance, c: Call, trusted: set<Envelope>)
    ensures Advances(i, Apply(i, c, trusted))
  {
  }

  lemma {:induction false} RunAdvances(i: Instance, calls: seq<Call>, trusted: set<Envelope>)
    ensures Advances(i, Run(i, calls, trusted))
  {
    if |calls| > 0 {
      RunAdvances(i, calls[..|calls| - 1], trusted);
      StepAdvances(Run(i, calls[..|calls| - 1], trusted), calls[|calls| - 1], trusted);
    }
  }

  ghost predicate LogBelow(i: Instance) {
    && (forall n :: 0 <= n < |i.log| ==> i.log[n].revision <= FloorOf(i.floors, i.log[n].domain))
    && (forall m, n :: 0 <= m < n < |i.log| && i.log[m].domain == i.log[n].domain ==> i.log[m].revision <= i.log[n].revision)
  }

  lemma ResolveKeepsLog(i: Instance, s: Store, key: string, d: Domain, trusted: set<Envelope>)
    requires LogBelow(i) && Resolves(Of(s, d), FloorOf(i.floors, d), key, d, trusted)
    ensures LogBelow(ResolveIn(i, s, key, d, trusted))
  {
  }

  lemma StepKeepsLog(i: Instance, c: Call, trusted: set<Envelope>)
    requires LogBelow(i)
    ensures LogBelow(Apply(i, c, trusted))
  {
    if c.Settle? && Resolves(c.store.destination, i.floors.destination, c.destinationKey, Destination, trusted) {
      ResolveKeepsLog(i, c.store, c.destinationKey, Destination, trusted);
      var m := ResolveIn(i, c.store, c.destinationKey, Destination, trusted);
      if Resolves(c.store.readback, m.floors.readback, c.observerKey, Readback, trusted) {
        ResolveKeepsLog(m, c.store, c.observerKey, Readback, trusted);
      }
    }
  }

  /** Against any sequence of stores, the revisions a domain is settled with never decrease. */
  lemma {:induction false} RevisionsNeverDecrease(floors: Floors, calls: seq<Call>, trusted: set<Envelope>)
    ensures LogBelow(Run(Instance(floors, []), calls, trusted))
  {
    if |calls| > 0 {
      RevisionsNeverDecrease(floors, calls[..|calls| - 1], trusted);
      StepKeepsLog(Run(Instance(floors, []), calls[..|calls| - 1], trusted), calls[|calls| - 1], trusted);
    }
  }

  // ----- revoked keys -----

  /** The controller never signs two envelopes for one revision of a domain. */
  ghost predicate OnePerRevision(trusted: set<Envelope>) {
    forall e, f :: e in trusted && f in trusted && e.domain == f.domain && e.revision == f.revision ==> e == f
  }

  /** Revision `r` is the first of this history that shows the key revoked; before it, the key was active. */
  ghost predicate RevokedAt(h: seq<Row>, r: int, key: string, domain: Domain, trusted: set<Envelope>) {
    && Loads(h, domain, trusted) && 2 <= r <= |h|
    && key in RegistryAt(h, r - 1) && RegistryAt(h, r - 1)[key].state == Revoked
    && ResolvesActive(RegistryAt(h, r - 2), key)
  }

  lemma SameRevisionSameRow(g: seq<Row>, h: seq<Row>, i: nat, domain: Domain, trusted: set<Envelope>)
    requires OnePerRevision(trusted) && Loads(g, domain, trusted) && Loads(h, domain, trusted) && i < |g| && i < |h|
    ensures g[i] == h[i]
  {
    assert RowOk(g, i, domain, trusted) && RowOk(h, i, domain, trusted);
  }

  /** A history that resolves a key as active ends before the revision that revoked it. */
  lemma ActiveMeansEarlier(g: seq<Row>, h: seq<Row>, r: int, key: string, domain: Domain, trusted: set<Envelope>)
    requires OnePerRevision(trusted) && RevokedAt(h, r, key, domain, trusted)
    requires Loads(g, domain, trusted) && |g| > 0 && ResolvesActive(RegistryAt(g, |g| - 1), key)
    ensures |g| < r
  {
    if r <= |g| {
      SameRevisionSameRow(g, h, r - 1, domain, trusted);
      HistoryEvolves(g, r - 1, |g| - 1, domain, trusted);
    }
  }

  ghost predicate Returnable(floor: int, key: string, domain: Domain, trusted: set<Envelope>) {
    exists g :: Resolves(g, floor, key, domain, trusted)
  }

  /**
   An instance that has seen a key revoked can be made to hand it out as active again,
   by rolling the store back, exactly when its floor is still below the revoking revision.
   */
  lemma ReturnableIffFloorBelow(h: seq<Row>, r: int, floor: int, key: string, domain: Domain, trusted: set<Envelope>)
    requires OnePerRevision(trusted) && RevokedAt(h, r, key, domain, trusted)
    ensures Returnable(floor, key, domain, trusted) <==> floor < r
  {
    if floor < r {
      PrefixLoads(h, r - 1, domain, trusted);
      assert h[..r - 1][r - 2] == h[r - 2];
      assert Resolves(h[..r - 1], floor, key, domain, trusted);
    }
    forall g | Resolves(g, floor, key, domain, trusted) ensures floor < r { ActiveMeansEarlier(g, h, r, key, domain, trusted); }
  }

  /** Once the floor has reached the revoking revision, no later call hands the key out, whatever the store shows. */
  lemma {:induction false} RevokedForGood(i: Instance, calls: seq<Call>, h: seq<Row>, r: int, key: string, domain: Domain, trusted: set<Envelope>)
    requires OnePerRevision(trusted) && RevokedAt(h, r, key, domain, trusted) && FloorOf(i.floors, domain) >= r
    ensures forall n :: |i.log| <= n < |Run(i, calls, trusted).log| ==>
              Run(i, calls, trusted).log[n].domain != domain || Run(i, calls, trusted).log[n].key != key
  {
    if |calls| > 0 {
      var front, c := calls[..|calls| - 1], calls[|calls| - 1];
      RevokedForGood(i, front, h, r, key, domain, trusted);
      RunAdvances(i, front, trusted);
      NotHandedOut(Run(i, front, trusted), c, h, r, key, domain, trusted);
      StepAdvances(Run(i, front, trusted), c, trusted);
    }
  }

  lemma NotHandedOut(i: Instance, c: Call, h: seq<Row>, r: int, key: string, domain: Domain, trusted: set<Envelope>)
    requires OnePerRevision(trusted) && RevokedAt(h, r, key, domain, trusted) && FloorOf(i.floors, domain) >= r
    ensures forall n :: |i.log| <= n < |Apply(i, c, trusted).log| ==>
              Apply(i, c, trusted).log[n].domain != domain || Apply(i, c, trusted).log[n].key != key
  {
    ReturnableIffFloorBelow(h, r, FloorOf(i.floors, domain), key, domain, trusted);
    assert forall g :: !Resolves(g, FloorOf(i.floors, domain), key, domain, trusted);
  }

  /**
   The floor is not raised when the lookup itself is refused: an instance shown the
   revocation, and then a store without it, hands the revoked key out.
   */
  lemma SeenRevokedThenReturned(h: seq<Row>, r: int, floors: Floors, key: string, other: Store, observer: string, trusted: set<Envelope>)
    requires RevokedAt(h, r, key, Destination, trusted) && |h| == r && floors.destination < r
    ensures var shown, restored := Store(h, other.readback), Store(h[..r - 1], other.readback);
      var i := Run(Instance(floors, []), [Settle(shown, key, observer), Settle(restored, key, observer)], trusted);
      && Apply(Instance(floors, []), Settle(shown, key, observer), trusted) == Instance(floors, [])
      && |i.log| > 0 && i.log[0] == Resolution(Destination, key, r - 1)
  {
    var shown, restored := Store(h, other.readback), Store(h[..r - 1], other.readback);
    var start, first, second := Instance(floors, []), Settle(shown, key, observer), Settle(restored, key, observer);
    PrefixLoads(h, r - 1, Destination, trusted);
    assert h[..r - 1][r - 2] == h[r - 2];
    assert Resolves(h[..r - 1], floors.destination, key, Destination, trusted);
    assert [first, second][..1] == [first] && [first][..0] == [];
    assert Run(start, [first], trusted) == start;
    StepAdvances(ResolveIn(start, restored, key, Destination, trusted), second, trusted);
  }

  // ----- the journal object -----

  class SigningTrustJournal {
    const trusted: set<Envelope>
    var store: Store
    var floors: Floors
    ghost var log: seq<Resolution>

    constructor (trusted: set<Envelope>, store: Store, floors: Floors)
      ensures this.trusted == trusted && this.store == store && Snapshot() == Instance(floors, [])
    {
      this.trusted, this.store, this.floors, this.log := trusted, store, floors, [];
    }

    ghost function Snapshot(): Instance
      reads this
    {
      Instance(floors, log)
    }

    method Verify(e: Envelope) returns (registry: Option<Registry>)
      ensures registry.Some? <==> Verified(e, trusted)
      ensures registry.Some? ==> registry.value == RegistryOf(e.keys)
    {
      if !(1 <= e.revision <= 2147483647) || |e.keys| > 128 { return None; }
      registry := BuildRegistry(e.keys);
      if registry.Some? && !(InOrder(e.keys) && e in trusted) { return None; }
    }

    /** One pass over the stored rows, comparing each with the one before. */
    method Load(domain: Domain) returns (ok: bool, head: Option<Envelope>, registry: Registry)
      ensures ok <==> Loads(Of(store, domain), domain, trusted)
      ensures ok ==> (head.Some? <==> |Of(store, domain)| > 0)
      ensures ok && head.Some? ==> head == Of(store, domain)[|Of(store, domain)| - 1].envelope && registry == RegistryOf(head.value.keys)
    {
      var rows := Of(store, domain);
      head, registry := None, map[];
      var i := 0;
      while i < |rows|
        invariant 0 <= i <= |rows|
        invariant Loads(rows[..i], domain, trusted)
        invariant head.Some? <==> i > 0
        invariant i > 0 ==> head == rows[i - 1].envelope && registry == RegistryOf(head.value.keys)
      {
        ghost var seen := rows[..i];
        assert rows[..i + 1] == seen + [rows[i]];
        if rows[i].envelope.None? { return false, head, registry; }
        var e := rows[i].envelope.value;
        var candidate := Verify(e);
        var previous := if head.None? then Zero else DigestOf(head.value);
        var fits := candidate.Some? && rows[i].revision == i + 1 && e.revision == i + 1 && e.domain == domain && e.previous == previous;
        if fits && i > 0 { fits := ValidateRotation(registry, candidate.value); }
        assert fits <==> Extends(seen, e, domain, trusted) && rows[i].revision == i + 1;
        if !fits {
          if Loads(rows, domain, trusted) { RowExtends(rows, i, domain, trusted); }
          return false, head, registry;
        }
        assert rows[i] == Row(i + 1, Some(e));
        PublishRefinesLoad(seen, e, domain, trusted);
        head, registry := Some(e), candidate.value;
        i := i + 1;
      }
      assert rows[..i] == rows;
      ok := true;
    }

    method ResolveKey(domain: Domain, key: string) returns (revision: Option<int>)
      modifies this`floors, this`log
      ensures revision.Some? <==> old(Resolves(Of(store, domain), FloorOf(floors, domain), key, domain, trusted))
      ensures revision.Some? ==> revision.value == |Of(store, domain)| && Snapshot() == old(ResolveIn(Snapshot(), store, key, domain, trusted))
      ensures revision.None? ==> Snapshot() == old(Snapshot())
    {
      var ok, head, registry := Load(domain);
      if !ok || head.None? || head.value.revision < FloorOf(floors, domain) {
        ghost var h := Of(store, domain);
        assert ok && |h| > 0 ==> RowOk(h, |h| - 1, domain, trusted);
        return None;
      }
      assert RowOk(Of(store, domain), |Of(store, domain)| - 1, domain, trusted);
      if key !in registry || registry[key].state != Active { return None; }
      floors := SetFloor(floors, domain, head.value.revision);
      log := log + [Resolution(domain, key, head.value.revision)];
      return Some(head.value.revision);
    }

    method SettlementKeys(destinationKey: string, observerKey: string) returns (ok: bool)
      modifies this`floors, this`log
      ensures Snapshot() == old(Apply(Snapshot(), Settle(store, destinationKey, observerKey), trusted))
      ensures ok ==> floors == Floors(|store.destination|, |store.readback|)
    {
      var first := ResolveKey(Destination, destinationKey);
      if first.None? { return false; }
      var second := ResolveKey(Readback, observerKey);
      return second.Some?;
    }

    method PublishEnvelope(e: Envelope, room: bool) returns (ok: bool)
      modifies this`floors, this`store
      ensures Snapshot() == old(Apply(Snapshot(), Publish(store, e, room), trusted))
      ensures var h, h' := old(Of(store, e.domain)), Of(store, e.domain);
        h' == if room && old(Publishes(Of(store, e.domain), FloorOf(floors, e.domain), e, trusted)) then Extended(h, e) else h
      ensures ok && old(Loads(Of(store, e.domain), e.domain, trusted)) ==>
        Loads(Of(store, e.domain), e.domain, trusted) && |Of(store, e.domain)| > 0
        && Of(store, e.domain)[|Of(store, e.domain)| - 1].envelope == Some(e)
    {
      var candidate := Verify(e);
      if candidate.None? { return false; }
      var floor := FloorOf(floors, e.domain);
      var loaded, head, registry := Load(e.domain);
      ghost var h := Of(store, e.domain);
      if !loaded { return false; }
      assert |h| > 0 ==> RowOk(h, |h| - 1, e.domain, trusted);
      if head.Some? && head.value.revision < floor { return false; }
      if head.Some? && head.value == e { return true; }
      var revision := if head.None? then 1 else head.value.revision + 1;
      var previous := if head.None? then Zero else DigestOf(head.value);
      if e.revision != revision || e.previous != previous || e.revision < floor { return false; }
      if head.Some? {
        var rotates := ValidateRotation(registry, candidate.value);
        if !rotates { return false; }
      }
      if !room { return false; }
      PublishRefinesLoad(h, e, e.domain, trusted);
      var rows := Of(store, e.domain) + [Row(revision, Some(e))];
      store := if e.domain == Destination then store.(destination := rows) else store.(readback := rows);
      floors := SetFloor(floors, e.domain, if floor <= revision then revision else floor);
      return true;
    }
  }
}
