/**
 Retained audit capacity. Triggers on the audit table keep a policy row with cached
 counters; the row appears on first use and takes the counters from a scan.
 */
module AuditCapacity {
  import opened Wrappers

  /** A stored audit row: its sequence number and the size of its JSON text. */
  datatype Entry = Entry(number: int, bytes: nat)

  datatype Limits = Limits(maxRecords: int, maxBytes: int, maxEntryBytes: int)

  datatype Policy = Policy(limits: Limits, usedRecords: int, usedBytes: int)

  datatype Table = Table(rows: seq<Entry>, policy: Option<Policy>)

  const DEFAULTS := Limits(100000, 67108864, 16384)

  predicate ValidLimits(l: Limits) {
    1 <= l.maxRecords <= 1000000 && 1 <= l.maxBytes <= 1073741824 && 1 <= l.maxEntryBytes <= 65536 && l.maxEntryBytes <= l.maxBytes
  }

  predicate ValidPolicy(p: Policy) {
    ValidLimits(p.limits) && p.usedRecords >= 0 && p.usedBytes >= 0
  }

  function Bytes(rows: seq<Entry>): nat {
    if |rows| == 0 then 0 else Bytes(rows[..|rows| - 1]) + rows[|rows| - 1].bytes
  }

  predicate Numbers(rows: seq<Entry>, n: int) {
    exists i :: 0 <= i < |rows| && rows[i].number == n
  }

  predicate Unique(rows: seq<Entry>) {
    forall i, j :: 0 <= i < j < |rows| ==> rows[i].number != rows[j].number
  }

  // ----- what the triggers do -----

  /** The policy row, created from the rows a scan would see if it is missing. */
  function Opened(p: Option<Policy>, rows: seq<Entry>): Policy {
    if p.Some? then p.value else Policy(DEFAULTS, |rows|, Bytes(rows))
  }

  function Charge(p: Policy, records: int, bytes: int): Policy {
    p.(usedRecords := p.usedRecords + records, usedBytes := p.usedBytes + bytes)
  }

  predicate Within(p: Policy) {
    p.usedRecords <= p.limits.maxRecords && p.usedBytes <= p.limits.maxBytes
  }

  datatype Event =
    | Insert(entry: Entry)
    | Delete(index: nat)
    | Update(index: nat, entry: Entry)
    | Configure(limits: Option<Limits>, note: Option<Entry>)

  predicate Inserts(t: Table, e: Entry) {
    var p := Opened(t.policy, t.rows);
    && !Numbers(t.rows, e.number)
    && ValidPolicy(p)
    && Within(Charge(p, 1, e.bytes)) && e.bytes <= p.limits.maxEntryBytes
  }

  function Inserted(t: Table, e: Entry): Table {
    Table(t.rows + [e], Some(Charge(Opened(t.policy, t.rows), 1, e.bytes)))
  }

  function Without(rows: seq<Entry>, i: nat): seq<Entry>
    requires i < |rows|
  {
    rows[..i] + rows[i + 1..]
  }

  predicate Updates(t: Table, i: nat, e: Entry) {
    && i < |t.rows|
    && (e.number != t.rows[i].number ==> !Numbers(t.rows, e.number))
    && var p := Charge(Opened(t.policy, t.rows), 0, e.bytes - t.rows[i].bytes);
       ValidPolicy(p) && Within(p) && e.bytes <= p.limits.maxEntryBytes
  }

  function Updated(t: Table, i: nat, e: Entry): Table
    requires i < |t.rows|
  {
    Table(t.rows[i := e], Some(Charge(Opened(t.policy, t.rows), 0, e.bytes - t.rows[i].bytes)))
  }

  /** Deleting without a policy row leaves nothing to count. */
  function Deleted(t: Table, i: nat): Table
    requires i < |t.rows|
  {
    Table(Without(t.rows, i), if t.policy.None? then None else Some(Charge(t.policy.value, -1, -(t.rows[i].bytes as int))))
  }

  function Configured(t: Table, limits: Option<Limits>): Table {
    var p := Opened(t.policy, t.rows);
    t.(policy := Some(if limits.Some? then p.(limits := limits.value) else p))
  }

  /** A new policy and the note about it stand or fall together. */
  predicate Configures(t: Table, limits: Option<Limits>, note: Option<Entry>) {
    && ValidPolicy(Opened(t.policy, t.rows))
    && (limits.Some? ==> ValidLimits(limits.value))
    && (limits.Some? && note.Some? ==> Inserts(Configured(t, limits), note.value))
  }

  predicate Accepts(t: Table, e: Event) {
    match e
    case Insert(entry) => Inserts(t, entry)
    case Delete(i) => i < |t.rows|
    case Update(i, entry) => Updates(t, i, entry)
    case Configure(limits, note) => Configures(t, limits, note)
  }

  /** A refused statement is rolled back whole, with any policy row it created. */
  function Apply(t: Table, e: Event): Table {
    if !Accepts(t, e) then t else
      match e
      case Insert(entry) => Inserted(t, entry)
      case Delete(i) => Deleted(t, i)
      case Update(i, entry) => Updated(t, i, entry)
      case Configure(limits, note) =>
        if limits.Some? && note.Some? then Inserted(Configured(t, limits), note.value) else Configured(t, limits)
  }

  function Run(t: Table, events: seq<Event>): Table {
    if |events| == 0 then t else Apply(Run(t, events[..|events| - 1]), events[|events| - 1])
  }

  // ----- counters agree with a scan -----

  lemma {:induction false} BytesConcat(a: seq<Entry>, b: seq<Entry>)
    ensures Bytes(a + b) == Bytes(a) + Bytes(b)
  {
    if |b| == 0 {
      assert a + b == a;
    } else {
      BytesConcat(a, b[..|b| - 1]);
      assert (a + b)[..|a + b| - 1] == a + b[..|b| - 1];
    }
  }

  lemma BytesOne(e: Entry)
    ensures Bytes([e]) == e.bytes
  {
    assert [e][..0] == [];
  }

  lemma BytesAround(a: seq<Entry>, e: Entry, b: seq<Entry>)
    ensures Bytes(a + [e] + b) == Bytes(a) + e.bytes + Bytes(b)
  {
    BytesConcat(a + [e], b);
    BytesConcat(a, [e]);
    BytesOne(e);
  }

  lemma SplitAt(rows: seq<Entry>, i: nat)
    requires i < |rows|
    ensures rows == rows[..i] + [rows[i]] + rows[i + 1..]
  {
  }

  lemma BytesWithout(rows: seq<Entry>, i: nat)
    requires i < |rows|
    ensures Bytes(Without(rows, i)) == Bytes(rows) - rows[i].bytes
  {
    BytesAround(rows[..i], rows[i], rows[i + 1..]);
    SplitAt(rows, i);
    BytesConcat(rows[..i], rows[i + 1..]);
  }

  lemma BytesReplaced(rows: seq<Entry>, i: nat, e: Entry)
    requires i < |rows|
    ensures Bytes(rows[i := e]) == Bytes(rows) - rows[i].bytes + e.bytes
  {
    BytesAround(rows[..i], rows[i], rows[i + 1..]);
    SplitAt(rows, i);
    BytesAround(rows[..i], e, rows[i + 1..]);
    assert rows[i := e] == rows[..i] + [e] + rows[i + 1..];
  }

  /** No policy row yet, or one whose counters are what a scan would count. */
  predicate Counted(t: Table) {
    t.policy.Some? ==>
      ValidLimits(t.policy.value.limits) && t.policy.value.usedRecords == |t.rows| && t.policy.value.usedBytes == Bytes(t.rows)
  }

  lemma InsertedCounted(t: Table, e: Entry)
    requires Counted(t)
    ensures Counted(Inserted(t, e))
  {
    BytesConcat(t.rows, [e]);
    BytesOne(e);
  }

  lemma UniqueWithout(rows: seq<Entry>, i: nat)
    requires Unique(rows) && i < |rows|
    ensures Unique(Without(rows, i))
  {
    var w := Without(rows, i);
    forall j | 0 <= j < |w| ensures w[j] == rows[if j < i then j else j + 1] {}
  }

  lemma StepCounted(t: Table, e: Event)
    requires Counted(t) && Unique(t.rows)
    ensures Counted(Apply(t, e)) && Unique(Apply(t, e).rows)
    ensures t.policy.Some? ==> Apply(t, e).policy.Some?
  {
    if Accepts(t, e) {
      match e
      case Insert(entry) => InsertedCounted(t, entry);
      case Delete(i) => BytesWithout(t.rows, i); UniqueWithout(t.rows, i);
      case Update(i, entry) => BytesReplaced(t.rows, i, entry);
      case Configure(limits, note) =>
        if limits.Some? && note.Some? { InsertedCounted(Configured(t, limits), note.value); }
    }
  }

  /** From any legacy table, after any accepted and refused statements, the cache is absent or exact, and never goes away. */
  lemma {:induction false} CountersAgree(rows: seq<Entry>, events: seq<Event>)
    requires Unique(rows)
    ensures Counted(Run(Table(rows, None), events)) && Unique(Run(Table(rows, None), events).rows)
  {
    if |events| > 0 {
      CountersAgree(rows, events[..|events| - 1]);
      StepCounted(Run(Table(rows, None), events[..|events| - 1]), events[|events| - 1]);
    }
  }

  lemma {:induction false} PolicyStays(t: Table, events: seq<Event>)
    requires Counted(t) && Unique(t.rows) && t.policy.Some?
    ensures Counted(Run(t, events)) && Unique(Run(t, events).rows) && Run(t, events).policy.Some?
  {
    if |events| > 0 {
      PolicyStays(t, events[..|events| - 1]);
      StepCounted(Run(t, events[..|events| - 1]), events[|events| - 1]);
    }
  }

  // ----- decisions are those of a scan -----

  function InForce(t: Table): Limits {
    if t.policy.Some? then t.policy.value.limits else DEFAULTS
  }

  /** Whether the table, as it would be, is within limits when everything in it is counted again. */
  predicate Fits(rows: seq<Entry>, e: Entry, l: Limits) {
    |rows| <= l.maxRecords && Bytes(rows) <= l.maxBytes && e.bytes <= l.maxEntryBytes
  }

  /** The cached counters admit an insert exactly when a full recount would. */
  lemma InsertIffFits(rows: seq<Entry>, events: seq<Event>, e: Entry)
    requires Unique(rows)
    ensures var t := Run(Table(rows, None), events);
      Inserts(t, e) <==> !Numbers(t.rows, e.number) && Fits(t.rows + [e], e, InForce(t))
  {
    var t := Run(Table(rows, None), events);
    CountersAgree(rows, events);
    BytesConcat(t.rows, [e]);
    BytesOne(e);
  }

  lemma UpdateIffFits(rows: seq<Entry>, events: seq<Event>, i: nat, e: Entry)
    requires Unique(rows) && i < |Run(Table(rows, None), events).rows|
    ensures var t := Run(Table(rows, None), events);
      Updates(t, i, e) <==> (e.number == t.rows[i].number || !Numbers(t.rows, e.number)) && Fits(t.rows[i := e], e, InForce(t))
  {
    var t := Run(Table(rows, None), events);
    CountersAgree(rows, events);
    BytesReplaced(t.rows, i, e);
  }

  // ----- the table object -----

  class AuditTable {
    var rows: seq<Entry>
    var policy: Option<Policy>

    constructor (rows: seq<Entry>)
      ensures Snapshot() == Table(rows, None)
    {
      this.rows, policy := rows, None;
    }

    ghost function Snapshot(): Table
      reads this
    {
      Table(rows, policy)
    }

    method Scan() returns (bytes: nat)
      ensures bytes == Bytes(rows)
    {
      bytes := 0;
      var i := 0;
      while i < |rows|
        invariant 0 <= i <= |rows|
        invariant bytes == Bytes(rows[..i])
      {
        assert rows[..i + 1][..i] == rows[..i];
        bytes := bytes + rows[i].bytes;
        i := i + 1;
      }
      assert rows[..i] == rows;
    }

    method HasNumber(n: int) returns (found: bool)
      ensures found <==> Numbers(rows, n)
    {
      var i := 0;
      while i < |rows|
        invariant 0 <= i <= |rows|
        invariant forall j :: 0 <= j < i ==> rows[j].number != n
      {
        if rows[i].number == n { return true; }
        i := i + 1;
      }
      return false;
    }

    method OpenPolicy() returns (p: Policy)
      ensures p == Opened(policy, rows)
    {
      if policy.Some? { return policy.value; }
      var bytes := Scan();
      return Policy(DEFAULTS, |rows|, bytes);
    }

    method InsertRow(e: Entry) returns (ok: bool)
      modifies this
      ensures ok <==> old(Accepts(Snapshot(), Insert(e)))
      ensures Snapshot() == old(Apply(Snapshot(), Insert(e)))
    {
      var taken := HasNumber(e.number);
      if taken { return false; }
      var p := OpenPolicy();
      if !ValidPolicy(p) { return false; }
      p := p.(usedRecords := p.usedRecords + 1, usedBytes := p.usedBytes + e.bytes);
      if p.usedRecords > p.limits.maxRecords || p.usedBytes > p.limits.maxBytes || e.bytes > p.limits.maxEntryBytes { return false; }
      rows, policy := rows + [e], Some(p);
      return true;
    }

    method DeleteRow(i: nat) returns (ok: bool)
      modifies this
      ensures ok <==> i < |old(rows)|
      ensures Snapshot() == old(Apply(Snapshot(), Delete(i)))
    {
      if i >= |rows| { return false; }
      if policy.Some? {
        policy := Some(policy.value.(usedRecords := policy.value.usedRecords - 1, usedBytes := policy.value.usedBytes - rows[i].bytes));
      }
      rows := rows[..i] + rows[i + 1..];
      return true;
    }

    method UpdateRow(i: nat, e: Entry) returns (ok: bool)
      modifies this
      ensures ok <==> old(Accepts(Snapshot(), Update(i, e)))
      ensures Snapshot() == old(Apply(Snapshot(), Update(i, e)))
    {
      if i >= |rows| { return false; }
      if e.number != rows[i].number {
        var taken := HasNumber(e.number);
        if taken { return false; }
      }
      var p := OpenPolicy();
      p := p.(usedBytes := p.usedBytes + e.bytes - rows[i].bytes);
      if !ValidPolicy(p) || p.usedRecords > p.limits.maxRecords || p.usedBytes > p.limits.maxBytes || e.bytes > p.limits.maxEntryBytes { return false; }
      rows, policy := rows[i := e], Some(p);
      return true;
    }

    /** The note about a changed policy joins its transaction; if it cannot be stored, nothing has happened. */
    method SetPolicy(limits: Option<Limits>, note: Option<Entry>) returns (ok: bool)
      modifies this
      ensures ok <==> old(Accepts(Snapshot(), Configure(limits, note)))
      ensures Snapshot() == old(Apply(Snapshot(), Configure(limits, note)))
    {
      if limits.Some? && !ValidLimits(limits.value) { return false; }
      var p := OpenPolicy();
      if !ValidPolicy(p) { return false; }
      var before := policy;
      policy := Some(if limits.Some? then p.(limits := limits.value) else p);
      if limits.Some? && note.Some? {
        var stored := InsertRow(note.value);
        if !stored {
          policy := before;
          return false;
        }
      }
      return true;
    }
  }
}
