/**
 The hash-chained audit log: appending and truncating a durable log, verifying lists of
 records in any order, signed checkpoints of the head, and independent witnesses.
 */
module AuditChain {
  /** An ideal digest of a record's payload. The genesis value is the digest of nothing. */
  datatype Hash = Genesis | Sha(number: int, content: string, previous: Hash) | Other(text: string)

  /** `content` stands for all fields except sequence number, predecessor and hash. */
  datatype Record = Record(number: int, content: string, previous: Hash, hash: Hash)

  function Computed(r: Record): Hash {
    Sha(r.number, r.content, r.previous)
  }

  // ----- ordering -----

  predicate Sorted(s: seq<Record>) {
    forall i, j :: 0 <= i < j < |s| ==> s[i].number <= s[j].number
  }

  predicate Strict(s: seq<Record>) {
    forall i, j :: 0 <= i < j < |s| ==> s[i].number < s[j].number
  }

  function Insert(r: Record, s: seq<Record>): seq<Record> {
    if |s| == 0 || s[|s| - 1].number <= r.number then s + [r] else Insert(r, s[..|s| - 1]) + [s[|s| - 1]]
  }

  /** A stable sort by sequence number. */
  function Sort(s: seq<Record>): seq<Record> {
    if |s| == 0 then [] else Insert(s[|s| - 1], Sort(s[..|s| - 1]))
  }

  lemma {:induction false} InsertMultiset(r: Record, s: seq<Record>)
    ensures multiset(Insert(r, s)) == multiset(s) + multiset{r}
  {
    if |s| > 0 && s[|s| - 1].number > r.number {
      InsertMultiset(r, s[..|s| - 1]);
      assert s == s[..|s| - 1] + [s[|s| - 1]];
    }
  }

  lemma {:induction false} InsertBelow(r: Record, s: seq<Record>, top: int)
    requires r.number <= top && forall i :: 0 <= i < |s| ==> s[i].number <= top
    ensures forall i :: 0 <= i < |Insert(r, s)| ==> Insert(r, s)[i].number <= top
  {
    if |s| > 0 && s[|s| - 1].number > r.number { InsertBelow(r, s[..|s| - 1], top); }
  }

  lemma {:induction false} InsertSorted(r: Record, s: seq<Record>)
    requires Sorted(s)
    ensures Sorted(Insert(r, s))
  {
    if |s| > 0 && s[|s| - 1].number > r.number {
      InsertSorted(r, s[..|s| - 1]);
      InsertBelow(r, s[..|s| - 1], s[|s| - 1].number);
    }
  }

  lemma {:induction false} SortSorts(s: seq<Record>)
    ensures Sorted(Sort(s)) && multiset(Sort(s)) == multiset(s)
  {
    if |s| > 0 {
      SortSorts(s[..|s| - 1]);
      InsertSorted(s[|s| - 1], Sort(s[..|s| - 1]));
      InsertMultiset(s[|s| - 1], Sort(s[..|s| - 1]));
      assert s == s[..|s| - 1] + [s[|s| - 1]];
    }
  }

  lemma SameLast(a: seq<Record>, b: seq<Record>)
    requires Sorted(a) && Strict(b) && multiset(a) == multiset(b) && |a| == |b| > 0
    ensures a[|a| - 1] == b[|b| - 1]
  {
    var x, y := a[|a| - 1], b[|b| - 1];
    assert x in multiset(b) && y in multiset(a);
    var i :| 0 <= i < |b| && b[i] == x;
    var j :| 0 <= j < |a| && a[j] == y;
    assert y.number <= x.number;
  }

  lemma MultisetSnoc(front: seq<Record>, x: Record)
    ensures multiset(front + [x]) == multiset(front) + multiset{x}
  {
  }

  lemma MultisetCancel(m: multiset<Record>, n: multiset<Record>, x: Record)
    requires m + multiset{x} == n + multiset{x}
    ensures m == n
  {
    forall r: Record ensures m[r] == n[r] { assert (m + multiset{x})[r] == (n + multiset{x})[r]; }
  }

  lemma {:induction false} SameFront(a: seq<Record>, b: seq<Record>)
    requires |a| > 0 && |b| > 0 && multiset(a) == multiset(b) && a[|a| - 1] == b[|b| - 1]
    ensures multiset(a[..|a| - 1]) == multiset(b[..|b| - 1])
  {
    var x, front, other := a[|a| - 1], a[..|a| - 1], b[..|b| - 1];
    assert a == front + [x] && b == other + [x];
    MultisetSnoc(front, x);
    MultisetSnoc(other, x);
    MultisetCancel(multiset(front), multiset(other), x);
  }

  /** Only one order of the same records is sorted, if no sequence number repeats. */
  lemma {:induction false} SortedUnique(a: seq<Record>, b: seq<Record>)
    requires Sorted(a) && Strict(b) && multiset(a) == multiset(b)
    ensures a == b
  {
    assert |a| == |multiset(a)| == |multiset(b)| == |b|;
    if |a| > 0 {
      SameLast(a, b);
      SameFront(a, b);
      SortedUnique(a[..|a| - 1], b[..|b| - 1]);
      assert a == a[..|a| - 1] + [a[|a| - 1]];
    }
  }

  // ----- verification -----

  predicate LinkOk(s: seq<Record>, i: int)
    requires 0 <= i < |s|
  {
    && s[i].number == s[0].number + i
    && s[i].hash == Computed(s[i])
    && (i > 0 ==> s[i].previous == s[i - 1].hash)
  }

  /** Contiguous sequence numbers, intact links and recomputed hashes. */
  predicate Linked(s: seq<Record>) {
    forall i :: 0 <= i < |s| ==> LinkOk(s, i)
  }

  predicate FromGenesis(s: seq<Record>) {
    |s| > 0 ==> s[0].number == 0 && s[0].previous == Genesis
  }

  predicate Verifies(records: seq<Record>, genesis: bool) {
    Linked(Sort(records)) && (genesis ==> FromGenesis(Sort(records)))
  }

  /** A complete chain, in order. */
  predicate Chain(s: seq<Record>) {
    Linked(s) && FromGenesis(s)
  }

  lemma LinkedStrict(s: seq<Record>)
    requires Linked(s)
    ensures Strict(s)
  {
    forall i, j | 0 <= i < j < |s| ensures s[i].number < s[j].number { assert LinkOk(s, i) && LinkOk(s, j); }
  }

  /** Any arrangement of a linked list sorts back to it, so verification does not depend on the order given. */
  lemma SortArrangement(records: seq<Record>, s: seq<Record>)
    requires Linked(s) && multiset(records) == multiset(s)
    ensures Sort(records) == s
  {
    SortSorts(records);
    LinkedStrict(s);
    SortedUnique(Sort(records), s);
  }

  lemma ChainAt(s: seq<Record>, i: nat)
    requires Chain(s) && i < |s|
    ensures s[i].number == i && s[i].hash == Computed(s[i]) && s[i].previous == HeadAt(s, i)
  {
    assert LinkOk(s, i);
  }

  /** The head after the first `n` entries. */
  function HeadAt(s: seq<Record>, n: int): Hash
    requires 0 <= n <= |s|
  {
    if n == 0 then Genesis else s[n - 1].hash
  }

  // ----- witnesses -----

  datatype Checkpoint = Checkpoint(number: int, head: Hash)

  /** What signing the head of a durable log yields: the head of an entry numbered one below, or genesis. */
  predicate Issued(c: Checkpoint) {
    if c.number == 0 then c.head == Genesis else c.number > 0 && c.head.Sha? && c.head.number == c.number - 1
  }

  /** The witness check of a full export. It indexes the list as given. */
  predicate Anchored(records: seq<Record>, c: Checkpoint) {
    && c.number >= 0
    && Verifies(records, true)
    && c.number <= |records|
    && (if c.number == 0 then c.head == Genesis else records[c.number - 1].hash == c.head)
  }

  lemma SortSameSize(records: seq<Record>)
    ensures |Sort(records)| == |records|
    ensures forall i :: 0 <= i < |records| ==> records[i] in Sort(records)
  {
    SortSorts(records);
    assert |Sort(records)| == |multiset(Sort(records))| == |multiset(records)| == |records|;
    forall i | 0 <= i < |records| ensures records[i] in Sort(records) {
      assert records[i] in multiset(records);
    }
  }

  /** Wherever the entry stood in the export, the witnessed hash puts it at its own sequence number. */
  lemma AnchorPosition(records: seq<Record>, c: Checkpoint)
    requires Anchored(records, c) && c.number > 0
    ensures c.head.Sha? && 0 <= c.head.number < |Sort(records)| && Sort(records)[c.head.number].hash == c.head
  {
    SortSameSize(records);
    var s, r := Sort(records), records[c.number - 1];
    var i :| 0 <= i < |s| && s[i] == r;
    ChainAt(s, i);
  }

  /** Backward along the links: equal hashes at one position make everything up to it equal. */
  lemma {:induction false} EqualBelow(a: seq<Record>, b: seq<Record>, m: int)
    requires Chain(a) && Chain(b) && 0 <= m < |a| && m < |b| && a[m].hash == b[m].hash
    ensures a[..m + 1] == b[..m + 1]
    decreases m
  {
    ChainAt(a, m);
    ChainAt(b, m);
    if m > 0 {
      EqualBelow(a, b, m - 1);
    }
    assert a[..m + 1] == a[..m] + [a[m]] && b[..m + 1] == b[..m] + [b[m]];
  }

  /** Two exports accepted against one checkpoint agree on every entry up to the one its hash names. */
  lemma AnchoredAgree(x: seq<Record>, y: seq<Record>, c: Checkpoint)
    requires Anchored(x, c) && Anchored(y, c) && c.number > 0
    ensures c.head.Sha? && 0 <= c.head.number < |Sort(x)| && c.head.number < |Sort(y)|
    ensures Sort(x)[..c.head.number + 1] == Sort(y)[..c.head.number + 1]
  {
    AnchorPosition(x, c);
    AnchorPosition(y, c);
    EqualBelow(Sort(x), Sort(y), c.head.number);
  }

  /** A witnessed history cannot fork: below the witnessed sequence number all accepted exports are one history. */
  lemma WitnessedHistoryCannotFork(x: seq<Record>, y: seq<Record>, c: Checkpoint)
    requires Anchored(x, c) && Anchored(y, c) && Issued(c)
    ensures c.number <= |Sort(x)| && c.number <= |Sort(y)| && Sort(x)[..c.number] == Sort(y)[..c.number]
  {
    SortSameSize(x);
    SortSameSize(y);
    if c.number > 0 { AnchoredAgree(x, y, c); }
  }

  // ----- and exactly which witnesses protect -----

  /** The chain with further entries of this content. */
  function Grown(s: seq<Record>, content: string, n: nat): seq<Record>
    decreases n
  {
    if n == 0 then s else
      var t := Grown(s, content, n - 1);
      t + [Next(t, content)]
  }

  function Next(s: seq<Record>, content: string): Record {
    var number := if |s| == 0 then 0 else s[|s| - 1].number + 1;
    var previous := if |s| == 0 then Genesis else s[|s| - 1].hash;
    Record(number, content, previous, Sha(number, content, previous))
  }

  lemma NextChains(s: seq<Record>, content: string)
    requires Chain(s)
    ensures Chain(s + [Next(s, content)])
  {
    var t := s + [Next(s, content)];
    forall i | 0 <= i < |t| ensures LinkOk(t, i) {
      if i < |s| { assert LinkOk(s, i); }
      assert |s| > 0 ==> LinkOk(s, |s| - 1);
    }
  }

  lemma {:induction false} GrownChains(s: seq<Record>, content: string, n: nat)
    requires Chain(s)
    ensures Chain(Grown(s, content, n)) && |Grown(s, content, n)| == |s| + n && Grown(s, content, n)[..|s|] == s
    ensures n > 0 ==> Grown(s, content, n)[|s|].content == content
  {
    if n > 0 {
      GrownChains(s, content, n - 1);
      NextChains(Grown(s, content, n - 1), content);
    }
  }

  function Swapped(s: seq<Record>, i: int, j: int): seq<Record>
    requires 0 <= i < |s| && 0 <= j < |s|
  {
    s[i := s[j]][j := s[i]]
  }

  lemma SwappedIsArrangement(s: seq<Record>, i: int, j: int)
    requires 0 <= i < |s| && 0 <= j < |s|
    ensures multiset(Swapped(s, i, j)) == multiset(s)
  {
  }

  /** Some two accepted exports disagree below the witnessed sequence number. */
  ghost predicate Forkable(c: Checkpoint) {
    exists x, y :: Forks(x, y, c)
  }

  predicate Forks(x: seq<Record>, y: seq<Record>, c: Checkpoint) {
    Anchored(x, c) && Anchored(y, c) && |Sort(x)| >= c.number && |Sort(y)| >= c.number && Sort(x)[..c.number] != Sort(y)[..c.number]
  }

  /** The grown chain with two entries exchanged, so that the named hash stands where the checkpoint's number looks. */
  function Misplaced(s: seq<Record>, content: string, c: Checkpoint): seq<Record>
    requires 0 < |s| < c.number && |Grown(s, content, c.number - |s|)| == c.number
  {
    Swapped(Grown(s, content, c.number - |s|), |s| - 1, c.number - 1)
  }

  lemma {:induction false} MisplacedAnchored(s: seq<Record>, content: string, c: Checkpoint)
    requires Chain(s) && 0 < |s| < c.number && c.head == s[|s| - 1].hash
    ensures var a := Grown(s, content, c.number - |s|);
      && |a| == c.number && a[..|s|] == s && a[|s|].content == content
      && Sort(Misplaced(s, content, c)) == a && Anchored(Misplaced(s, content, c), c)
  {
    var a := Grown(s, content, c.number - |s|);
    GrownChains(s, content, c.number - |s|);
    var x := Misplaced(s, content, c);
    SwappedIsArrangement(a, |s| - 1, c.number - 1);
    SortArrangement(x, a);
    assert x[c.number - 1] == a[|s| - 1] == a[..|s|][|s| - 1];
  }

  /** A checkpoint whose hash names an earlier entry than its number says accepts two histories, by order alone. */
  lemma {:induction false} MisnumberedForks(s: seq<Record>, c: Checkpoint)
    requires Chain(s) && |s| > 0 && c.head == s[|s| - 1].hash && c.number > |s|
    ensures Forkable(c)
  {
    MisplacedAnchored(s, "a", c);
    MisplacedAnchored(s, "b", c);
    var x, y := Misplaced(s, "a", c), Misplaced(s, "b", c);
    assert Sort(x)[..c.number][|s|].content == "a" && Sort(y)[..c.number][|s|].content == "b";
    assert Forks(x, y, c);
  }

  /** For the head of a real chain, the witness protects everything below its number exactly when the number is not too large. */
  lemma ForkableIffMisnumbered(s: seq<Record>, c: Checkpoint)
    requires Chain(s) && |s| > 0 && c.head == s[|s| - 1].hash && c.number > 0
    ensures Forkable(c) <==> c.number > |s|
  {
    ChainAt(s, |s| - 1);
    if c.number > |s| {
      MisnumberedForks(s, c);
    } else {
      forall x, y | Anchored(x, c) && Anchored(y, c) && |Sort(x)| >= c.number && |Sort(y)| >= c.number ensures Sort(x)[..c.number] == Sort(y)[..c.number] {
        AnchoredAgree(x, y, c);
        assert Sort(x)[..c.number] == Sort(x)[..|s|][..c.number] && Sort(y)[..c.number] == Sort(y)[..|s|][..c.number];
      }
    }
  }

  // ----- truncation and gluing -----

  function Kept(records: seq<Record>, k: int): seq<Record> {
    if |records| == 0 then []
    else Kept(records[..|records| - 1], k) + (if records[|records| - 1].number >= k then [records[|records| - 1]] else [])
  }

  lemma {:induction false} KeptMembers(records: seq<Record>, k: int, r: Record)
    ensures multiset(Kept(records, k))[r] == if r.number >= k then multiset(records)[r] else 0
  {
    if |records| > 0 {
      KeptMembers(records[..|records| - 1], k, r);
      assert records == records[..|records| - 1] + [records[|records| - 1]];
    }
  }

  lemma KeptArrangement(records: seq<Record>, s: seq<Record>, k: int)
    requires multiset(records) == multiset(s)
    ensures multiset(Kept(records, k)) == multiset(Kept(s, k))
  {
    forall r ensures multiset(Kept(records, k))[r] == multiset(Kept(s, k))[r] {
      KeptMembers(records, k, r);
      KeptMembers(s, k, r);
    }
  }

  lemma {:induction false} KeptSnoc(front: seq<Record>, r: Record, k: int)
    ensures Kept(front + [r], k) == Kept(front, k) + (if r.number >= k then [r] else [])
  {
    assert (front + [r])[..|front|] == front;
  }

  lemma {:induction false} KeptSuffix(s: seq<Record>, k: nat)
    requires Chain(s) && k <= |s|
    ensures Kept(s, k) == s[k..]
    decreases |s|
  {
    if k == |s| {
      KeptNothing(s, k);
    } else {
      var front, r := s[..|s| - 1], s[|s| - 1];
      PrefixChains(s, |s| - 1);
      ChainAt(s, |s| - 1);
      KeptSuffix(front, k);
      KeptSnoc(front, r, k);
      assert s == front + [r] && s[k..] == front[k..] + [r];
    }
  }

  lemma {:induction false} KeptNothing(s: seq<Record>, k: nat)
    requires Chain(s) && k >= |s|
    ensures Kept(s, k) == []
  {
    if |s| > 0 {
      var front, r := s[..|s| - 1], s[|s| - 1];
      PrefixChains(s, |s| - 1);
      ChainAt(s, |s| - 1);
      KeptNothing(front, k);
      KeptSnoc(front, r, k);
      assert s == front + [r];
    }
  }

  lemma PrefixChains(s: seq<Record>, n: nat)
    requires Chain(s) && n <= |s|
    ensures Chain(s[..n])
  {
    forall i | 0 <= i < n ensures LinkOk(s[..n], i) { assert LinkOk(s, i); }
  }

  lemma SuffixLinked(s: seq<Record>, k: nat)
    requires Chain(s) && k <= |s|
    ensures Linked(s[k..])
  {
    forall i | 0 <= i < |s| - k ensures LinkOk(s[k..], i) {
      ChainAt(s, k);
      ChainAt(s, k + i);
    }
  }

  /** The bundle check: the chain verifies, and the checkpoint is met at its head or right before the first entry kept. */
  predicate BundleOk(records: seq<Record>, c: Checkpoint) {
    var s := Sort(records);
    && c.number >= 0
    && Linked(s) && (|s| > 0 && s[0].number == 0 ==> s[0].previous == Genesis)
    && (if |s| == 0 then c.number == 0 && c.head == Genesis
        else if s[0].number >= c.number then s[0].number == c.number && s[0].previous == c.head
        else if c.number == 0 then c.head == Genesis
        else exists i :: 0 <= i < |s| && s[i].number == c.number - 1 && s[i].hash == c.head)
  }

  /** Dropping everything below `k` from any export of a complete chain leaves a list that verifies by itself. */
  lemma TruncationVerifies(records: seq<Record>, s: seq<Record>, k: nat)
    requires Chain(s) && multiset(records) == multiset(s) && k <= |s|
    ensures Sort(Kept(records, k)) == s[k..] && Verifies(Kept(records, k), false)
  {
    KeptArrangement(records, s, k);
    KeptSuffix(s, k);
    SuffixLinked(s, k);
    SortArrangement(Kept(records, k), s[k..]);
  }

  /** What is left after truncating at `k` meets the checkpoint taken at `j` exactly when no entry between them is missing. */
  lemma TruncationMeetsCheckpoint(records: seq<Record>, s: seq<Record>, k: nat, j: nat)
    requires Chain(s) && multiset(records) == multiset(s) && k < |s| && j <= |s|
    ensures BundleOk(Kept(records, k), Checkpoint(j, HeadAt(s, j))) <==> k <= j
  {
    TruncationVerifies(records, s, k);
    ChainAt(s, k);
    SuffixLinked(s, k);
    if k < j { assert s[k..][j - 1 - k] == s[j - 1]; ChainAt(s, j - 1); }
  }

  /** A suffix anchored at the head of a complete prefix completes it, whatever order either was exported in. */
  lemma Gluing(p: seq<Record>, q: seq<Record>)
    requires Verifies(p, true) && Verifies(q, false)
    requires |q| > 0 ==> |Sort(q)| > 0 && Sort(q)[0].number == |Sort(p)| && Sort(q)[0].previous == HeadAt(Sort(p), |Sort(p)|)
    ensures Verifies(p + q, true) && Sort(p + q) == Sort(p) + Sort(q)
  {
    SortSorts(p);
    SortSorts(q);
    var s := Sort(p) + Sort(q);
    GluedChain(Sort(p), Sort(q));
    SortArrangement(p + q, s);
  }

  lemma GluedChain(s: seq<Record>, t: seq<Record>)
    requires Chain(s) && Linked(t) && (|t| > 0 ==> t[0].number == |s| && t[0].previous == HeadAt(s, |s|))
    ensures Chain(s + t)
  {
    forall i | 0 <= i < |s + t| ensures LinkOk(s + t, i) {
      if i < |s| { assert LinkOk(s, i); } else { assert LinkOk(t, i - |s|); }
      assert |s| > 0 ==> LinkOk(s, |s| - 1);
      assert |s| > 0 ==> s[0].number == 0;
    }
  }

  // ----- every run of a durable log -----

  /** `all` remembers every entry ever appended and `issued` every checkpoint ever signed. */
  datatype Log = Log(records: seq<Record>, hold: bool, all: seq<Record>, issued: seq<Checkpoint>)

  /** What else the store looks at before it deletes: the environment, durable holds, and rows that the audit is evidence for. */
  datatype Evidence = Evidence(production: bool, holds: nat, operations: nat, links: nat, openTasks: nat, pendingBudgets: nat)

  datatype Event = Append(content: string) | Truncate(number: int, evidence: Evidence) | Hold(on: bool) | Sign

  predicate Releasable(v: Evidence) {
    !v.production && v.holds == 0 && v.operations == 0 && v.links == 0 && v.openTasks == 0 && v.pendingBudgets == 0
  }

  predicate MayTruncate(l: Log, n: int, v: Evidence) {
    n > 0 && !l.hold && Releasable(v) && (|l.records| > 0 ==> n <= l.records[|l.records| - 1].number)
  }

  function CheckpointOf(records: seq<Record>): Checkpoint {
    if |records| == 0 then Checkpoint(0, Genesis)
    else Checkpoint(records[|records| - 1].number + 1, records[|records| - 1].hash)
  }

  function Apply(l: Log, e: Event): Log {
    match e
    case Append(content) => var r := Next(l.records, content); l.(records := l.records + [r], all := l.all + [r])
    case Truncate(n, v) => if MayTruncate(l, n, v) then l.(records := Kept(l.records, n)) else l
    case Hold(on) => l.(hold := on)
    case Sign => l.(issued := l.issued + [CheckpointOf(l.records)])
  }

  function Run(events: seq<Event>): Log {
    if |events| == 0 then Log([], false, [], []) else Apply(Run(events[..|events| - 1]), events[|events| - 1])
  }

  /** How many of the first entries have been truncated. */
  function Dropped(l: Log): int {
    |l.all| - |l.records|
  }

  predicate IssuedFits(l: Log, c: Checkpoint) {
    0 <= c.number <= |l.all| && c.head == HeadAt(l.all, c.number)
  }

  ghost predicate Inv(l: Log) {
    && Chain(l.all)
    && 0 <= Dropped(l) && l.records == l.all[Dropped(l)..]
    && (|l.all| > 0 ==> |l.records| > 0)
    && (forall i :: 0 <= i < |l.issued| ==> IssuedFits(l, l.issued[i]))
  }

  lemma IssuedStay(l: Log, l': Log)
    requires l.all <= l'.all && l'.issued == l.issued
    requires forall i :: 0 <= i < |l.issued| ==> IssuedFits(l, l.issued[i])
    ensures forall i :: 0 <= i < |l'.issued| ==> IssuedFits(l', l'.issued[i])
  {
    forall i | 0 <= i < |l'.issued| ensures IssuedFits(l', l'.issued[i]) { assert IssuedFits(l, l.issued[i]); }
  }

  lemma SameNext(l: Log, content: string)
    requires Inv(l)
    ensures Next(l.records, content) == Next(l.all, content)
  {
    assert |l.records| > 0 ==> l.records[|l.records| - 1] == l.all[|l.all| - 1];
  }

  lemma AppendKeepsInv(l: Log, content: string)
    requires Inv(l)
    ensures Inv(Apply(l, Append(content)))
  {
    var d, r := Dropped(l), Next(l.all, content);
    SameNext(l, content);
    NextChains(l.all, content);
    assert (l.all + [r])[d..] == l.all[d..] + [r];
    IssuedStay(l, Apply(l, Append(content)));
  }

  lemma KeptTail(s: seq<Record>, d: nat, n: nat)
    requires Chain(s) && d <= |s| && n < |s|
    ensures Kept(s[d..], n) == if n <= d then s[d..] else s[n..]
  {
    KeptSuffix(s, d);
    KeptTwice(s, d, n);
    if n <= d { KeptSuffix(s, d); } else { KeptSuffix(s, n); }
  }

  lemma {:induction false} KeptTwice(s: seq<Record>, d: int, n: int)
    ensures Kept(Kept(s, d), n) == Kept(s, if n <= d then d else n)
  {
    if |s| > 0 {
      var front, r := s[..|s| - 1], s[|s| - 1];
      KeptTwice(front, d, n);
      if r.number >= d {
        assert Kept(s, d) == Kept(front, d) + [r];
        assert (Kept(front, d) + [r])[..|Kept(front, d)|] == Kept(front, d);
      } else {
        assert Kept(s, d) == Kept(front, d);
      }
    }
  }

  lemma TruncateKeepsInv(l: Log, n: int, v: Evidence)
    requires Inv(l)
    ensures Inv(Apply(l, Truncate(n, v)))
  {
    if MayTruncate(l, n, v) && |l.records| > 0 {
      assert l.records[|l.records| - 1] == l.all[|l.all| - 1];
      ChainAt(l.all, |l.all| - 1);
      KeptTail(l.all, Dropped(l), n);
    }
    IssuedStay(l, Apply(l, Truncate(n, v)));
  }

  lemma SignKeepsInv(l: Log)
    requires Inv(l)
    ensures Inv(Apply(l, Sign))
  {
    if |l.records| > 0 {
      assert l.records[|l.records| - 1] == l.all[|l.all| - 1];
      ChainAt(l.all, |l.all| - 1);
    }
    var l' := Apply(l, Sign);
    forall i | 0 <= i < |l'.issued| ensures IssuedFits(l', l'.issued[i]) { assert i < |l.issued| ==> IssuedFits(l, l.issued[i]); }
  }

  lemma {:induction false} RunKeepsInv(events: seq<Event>)
    ensures Inv(Run(events))
  {
    if |events| > 0 {
      RunKeepsInv(events[..|events| - 1]);
      var l := Run(events[..|events| - 1]);
      match events[|events| - 1]
      case Append(content) => AppendKeepsInv(l, content);
      case Truncate(n, v) => TruncateKeepsInv(l, n, v);
      case Hold(on) => IssuedStay(l, l.(hold := on));
      case Sign => SignKeepsInv(l);
    }
  }

  /** After any appends, truncations, holds and signings the stored log verifies, and no append restarted the chain. */
  lemma {:induction false} DurableLogVerifies(events: seq<Event>)
    ensures var l := Run(events);
      && Verifies(l.records, false) && Verifies(l.all, true)
      && 0 <= Dropped(l) && l.records == l.all[Dropped(l)..] && (|l.all| > 0 ==> |l.records| > 0)
  {
    var l := Run(events);
    RunKeepsInv(events);
    SortArrangement(l.all, l.all);
    TruncationVerifies(l.all, l.all, Dropped(l));
    KeptSuffix(l.all, Dropped(l));
  }

  /** Every signed checkpoint is protected by its own hash, and what is left meets it exactly when truncation has not gone past it. */
  lemma {:induction false} CheckpointsMet(events: seq<Event>, i: nat)
    requires i < |Run(events).issued|
    ensures var l := Run(events);
      && Issued(l.issued[i])
      && (|l.all| > 0 ==> (BundleOk(l.records, l.issued[i]) <==> Dropped(l) <= l.issued[i].number))
  {
    RunKeepsInv(events);
    CheckpointMet(Run(events), Run(events).issued[i]);
  }

  lemma CheckpointMet(l: Log, c: Checkpoint)
    requires Inv(l) && IssuedFits(l, c)
    ensures Issued(c)
    ensures |l.all| > 0 ==> (BundleOk(l.records, c) <==> Dropped(l) <= c.number)
  {
    if c.number > 0 { ChainAt(l.all, c.number - 1); }
    if |l.all| > 0 {
      KeptSuffix(l.all, Dropped(l));
      TruncationMeetsCheckpoint(l.all, l.all, Dropped(l), c.number);
    }
  }

  // ----- the loops -----

  /** One pass over the records in order, carrying the expected predecessor. */
  method VerifyChain(records: seq<Record>, genesis: bool) returns (ok: bool)
    ensures ok <==> Verifies(records, genesis)
  {
    var s := Sort(records);
    if |s| == 0 { return true; }
    if genesis && (s[0].number != 0 || s[0].previous != Genesis) { return false; }
    var previous, before := s[0].previous, s[0].number - 1;
    var i := 0;
    while i < |s|
      invariant 0 <= i <= |s|
      invariant forall j :: 0 <= j < i ==> LinkOk(s, j)
      invariant before == s[0].number - 1 + i
      invariant i > 0 ==> previous == s[i - 1].hash
      invariant i == 0 ==> previous == s[0].previous
    {
      var r := s[i];
      if r.number != before + 1 || r.previous != previous || Computed(r) != r.hash {
        assert !LinkOk(s, i);
        return false;
      }
      previous, before := r.hash, r.number;
      i := i + 1;
    }
    return true;
  }

  method VerifyAnchored(records: seq<Record>, c: Checkpoint) returns (ok: bool)
    ensures ok <==> Anchored(records, c)
  {
    if c.number < 0 { return false; }
    var chain := VerifyChain(records, true);
    if !chain || c.number > |records| { return false; }
    var expected := if c.number == 0 then Genesis else records[c.number - 1].hash;
    return expected == c.head;
  }

  /** The first entry with this number, or the length of the list. */
  method FindNumber(s: seq<Record>, n: int) returns (i: int)
    ensures 0 <= i <= |s|
    ensures i < |s| ==> s[i].number == n
    ensures forall j :: 0 <= j < i ==> s[j].number != n
  {
    i := 0;
    while i < |s| && s[i].number != n
      invariant 0 <= i <= |s|
      invariant forall j :: 0 <= j < i ==> s[j].number != n
    {
      i := i + 1;
    }
  }

  method VerifyBundle(records: seq<Record>, c: Checkpoint) returns (ok: bool)
    ensures ok <==> BundleOk(records, c)
  {
    if c.number < 0 { return false; }
    var s := Sort(records);
    var chain := VerifyChain(records, |s| == 0 || s[0].number == 0);
    if !chain { return false; }
    if |s| == 0 { return c.number == 0 && c.head == Genesis; }
    if s[0].number > c.number { return false; }
    if s[0].number == c.number { return s[0].previous == c.head; }
    if c.number == 0 { return c.head == Genesis; }
    var i := FindNumber(s, c.number - 1);
    LinkedStrict(s);
    return i < |s| && s[i].hash == c.head;
  }

  class AuditLog {
    var records: seq<Record>
    var hold: bool
    ghost var all: seq<Record>
    ghost var issued: seq<Checkpoint>

    constructor ()
      ensures Snapshot() == Run([])
    {
      records, hold, all, issued := [], false, [], [];
    }

    ghost function Snapshot(): Log
      reads this
    {
      Log(records, hold, all, issued)
    }

    /** The sequence number and predecessor come from the durable head. */
    method AppendEntry(content: string) returns (r: Record)
      modifies this`records, this`all
      ensures Snapshot() == old(Apply(Snapshot(), Append(content)))
      ensures records == old(records) + [r]
    {
      var number, previous := 0, Genesis;
      if |records| > 0 {
        var last := records[|records| - 1];
        number, previous := last.number + 1, last.hash;
      }
      r := Record(number, content, previous, Sha(number, content, previous));
      records := records + [r];
      all := all + [r];
    }

    method SetLegalHold(on: bool)
      modifies this`hold
      ensures Snapshot() == old(Apply(Snapshot(), Hold(on)))
    {
      hold := on;
    }

    /** Nothing is deleted in production, under a hold, or while the store keeps anything the audit is evidence for. */
    method TruncateBefore(n: int, v: Evidence) returns (removed: int)
      modifies this`records
      ensures Snapshot() == old(Apply(Snapshot(), Truncate(n, v)))
      ensures removed == |old(records)| - |records|
    {
      removed := 0;
      if v.production || n <= 0 || hold || v.holds > 0 { return; }
      if v.operations > 0 || v.links > 0 || v.openTasks > 0 || v.pendingBudgets > 0 { return; }
      if |records| > 0 && n > records[|records| - 1].number { return; }
      var kept: seq<Record> := [];
      var i := 0;
      while i < |records|
        invariant 0 <= i <= |records|
        invariant records == old(records)
        invariant kept == Kept(records[..i], n)
      {
        assert records[..i + 1][..i] == records[..i];
        if records[i].number >= n { kept := kept + [records[i]]; }
        i := i + 1;
      }
      assert records[..i] == records;
      removed := |records| - |kept|;
      records := kept;
    }

    method SignCheckpoint() returns (c: Checkpoint)
      modifies this`issued
      ensures Snapshot() == old(Apply(Snapshot(), Sign))
      ensures c == CheckpointOf(records)
    {
      if |records| == 0 {
        c := Checkpoint(0, Genesis);
      } else {
        var last := records[|records| - 1];
        c := Checkpoint(last.number + 1, last.hash);
      }
      issued := issued + [c];
    }
  }
}
