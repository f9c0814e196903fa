/**
 The tenant authority directory: enrollment rows with revisions, delegations that pin
 the revisions they were granted under, sealed process-local principals, and the
 replay table of signed agent requests.
 */
module Authority {
  import opened Wrappers

  datatype Role = TenantAdmin | TenantOperator | TenantViewer

  datatype Person = Person(issuer: string, subject: string)

  /** A table and a primary key in it. */
  datatype Ref =
    | TenantRef(tenant: string)
    | AdminRef(person: Person)
    | MemberRef(tenant: string, person: Person)
    | AgentRef(tenant: string, agent: string)
    | GrantRef(tenant: string, id: string)

  datatype Body =
    | Plain
    | Member(role: Role, capabilities: set<string>, targets: set<string>)
    | Agent(key: string, capabilities: set<string>, targets: set<string>)
    | Delegation(agent: string, agentRevision: int, user: Person, userRevision: int,
                 grantor: Person, byPlatform: bool, grantorRevision: int, tenantRevision: int,
                 capabilities: set<string>, targets: set<string>, notBefore: real, expires: real)

  datatype Row = Row(revision: int, active: bool, body: Body)

  datatype Kind = PlatformAdmin | TenantUser(role: Role) | Machine | Delegated

  datatype Principal = Principal(
    kind: Kind,
    tenant: string,
    person: Person,
    revision: int,
    tenantRevision: int,
    agent: string,
    agentRevision: int,
    grant: string,
    grantRevision: int,
    validUntil: real,
    capabilities: set<string>,
    targets: set<string>,
    payload: string,
    nonce: Nonce)

  /** The text of a nonce is its time, spelled in `width` characters, a colon and the random part. */
  datatype Nonce = Nonce(width: nat, stamp: real, random: string)

  datatype Request = Request(tenant: string, agent: string, nonce: Nonce)

  /** What an agent's key signs: the request, the delegation it names and the body. */
  datatype Signature = Signature(key: string, request: Request, grant: Option<string>, payload: string)

  /** One accepted authentication, in the order of the transactions. */
  datatype Claim = Claim(request: Request, checked: real, at: real, principal: Principal)

  /**
   A signature verifies exactly if the holder of the key made it, so `signed` holds them
   all. `minted` holds the sealed principals with the rows each was derived from, `origins`
   the rows each delegation was granted under, and `claims` the accepted requests. The
   last two and the rows in `minted` are histories: no transaction reads them.
   */
  datatype Directory = Directory(
    now: real,
    rows: map<Ref, Row>,
    replays: map<Request, real>,
    signed: set<Signature>,
    minted: map<Principal, map<Ref, Row>>,
    origins: map<Ref, map<Ref, Row>>,
    claims: seq<Claim>)

  // ----- reading rows -----

  predicate Matches(r: Ref, b: Body) {
    match r
    case TenantRef(_) => b.Plain?
    case AdminRef(_) => b.Plain?
    case MemberRef(_, _) => b.Member?
    case AgentRef(_, _) => b.Agent?
    case GrantRef(_, _) => b.Delegation?
  }

  predicate IsActive(d: Directory, r: Ref) {
    r in d.rows && d.rows[r].active && Matches(r, d.rows[r].body)
  }

  predicate Live(d: Directory, r: Ref, revision: int) {
    IsActive(d, r) && d.rows[r].revision == revision
  }

  function GrantorRef(tenant: string, g: Body): Ref
    requires g.Delegation?
  {
    if g.byPlatform then AdminRef(g.grantor) else MemberRef(tenant, g.grantor)
  }

  /** The delegation is active, in its window, and every row it pins is still at the pinned revision. */
  predicate GrantHolds(d: Directory, tenant: string, id: string, agent: string) {
    && IsActive(d, GrantRef(tenant, id))
    && var g := d.rows[GrantRef(tenant, id)].body;
       && g.notBefore <= d.now < g.expires
       && g.agent == agent
       && Live(d, AgentRef(tenant, agent), g.agentRevision)
       && Live(d, TenantRef(tenant), g.tenantRevision)
       && Live(d, MemberRef(tenant, g.user), g.userRevision)
       && Live(d, GrantorRef(tenant, g), g.grantorRevision)
       && (!g.byPlatform ==> d.rows[GrantorRef(tenant, g)].body.role == TenantAdmin)
  }

  /** A sealed, unexpired principal whose rows have not moved. */
  predicate Current(d: Directory, p: Principal) {
    && p in d.minted && p.validUntil > d.now
    && match p.kind
       case PlatformAdmin => Live(d, AdminRef(p.person), p.revision)
       case TenantUser(role) =>
         && Live(d, TenantRef(p.tenant), p.tenantRevision)
         && Live(d, MemberRef(p.tenant, p.person), p.revision)
         && d.rows[MemberRef(p.tenant, p.person)].body.role == role
       case Machine =>
         && Live(d, TenantRef(p.tenant), p.tenantRevision)
         && Live(d, AgentRef(p.tenant, p.agent), p.agentRevision)
       case Delegated =>
         && Live(d, TenantRef(p.tenant), p.tenantRevision)
         && Live(d, AgentRef(p.tenant, p.agent), p.agentRevision)
         && GrantHolds(d, p.tenant, p.grant, p.agent)
         && d.rows[GrantRef(p.tenant, p.grant)].revision == p.grantRevision
  }

  predicate Administers(d: Directory, actor: Principal, tenant: Option<string>) {
    && Current(d, actor)
    && (actor.kind.PlatformAdmin? || (tenant.Some? && actor.kind == TenantUser(TenantAdmin) && actor.tenant == tenant.value))
  }

  function ActiveAdmins(rows: map<Ref, Row>): set<Ref> {
    set r | r in rows && r.AdminRef? && rows[r].active
  }

  // ----- writing rows -----

  /** Every change of a row, and its creation, takes the next revision. */
  function Put(rows: map<Ref, Row>, r: Ref, active: bool, body: Body): map<Ref, Row> {
    rows[r := Row(if r in rows then rows[r].revision + 1 else 1, active, body)]
  }

  function Revoke(rows: map<Ref, Row>, r: Ref): map<Ref, Row> {
    if r in rows then Put(rows, r, false, rows[r].body) else rows
  }

  function RevisionOf(rows: map<Ref, Row>, r: Ref): int {
    if r in rows then rows[r].revision else 0
  }

  function Reads(d: Directory, refs: set<Ref>): map<Ref, Row> {
    map r | r in refs && r in d.rows :: d.rows[r]
  }

  datatype Terms = Terms(capabilities: set<string>, targets: set<string>, notBefore: real, expires: real)

  datatype Event =
    | Advance(elapsed: real)
    | Bootstrap(person: Person)
    | LoginPlatform(person: Person, expires: real)
    | LoginMember(tenant: string, person: Person, expires: real)
    | SetTenant(actor: Principal, tenant: string, active: bool)
    | EnrollAdmin(actor: Principal, person: Person)
    | RevokeAdmin(actor: Principal, person: Person)
    | EnrollMember(actor: Principal, tenant: string, person: Person, enrollment: Body)
    | RevokeMember(actor: Principal, tenant: string, person: Person)
    | EnrollAgent(actor: Principal, tenant: string, agent: string, enrollment: Body)
    | RevokeAgent(actor: Principal, tenant: string, agent: string)
    | Grant(actor: Principal, user: Principal, agent: string, id: string, terms: Terms, asked: real)
    | RevokeGrant(actor: Principal, tenant: string, id: string)
    | SignRequest(signature: Signature)
    | Authenticate(request: Request, grant: Option<string>, payload: string, checked: real)
    | Prune(actor: Principal, limit: int, batch: set<Request>)

  /** Consent is inside the user's session, at most an hour long, and within what user and agent may do. */
  predicate Grantable(d: Directory, actor: Principal, user: Principal, agent: string, id: string, t: Terms, asked: real) {
    && user.kind.TenantUser?
    && asked <= d.now
    && asked <= t.notBefore < t.expires <= user.validUntil && t.expires <= asked + 3600.0
    && Administers(d, actor, Some(user.tenant)) && Current(d, user)
    && IsActive(d, AgentRef(user.tenant, agent))
    && GrantRef(user.tenant, id) !in d.rows
    && t.capabilities != {}
    && t.capabilities <= user.capabilities * d.rows[AgentRef(user.tenant, agent)].body.capabilities
    && t.targets <= user.targets * d.rows[AgentRef(user.tenant, agent)].body.targets
  }

  function Granted(d: Directory, actor: Principal, user: Principal, agent: string, t: Terms): Body {
    Delegation(agent, RevisionOf(d.rows, AgentRef(user.tenant, agent)), user.person, user.revision,
               actor.person, actor.kind.PlatformAdmin?, actor.revision, user.tenantRevision,
               t.capabilities, t.targets, t.notBefore, t.expires)
  }

  function PinnedRefs(tenant: string, g: Body): set<Ref>
    requires g.Delegation?
  {
    {TenantRef(tenant), AgentRef(tenant, g.agent), MemberRef(tenant, g.user), GrantorRef(tenant, g)}
  }

  /** A body of at most a megabyte, at most 256 characters of nonce, and at least 16 of them random. */
  predicate WellSized(n: Nonce, payload: string) {
    |payload| <= 1048576 && n.width + 1 + |n.random| <= 256 && |n.random| >= 16
  }

  /** The freshness test was passed at `checked`; the claim happens now. */
  predicate Authenticates(d: Directory, q: Request, grant: Option<string>, payload: string, checked: real) {
    && WellSized(q.nonce, payload)
    && checked <= d.now && q.nonce.stamp - 300.0 <= checked <= q.nonce.stamp + 300.0
    && IsActive(d, TenantRef(q.tenant)) && IsActive(d, AgentRef(q.tenant, q.agent))
    && Signature(d.rows[AgentRef(q.tenant, q.agent)].body.key, q, grant, payload) in d.signed
    && (grant.Some? ==> GrantHolds(d, q.tenant, grant.value, q.agent))
    && q !in d.replays
  }

  function Authenticated(d: Directory, q: Request, grant: Option<string>, body: string): Principal
    requires IsActive(d, TenantRef(q.tenant)) && IsActive(d, AgentRef(q.tenant, q.agent))
    requires grant.Some? ==> IsActive(d, GrantRef(q.tenant, grant.value))
  {
    var tenant, agent := d.rows[TenantRef(q.tenant)], d.rows[AgentRef(q.tenant, q.agent)];
    var until := q.nonce.stamp + 300.0;
    if grant.None? then
      Principal(Machine, q.tenant, Person("urn:agentbridge:enrollment", q.agent), agent.revision, tenant.revision, q.agent, agent.revision,
                "", 0, until, agent.body.capabilities, agent.body.targets, body, q.nonce)
    else
      var row := d.rows[GrantRef(q.tenant, grant.value)];
      Principal(Delegated, q.tenant, row.body.user, agent.revision, tenant.revision, q.agent, agent.revision,
                grant.value, row.revision, if row.body.expires <= until then row.body.expires else until,
                row.body.capabilities, row.body.targets, body, q.nonce)
  }

  /** Rows old enough to forget, oldest first, at most `limit` of them. */
  predicate Prunable(d: Directory, limit: int, batch: set<Request>) {
    && (forall q :: q in batch ==> q in d.replays && d.replays[q] < d.now - 600.0)
    && |batch| <= limit
    && (forall q, kept :: q in batch && kept in d.replays && kept !in batch ==> d.replays[q] <= d.replays[kept])
    && (|batch| < limit ==> forall q :: q in d.replays && q !in batch ==> d.replays[q] >= d.now - 600.0)
  }

  predicate Enabled(d: Directory, e: Event) {
    match e
    case Advance(elapsed) => elapsed >= 0.0
    case Bootstrap(person) => forall r :: r in d.rows ==> !r.AdminRef?
    case LoginPlatform(person, expires) => expires > d.now && IsActive(d, AdminRef(person))
    case LoginMember(t, person, expires) => expires > d.now && IsActive(d, TenantRef(t)) && IsActive(d, MemberRef(t, person))
    case SetTenant(actor, t, active) => Administers(d, actor, None)
    case EnrollAdmin(actor, person) => Administers(d, actor, None)
    case RevokeAdmin(actor, person) =>
      Administers(d, actor, None) && IsActive(d, AdminRef(person)) && |ActiveAdmins(d.rows)| > 1
    case EnrollMember(actor, t, person, body) => body.Member? && Administers(d, actor, Some(t)) && IsActive(d, TenantRef(t))
    case RevokeMember(actor, t, person) => Administers(d, actor, Some(t)) && IsActive(d, MemberRef(t, person))
    case EnrollAgent(actor, t, agent, body) => body.Agent? && Administers(d, actor, Some(t)) && IsActive(d, TenantRef(t))
    case RevokeAgent(actor, t, agent) => Administers(d, actor, Some(t)) && IsActive(d, AgentRef(t, agent))
    case Grant(actor, user, agent, id, terms, asked) => Grantable(d, actor, user, agent, id, terms, asked)
    case RevokeGrant(actor, t, id) => Administers(d, actor, Some(t)) && GrantRef(t, id) in d.rows
    case SignRequest(signature) => true
    case Authenticate(q, grant, payload, checked) => Authenticates(d, q, grant, payload, checked)
    case Prune(actor, limit, batch) => 1 <= limit <= 10000 && Administers(d, actor, None) && Prunable(d, limit, batch)
  }

  function RowsAfter(d: Directory, e: Event): map<Ref, Row> {
    match e
    case Bootstrap(person) => Put(d.rows, AdminRef(person), true, Plain)
    case SetTenant(actor, t, active) => Put(d.rows, TenantRef(t), active, Plain)
    case EnrollAdmin(actor, person) => Put(d.rows, AdminRef(person), true, Plain)
    case RevokeAdmin(actor, person) => Revoke(d.rows, AdminRef(person))
    case EnrollMember(actor, t, person, body) => Put(d.rows, MemberRef(t, person), true, body)
    case RevokeMember(actor, t, person) => Revoke(d.rows, MemberRef(t, person))
    case EnrollAgent(actor, t, agent, body) => Put(d.rows, AgentRef(t, agent), true, body)
    case RevokeAgent(actor, t, agent) => Revoke(d.rows, AgentRef(t, agent))
    case Grant(actor, user, agent, id, terms, asked) =>
      Put(d.rows, GrantRef(user.tenant, id), true, Granted(d, actor, user, agent, terms))
    case RevokeGrant(actor, t, id) => Revoke(d.rows, GrantRef(t, id))
    case _ => d.rows
  }

  function PlatformSession(d: Directory, person: Person, expires: real): Principal
    requires IsActive(d, AdminRef(person))
  {
    Principal(PlatformAdmin, "", person, d.rows[AdminRef(person)].revision, 0, "", 0, "", 0, expires, {}, {}, "", Nonce(0, 0.0, ""))
  }

  function MemberSession(d: Directory, tenant: string, person: Person, expires: real): Principal
    requires IsActive(d, TenantRef(tenant)) && IsActive(d, MemberRef(tenant, person))
  {
    var row := d.rows[MemberRef(tenant, person)];
    Principal(TenantUser(row.body.role), tenant, person, row.revision, d.rows[TenantRef(tenant)].revision, "", 0, "", 0, expires,
              row.body.capabilities, row.body.targets, "", Nonce(0, 0.0, ""))
  }

  function RequestRefs(q: Request, grant: Option<string>): set<Ref> {
    {TenantRef(q.tenant), AgentRef(q.tenant, q.agent)} + (if grant.Some? then {GrantRef(q.tenant, grant.value)} else {})
  }

  predicate Mints(e: Event) {
    e.LoginPlatform? || e.LoginMember? || e.Authenticate?
  }

  function Session(d: Directory, e: Event): Principal
    requires Enabled(d, e) && Mints(e)
  {
    if e.LoginPlatform? then PlatformSession(d, e.person, e.expires)
    else if e.LoginMember? then MemberSession(d, e.tenant, e.person, e.expires)
    else Authenticated(d, e.request, e.grant, e.payload)
  }

  function SessionRefs(e: Event): set<Ref>
    requires Mints(e)
  {
    if e.LoginPlatform? then {AdminRef(e.person)}
    else if e.LoginMember? then {TenantRef(e.tenant), MemberRef(e.tenant, e.person)}
    else RequestRefs(e.request, e.grant)
  }

  function MintedAfter(d: Directory, e: Event): map<Principal, map<Ref, Row>>
    requires Enabled(d, e)
  {
    if Mints(e) then d.minted[Session(d, e) := Reads(d, SessionRefs(e))] else d.minted
  }

  function OriginsAfter(d: Directory, e: Event): map<Ref, map<Ref, Row>> {
    if e.Grant? then
      d.origins[GrantRef(e.user.tenant, e.id) := Reads(d, PinnedRefs(e.user.tenant, Granted(d, e.actor, e.user, e.agent, e.terms)))]
    else d.origins
  }

  function ReplaysAfter(d: Directory, e: Event): map<Request, real> {
    if e.Authenticate? then d.replays[e.request := d.now]
    else if e.Prune? then d.replays - e.batch
    else d.replays
  }

  function ClaimsAfter(d: Directory, e: Event): seq<Claim>
    requires Enabled(d, e)
  {
    if e.Authenticate? then d.claims + [Claim(e.request, e.checked, d.now, Authenticated(d, e.request, e.grant, e.payload))]
    else d.claims
  }

  /** A refused operation changes nothing. */
  function Apply(d: Directory, e: Event): Directory {
    if !Enabled(d, e) then d
    else Directory(if e.Advance? then d.now + e.elapsed else d.now,
                   RowsAfter(d, e), ReplaysAfter(d, e),
                   if e.SignRequest? then d.signed + {e.signature} else d.signed, MintedAfter(d, e), OriginsAfter(d, e), ClaimsAfter(d, e))
  }

  /** The claim row, the sealed principal and the history of both. */
  function AfterClaim(d: Directory, q: Request, grant: Option<string>, payload: string, checked: real): Directory
    requires Authenticates(d, q, grant, payload, checked)
  {
    var p := Authenticated(d, q, grant, payload);
    d.(replays := d.replays[q := d.now], minted := d.minted[p := Reads(d, RequestRefs(q, grant))],
       claims := d.claims + [Claim(q, checked, d.now, p)])
  }

  lemma AuthenticateStep(d: Directory, q: Request, grant: Option<string>, payload: string, checked: real)
    ensures Apply(d, Authenticate(q, grant, payload, checked)) ==
            if Authenticates(d, q, grant, payload, checked) then AfterClaim(d, q, grant, payload, checked) else d
  {
  }

  function Run(d: Directory, events: seq<Event>): Directory {
    if |events| == 0 then d else Apply(Run(d, events[..|events| - 1]), events[|events| - 1])
  }

  function Start(now: real): Directory {
    Directory(now, map[], map[], {}, map[], map[], [])
  }

  // ----- a revision names one row forever -----

  /** The row at `r` has moved on from `was`, or is still exactly `was`. */
  predicate Follows(rows: map<Ref, Row>, r: Ref, was: Row) {
    r in rows && was.revision <= rows[r].revision && (rows[r].revision == was.revision ==> rows[r] == was)
  }

  ghost predicate AllFollow(rows: map<Ref, Row>, seen: map<Ref, Row>) {
    forall r :: r in seen ==> Follows(rows, r, seen[r])
  }

  ghost predicate Advances(rows: map<Ref, Row>, rows': map<Ref, Row>) {
    forall r :: r in rows ==> Follows(rows', r, rows[r])
  }

  lemma AdvancingFollows(rows: map<Ref, Row>, rows': map<Ref, Row>, seen: map<Ref, Row>)
    requires Advances(rows, rows') && AllFollow(rows, seen)
    ensures AllFollow(rows', seen)
  {
    forall r | r in seen ensures Follows(rows', r, seen[r]) { assert Follows(rows, r, seen[r]) && Follows(rows', r, rows[r]); }
  }

  lemma StepAdvances(d: Directory, e: Event)
    ensures Advances(d.rows, Apply(d, e).rows) && d.now <= Apply(d, e).now
  {
  }

  // ----- what every reachable directory satisfies -----

  ghost predicate Typed(rows: map<Ref, Row>) {
    forall r :: r in rows ==> Matches(r, rows[r].body)
  }

  /** `seen` shows `r` active at this revision. */
  predicate Saw(seen: map<Ref, Row>, r: Ref, revision: int) {
    r in seen && seen[r].active && seen[r].revision == revision && Matches(r, seen[r].body)
  }

  /** A principal says what the rows it was derived from said. */
  predicate Derived(p: Principal, seen: map<Ref, Row>, now: real) {
    match p.kind
    case PlatformAdmin => Saw(seen, AdminRef(p.person), p.revision)
    case TenantUser(role) =>
      && Saw(seen, TenantRef(p.tenant), p.tenantRevision) && Saw(seen, MemberRef(p.tenant, p.person), p.revision)
      && seen[MemberRef(p.tenant, p.person)].body == Member(role, p.capabilities, p.targets)
    case Machine =>
      && Saw(seen, TenantRef(p.tenant), p.tenantRevision) && Saw(seen, AgentRef(p.tenant, p.agent), p.agentRevision)
      && seen[AgentRef(p.tenant, p.agent)].body.capabilities == p.capabilities
      && seen[AgentRef(p.tenant, p.agent)].body.targets == p.targets
    case Delegated =>
      && Saw(seen, TenantRef(p.tenant), p.tenantRevision) && Saw(seen, AgentRef(p.tenant, p.agent), p.agentRevision)
      && Saw(seen, GrantRef(p.tenant, p.grant), p.grantRevision)
      && var g := seen[GrantRef(p.tenant, p.grant)].body;
         && g.capabilities == p.capabilities && g.targets == p.targets && g.agent == p.agent
         && p.validUntil <= g.expires && g.notBefore <= now
  }

  ghost predicate MintedFit(d: Directory) {
    forall p :: p in d.minted ==> Derived(p, d.minted[p], d.now) && AllFollow(d.rows, d.minted[p])
  }

  /** The rows a delegation was granted under: all active, at the pinned revisions, and allowing all it grants. */
  predicate OriginFits(tenant: string, g: Body, seen: map<Ref, Row>)
    requires g.Delegation?
  {
    && Saw(seen, TenantRef(tenant), g.tenantRevision)
    && Saw(seen, AgentRef(tenant, g.agent), g.agentRevision)
    && Saw(seen, MemberRef(tenant, g.user), g.userRevision)
    && Saw(seen, GrantorRef(tenant, g), g.grantorRevision)
    && (!g.byPlatform ==> seen[GrantorRef(tenant, g)].body.role == TenantAdmin)
    && g.notBefore < g.expires <= g.notBefore + 3600.0
    && g.capabilities != {}
    && g.capabilities <= seen[MemberRef(tenant, g.user)].body.capabilities * seen[AgentRef(tenant, g.agent)].body.capabilities
    && g.targets <= seen[MemberRef(tenant, g.user)].body.targets * seen[AgentRef(tenant, g.agent)].body.targets
  }

  /** Revision 1 is the row as granted; a revoked delegation never comes back. */
  predicate GrantFits(d: Directory, r: Ref) {
    && r.GrantRef? && r in d.rows && r in d.origins && d.rows[r].body.Delegation?
    && 1 <= d.rows[r].revision && (d.rows[r].active ==> d.rows[r].revision == 1)
    && OriginFits(r.tenant, d.rows[r].body, d.origins[r])
  }

  ghost predicate GrantsFit(d: Directory) {
    && (forall r :: r in d.rows && r.GrantRef? ==> GrantFits(d, r) && AllFollow(d.rows, d.origins[r]))
    && OriginsKnown(d)
  }

  ghost predicate OriginsKnown(d: Directory) {
    forall r :: r in d.origins ==> r in d.rows && r.GrantRef?
  }

  ghost predicate AdminsFit(rows: map<Ref, Row>) {
    (exists r :: r in rows && r.AdminRef?) ==> |ActiveAdmins(rows)| > 0
  }

  /** A claim is on record, or its row was old enough to forget. */
  predicate ClaimFits(d: Directory, c: Claim) {
    && c.request.nonce.stamp - 300.0 <= c.checked <= c.at <= d.now
    && c.principal.validUntil <= c.request.nonce.stamp + 300.0
    && (if c.request in d.replays then c.at <= d.replays[c.request] else c.at < d.now - 600.0)
  }

  ghost predicate ClaimsFit(d: Directory) {
    && (forall i :: 0 <= i < |d.claims| ==> ClaimFits(d, d.claims[i]))
    && (forall q :: q in d.replays ==> d.replays[q] <= d.now)
    && (forall i, j :: 0 <= i < j < |d.claims| && d.claims[i].request == d.claims[j].request ==> ExpiredAt(d.claims[j]))
  }

  /** The principal of this claim had expired when the claim was made. */
  predicate ExpiredAt(c: Claim) {
    c.principal.validUntil <= c.at && c.checked < c.at
  }

  ghost predicate Inv(d: Directory) {
    Typed(d.rows) && MintedFit(d) && GrantsFit(d) && AdminsFit(d.rows) && ClaimsFit(d) && SignedFit(d)
  }

  lemma StepTyped(d: Directory, e: Event)
    requires Typed(d.rows)
    ensures Typed(Apply(d, e).rows)
  {
  }

  lemma ReadsFollow(d: Directory, refs: set<Ref>)
    ensures AllFollow(d.rows, Reads(d, refs))
  {
  }

  lemma OldMintedFit(d: Directory, d': Directory, p: Principal)
    requires MintedFit(d) && Advances(d.rows, d'.rows) && d.now <= d'.now && p in d.minted
    ensures Derived(p, d.minted[p], d'.now) && AllFollow(d'.rows, d.minted[p])
  {
    AdvancingFollows(d.rows, d'.rows, d.minted[p]);
  }

  lemma AuthenticatedDerived(d: Directory, q: Request, grant: Option<string>, payload: string, checked: real)
    requires Authenticates(d, q, grant, payload, checked)
    ensures Derived(Authenticated(d, q, grant, payload), Reads(d, RequestRefs(q, grant)), d.now)
    ensures Authenticated(d, q, grant, payload).validUntil <= q.nonce.stamp + 300.0
  {
  }

  lemma SessionDerived(d: Directory, e: Event)
    requires Enabled(d, e) && Mints(e)
    ensures Derived(Session(d, e), Reads(d, SessionRefs(e)), d.now)
  {
    if e.Authenticate? { AuthenticatedDerived(d, e.request, e.grant, e.payload, e.checked); }
  }

  lemma StepMinted(d: Directory, e: Event)
    requires MintedFit(d)
    ensures MintedFit(Apply(d, e))
  {
    var d' := Apply(d, e);
    StepAdvances(d, e);
    forall p | p in d'.minted ensures Derived(p, d'.minted[p], d'.now) && AllFollow(d'.rows, d'.minted[p]) {
      if Enabled(d, e) && Mints(e) && p == Session(d, e) {
        SessionDerived(d, e);
        ReadsFollow(d, SessionRefs(e));
        AdvancingFollows(d.rows, d'.rows, d'.minted[p]);
      } else {
        OldMintedFit(d, d', p);
      }
    }
  }

  /** A current user's session says exactly what the member row says now. */
  lemma CurrentUser(d: Directory, u: Principal)
    requires MintedFit(d) && Current(d, u) && u.kind.TenantUser?
    ensures Live(d, TenantRef(u.tenant), u.tenantRevision) && Live(d, MemberRef(u.tenant, u.person), u.revision)
    ensures d.rows[MemberRef(u.tenant, u.person)].body == Member(u.kind.role, u.capabilities, u.targets)
  {
    var m := MemberRef(u.tenant, u.person);
    assert Follows(d.rows, m, d.minted[u][m]);
  }

  lemma GrantOrigin(d: Directory, actor: Principal, user: Principal, agent: string, id: string, t: Terms, asked: real)
    requires MintedFit(d) && Grantable(d, actor, user, agent, id, t, asked)
    ensures var g := Granted(d, actor, user, agent, t); OriginFits(user.tenant, g, Reads(d, PinnedRefs(user.tenant, g)))
  {
    CurrentUser(d, user);
  }

  predicate Grows(rows: map<Ref, Row>, rows': map<Ref, Row>, r: Ref) {
    r in rows && r in rows' && rows[r].revision <= rows'[r].revision && rows'[r].body == rows[r].body
    && (rows'[r] == rows[r] || !rows'[r].active)
  }

  /** A delegation is never edited: it is created once, and may be revoked. */
  lemma GrantsOnlyRevoked(d: Directory, e: Event, r: Ref)
    requires Enabled(d, e) && r.GrantRef? && r in d.rows
    ensures Grows(d.rows, RowsAfter(d, e), r)
  {
  }

  lemma OldGrant(d: Directory, e: Event, r: Ref)
    requires Enabled(d, e) && r in d.rows && GrantFits(d, r)
    ensures GrantFits(Apply(d, e), r) && Apply(d, e).origins[r] == d.origins[r]
  {
    GrantsOnlyRevoked(d, e, r);
  }

  lemma NewGrant(d: Directory, e: Event, r: Ref)
    requires Enabled(d, e) && MintedFit(d) && r.GrantRef? && r !in d.rows && r in RowsAfter(d, e)
    ensures GrantFits(Apply(d, e), r) && AllFollow(d.rows, Apply(d, e).origins[r])
  {
    assert e.Grant? && r == GrantRef(e.user.tenant, e.id);
    GrantOrigin(d, e.actor, e.user, e.agent, e.id, e.terms, e.asked);
  }

  lemma StepOrigins(d: Directory, e: Event)
    requires OriginsKnown(d)
    ensures OriginsKnown(Apply(d, e))
  {
    StepAdvances(d, e);
    if Enabled(d, e) && e.Grant? { assert GrantRef(e.user.tenant, e.id) in RowsAfter(d, e); }
  }

  lemma GrantAfter(d: Directory, e: Event, r: Ref)
    requires Enabled(d, e) && MintedFit(d) && GrantsFit(d) && Advances(d.rows, RowsAfter(d, e)) && r in RowsAfter(d, e) && r.GrantRef?
    ensures GrantFits(Apply(d, e), r) && AllFollow(RowsAfter(d, e), Apply(d, e).origins[r])
  {
    if r in d.rows { OldGrant(d, e, r); } else { NewGrant(d, e, r); }
    AdvancingFollows(d.rows, RowsAfter(d, e), Apply(d, e).origins[r]);
  }

  lemma StepGrants(d: Directory, e: Event)
    requires MintedFit(d) && GrantsFit(d)
    ensures GrantsFit(Apply(d, e))
  {
    if Enabled(d, e) {
      StepAdvances(d, e);
      StepOrigins(d, e);
      forall r | r in RowsAfter(d, e) && r.GrantRef? ensures GrantFits(Apply(d, e), r) && AllFollow(RowsAfter(d, e), Apply(d, e).origins[r]) {
        GrantAfter(d, e, r);
      }
    }
  }

  lemma AdminsAfter(d: Directory, e: Event)
    requires Enabled(d, e)
    ensures ActiveAdmins(RowsAfter(d, e)) ==
            if e.EnrollAdmin? || e.Bootstrap? then ActiveAdmins(d.rows) + {AdminRef(e.person)}
            else if e.RevokeAdmin? then ActiveAdmins(d.rows) - {AdminRef(e.person)}
            else ActiveAdmins(d.rows)
    ensures !e.EnrollAdmin? && !e.Bootstrap? ==> forall r :: r in RowsAfter(d, e) && r.AdminRef? ==> r in d.rows
  {
  }

  lemma StepAdmins(d: Directory, e: Event)
    requires AdminsFit(d.rows)
    ensures AdminsFit(Apply(d, e).rows)
  {
    if Enabled(d, e) {
      AdminsAfter(d, e);
      assert (e.EnrollAdmin? || e.Bootstrap?) ==> AdminRef(e.person) in ActiveAdmins(RowsAfter(d, e));
    }
  }

  /** The signature that stands behind an agent's principal, under the key of the row it was derived from. */
  ghost predicate SignedBy(p: Principal, key: string, signed: set<Signature>) {
    Signature(key, Request(p.tenant, p.agent, p.nonce), if p.kind.Delegated? then Some(p.grant) else None, p.payload) in signed
  }

  ghost predicate SignedFit(d: Directory) {
    forall p :: p in d.minted && (p.kind.Machine? || p.kind.Delegated?) ==>
      var r := AgentRef(p.tenant, p.agent);
      r in d.minted[p] && d.minted[p][r].body.Agent? && SignedBy(p, d.minted[p][r].body.key, d.signed)
  }

  lemma ClaimSigned(d: Directory, q: Request, grant: Option<string>, payload: string, checked: real)
    requires SignedFit(d) && Authenticates(d, q, grant, payload, checked)
    ensures SignedFit(AfterClaim(d, q, grant, payload, checked))
  {
    var p, r := Authenticated(d, q, grant, payload), AgentRef(q.tenant, q.agent);
    assert SignedBy(p, d.rows[r].body.key, d.signed);
    assert Reads(d, RequestRefs(q, grant))[r] == d.rows[r];
  }

  lemma StepSigned(d: Directory, e: Event)
    requires SignedFit(d)
    ensures SignedFit(Apply(d, e))
  {
    if Enabled(d, e) && e.Authenticate? {
      ClaimSigned(d, e.request, e.grant, e.payload, e.checked);
      AuthenticateStep(d, e.request, e.grant, e.payload, e.checked);
    }
  }

  /** A second claim of one request can only be made after the principal it yields has expired. */
  lemma SecondClaim(d: Directory, c: Claim, q: Request, grant: Option<string>, payload: string, checked: real)
    requires ClaimFits(d, c) && c.request == q && Authenticates(d, q, grant, payload, checked)
    ensures ExpiredAt(Claim(q, checked, d.now, Authenticated(d, q, grant, payload)))
  {
    AuthenticatedDerived(d, q, grant, payload, checked);
  }

  lemma ClaimsStay(d: Directory, d': Directory, forgotten: set<Request>)
    requires ClaimsFit(d) && d'.claims == d.claims && d.now <= d'.now && d'.replays == d.replays - forgotten
    requires forall q :: q in forgotten ==> q in d.replays && d.replays[q] < d.now - 600.0
    ensures ClaimsFit(d')
  {
    forall i | 0 <= i < |d'.claims| ensures ClaimFits(d', d'.claims[i]) { assert ClaimFits(d, d.claims[i]); }
  }

  lemma ClaimsExtend(d: Directory, q: Request, grant: Option<string>, payload: string, checked: real)
    requires ClaimsFit(d) && Authenticates(d, q, grant, payload, checked)
    ensures ClaimsFit(AfterClaim(d, q, grant, payload, checked))
  {
    var d' := AfterClaim(d, q, grant, payload, checked);
    AuthenticatedDerived(d, q, grant, payload, checked);
    forall i | 0 <= i < |d.claims| && d.claims[i].request == q ensures ExpiredAt(d'.claims[|d.claims|]) {
      SecondClaim(d, d.claims[i], q, grant, payload, checked);
    }
    forall i | 0 <= i < |d'.claims| ensures ClaimFits(d', d'.claims[i]) { assert i < |d.claims| ==> ClaimFits(d, d.claims[i]); }
  }

  lemma StepClaims(d: Directory, e: Event)
    requires ClaimsFit(d)
    ensures ClaimsFit(Apply(d, e))
  {
    if Enabled(d, e) && e.Authenticate? {
      ClaimsExtend(d, e.request, e.grant, e.payload, e.checked);
      AuthenticateStep(d, e.request, e.grant, e.payload, e.checked);
    } else {
      ClaimsStay(d, Apply(d, e), if Enabled(d, e) && e.Prune? then e.batch else {});
    }
  }

  lemma StepKeepsInv(d: Directory, e: Event)
    requires Inv(d)
    ensures Inv(Apply(d, e))
  {
    StepTyped(d, e);
    StepMinted(d, e);
    StepGrants(d, e);
    StepAdmins(d, e);
    StepClaims(d, e);
    StepSigned(d, e);
  }

  lemma {:induction false} RunKeepsInv(d: Directory, events: seq<Event>)
    requires Inv(d)
    ensures Inv(Run(d, events))
  {
    if |events| > 0 {
      RunKeepsInv(d, events[..|events| - 1]);
      StepKeepsInv(Run(d, events[..|events| - 1]), events[|events| - 1]);
    }
  }

  // ----- what callers are promised -----

  /** The row is active and exactly as it was when the delegation was made. */
  predicate Unchanged(d: Directory, seen: map<Ref, Row>, r: Ref) {
    IsActive(d, r) && r in seen && d.rows[r] == seen[r]
  }

  lemma PinUnchanged(d: Directory, seen: map<Ref, Row>, r: Ref, revision: int)
    requires AllFollow(d.rows, seen) && Saw(seen, r, revision) && Live(d, r, revision)
    ensures Unchanged(d, seen, r)
  {
    assert Follows(d.rows, r, seen[r]);
  }

  /** An accepted delegated principal rests on rows nobody has touched since the grant, and asks for no more than they allow. */
  lemma DelegationIsFresh(now: real, events: seq<Event>, p: Principal)
    requires p.kind == Delegated && Current(Run(Start(now), events), p)
    ensures var d, r := Run(Start(now), events), GrantRef(p.tenant, p.grant);
      && r in d.rows && r in d.origins && d.rows[r].active && d.rows[r].revision == 1 && d.rows[r].body.Delegation?
      && var g := d.rows[r].body;
         && Unchanged(d, d.origins[r], TenantRef(p.tenant)) && Unchanged(d, d.origins[r], AgentRef(p.tenant, p.agent))
         && Unchanged(d, d.origins[r], MemberRef(p.tenant, g.user)) && Unchanged(d, d.origins[r], GrantorRef(p.tenant, g))
         && p.capabilities != {}
         && p.capabilities <= d.rows[MemberRef(p.tenant, g.user)].body.capabilities * d.rows[AgentRef(p.tenant, p.agent)].body.capabilities
         && p.targets <= d.rows[MemberRef(p.tenant, g.user)].body.targets * d.rows[AgentRef(p.tenant, p.agent)].body.targets
         && g.notBefore <= d.now < p.validUntil <= g.expires <= g.notBefore + 3600.0
  {
    RunKeepsInv(Start(now), events);
    CurrentIsFresh(Run(Start(now), events), p);
  }

  lemma CurrentIsFresh(d: Directory, p: Principal)
    requires MintedFit(d) && GrantsFit(d) && p.kind == Delegated && Current(d, p)
    ensures var r := GrantRef(p.tenant, p.grant);
      && r in d.rows && r in d.origins && d.rows[r].active && d.rows[r].revision == 1 && d.rows[r].body.Delegation?
      && var g := d.rows[r].body;
         && Unchanged(d, d.origins[r], TenantRef(p.tenant)) && Unchanged(d, d.origins[r], AgentRef(p.tenant, p.agent))
         && Unchanged(d, d.origins[r], MemberRef(p.tenant, g.user)) && Unchanged(d, d.origins[r], GrantorRef(p.tenant, g))
         && p.capabilities != {}
         && p.capabilities <= d.rows[MemberRef(p.tenant, g.user)].body.capabilities * d.rows[AgentRef(p.tenant, p.agent)].body.capabilities
         && p.targets <= d.rows[MemberRef(p.tenant, g.user)].body.targets * d.rows[AgentRef(p.tenant, p.agent)].body.targets
         && g.notBefore <= d.now < p.validUntil <= g.expires <= g.notBefore + 3600.0
  {
    var r := GrantRef(p.tenant, p.grant);
    assert GrantFits(d, r);
    var g, seen := d.rows[r].body, d.origins[r];
    assert Follows(d.rows, r, d.minted[p][r]);
    PinUnchanged(d, seen, TenantRef(p.tenant), g.tenantRevision);
    PinUnchanged(d, seen, AgentRef(p.tenant, g.agent), g.agentRevision);
    PinUnchanged(d, seen, MemberRef(p.tenant, g.user), g.userRevision);
    PinUnchanged(d, seen, GrantorRef(p.tenant, g), g.grantorRevision);
  }

  /** Whoever acts as an agent signed this very request and body, with the key that is enrolled for the agent now. */
  lemma AcceptedIsSigned(now: real, events: seq<Event>, p: Principal)
    requires (p.kind.Machine? || p.kind.Delegated?) && Current(Run(Start(now), events), p)
    ensures var d, r := Run(Start(now), events), AgentRef(p.tenant, p.agent);
      IsActive(d, r) && SignedBy(p, d.rows[r].body.key, d.signed)
  {
    var d, r := Run(Start(now), events), AgentRef(p.tenant, p.agent);
    RunKeepsInv(Start(now), events);
    assert Derived(p, d.minted[p], d.now) && Follows(d.rows, r, d.minted[p][r]);
  }

  /** The rows an accepted principal depends on. */
  function DependsOn(d: Directory, p: Principal): set<Ref>
    requires Current(d, p)
  {
    match p.kind
    case PlatformAdmin => {AdminRef(p.person)}
    case TenantUser(_) => {TenantRef(p.tenant), MemberRef(p.tenant, p.person)}
    case Machine => {TenantRef(p.tenant), AgentRef(p.tenant, p.agent)}
    case Delegated =>
      PinnedRefs(p.tenant, d.rows[GrantRef(p.tenant, p.grant)].body) + {AgentRef(p.tenant, p.agent), GrantRef(p.tenant, p.grant)}
  }

  lemma StillLiveIsSame(d: Directory, d': Directory, r: Ref, revision: int)
    requires Advances(d.rows, d'.rows) && Live(d, r, revision) && Live(d', r, revision)
    ensures d'.rows[r] == d.rows[r]
  {
    assert Follows(d'.rows, r, d.rows[r]);
  }

  lemma StillCurrentIsSame(d: Directory, d': Directory, p: Principal, r: Ref)
    requires Advances(d.rows, d'.rows) && Current(d, p) && Current(d', p) && r in DependsOn(d, p)
    ensures r in d'.rows && d'.rows[r] == d.rows[r]
  {
    if r == AdminRef(p.person) && p.kind.PlatformAdmin? {
      StillLiveIsSame(d, d', r, p.revision);
    } else if r == TenantRef(p.tenant) {
      StillLiveIsSame(d, d', r, p.tenantRevision);
    } else if p.kind.TenantUser? {
      StillLiveIsSame(d, d', r, p.revision);
    } else if r == AgentRef(p.tenant, p.agent) {
      StillLiveIsSame(d, d', r, p.agentRevision);
    } else {
      StillLiveIsSame(d, d', GrantRef(p.tenant, p.grant), p.grantRevision);
      var g := d.rows[GrantRef(p.tenant, p.grant)].body;
      if r == MemberRef(p.tenant, g.user) { StillLiveIsSame(d, d', r, g.userRevision); }
      if r == GrantorRef(p.tenant, g) { StillLiveIsSame(d, d', r, g.grantorRevision); }
    }
  }

  /** A delegation holds from the moment it is granted, inside its window. */
  lemma GrantHoldsAtOnce(d: Directory, g: Event)
    requires MintedFit(d) && g.Grant? && Enabled(d, g) && g.terms.notBefore <= d.now < g.terms.expires
    ensures GrantHolds(Apply(d, g), g.user.tenant, g.id, g.agent)
    ensures Apply(d, g).rows[GrantRef(g.user.tenant, g.id)] == Row(1, true, Granted(d, g.actor, g.user, g.agent, g.terms))
  {
    CurrentUser(d, g.user);
  }

  /** While a delegation holds, the agent's next fresh request under it yields an accepted principal with exactly its scopes. */
  lemma RequestIsAccepted(d: Directory, q: Request, id: string, payload: string)
    requires GrantHolds(d, q.tenant, id, q.agent) && q !in d.replays && WellSized(q.nonce, payload)
    requires Signature(d.rows[AgentRef(q.tenant, q.agent)].body.key, q, Some(id), payload) in d.signed
    requires q.nonce.stamp - 300.0 <= d.now < q.nonce.stamp + 300.0
    ensures Authenticates(d, q, Some(id), payload, d.now)
    ensures var e, p := Authenticate(q, Some(id), payload, d.now), Authenticated(d, q, Some(id), payload);
      && Current(Apply(d, e), p) && p.kind == Delegated
      && var g := d.rows[GrantRef(q.tenant, id)].body;
         p.person == g.user && p.capabilities == g.capabilities && p.targets == g.targets
  {
    var e := Authenticate(q, Some(id), payload, d.now);
    assert Enabled(d, e);
  }

  /** `d'` is a later state of the same directory. */
  ghost predicate Later(d: Directory, d': Directory) {
    && Advances(d.rows, d'.rows) && d.now <= d'.now
    && (forall p :: p in d.minted ==> p in d'.minted)
  }

  lemma StepLater(d: Directory, e: Event)
    ensures Later(d, Apply(d, e))
  {
    StepAdvances(d, e);
  }

  lemma {:induction false} RunLater(d: Directory, events: seq<Event>)
    ensures Later(d, Run(d, events))
  {
    if |events| > 0 {
      var m := Run(d, events[..|events| - 1]);
      RunLater(d, events[..|events| - 1]);
      StepLater(m, events[|events| - 1]);
      forall r | r in d.rows ensures Follows(Run(d, events).rows, r, d.rows[r]) {
        assert Follows(m.rows, r, d.rows[r]) && Follows(Run(d, events).rows, r, m.rows[r]);
      }
    }
  }

  lemma LiveBefore(d: Directory, d': Directory, seen: map<Ref, Row>, r: Ref, revision: int)
    requires Advances(d.rows, d'.rows) && AllFollow(d.rows, seen) && Saw(seen, r, revision) && Live(d', r, revision)
    ensures Live(d, r, revision) && d.rows[r] == seen[r] == d'.rows[r]
  {
    assert Follows(d.rows, r, seen[r]) && Follows(d'.rows, r, d.rows[r]);
  }

  lemma GrantHeldBefore(d: Directory, d': Directory, p: Principal)
    requires Later(d, d') && MintedFit(d) && GrantsFit(d) && p in d.minted && p.kind == Delegated && Current(d', p)
    ensures GrantHolds(d, p.tenant, p.grant, p.agent) && d.rows[GrantRef(p.tenant, p.grant)].revision == p.grantRevision
  {
    var r := GrantRef(p.tenant, p.grant);
    LiveBefore(d, d', d.minted[p], r, p.grantRevision);
    assert GrantFits(d, r);
    var g, seen := d.rows[r].body, d.origins[r];
    LiveBefore(d, d', seen, TenantRef(p.tenant), g.tenantRevision);
    LiveBefore(d, d', seen, AgentRef(p.tenant, g.agent), g.agentRevision);
    LiveBefore(d, d', seen, MemberRef(p.tenant, g.user), g.userRevision);
    LiveBefore(d, d', seen, GrantorRef(p.tenant, g), g.grantorRevision);
  }

  lemma CurrentBefore(d: Directory, d': Directory, p: Principal)
    requires Later(d, d') && MintedFit(d) && GrantsFit(d) && p in d.minted && Current(d', p)
    ensures Current(d, p)
  {
    var seen := d.minted[p];
    match p.kind
    case PlatformAdmin => LiveBefore(d, d', seen, AdminRef(p.person), p.revision);
    case TenantUser(role) =>
      LiveBefore(d, d', seen, TenantRef(p.tenant), p.tenantRevision);
      LiveBefore(d, d', seen, MemberRef(p.tenant, p.person), p.revision);
    case Machine =>
      LiveBefore(d, d', seen, TenantRef(p.tenant), p.tenantRevision);
      LiveBefore(d, d', seen, AgentRef(p.tenant, p.agent), p.agentRevision);
    case Delegated =>
      LiveBefore(d, d', seen, TenantRef(p.tenant), p.tenantRevision);
      LiveBefore(d, d', seen, AgentRef(p.tenant, p.agent), p.agentRevision);
      GrantHeldBefore(d, d', p);
  }

  /** A principal that has been refused once is refused forever, through every re-enrollment and reactivation. */
  lemma StaleForever(now: real, events: seq<Event>, more: seq<Event>, p: Principal)
    requires p in Run(Start(now), events).minted && !Current(Run(Start(now), events), p)
    ensures !Current(Run(Run(Start(now), events), more), p)
  {
    var d := Run(Start(now), events);
    RunKeepsInv(Start(now), events);
    RunLater(d, more);
    if Current(Run(d, more), p) { CurrentBefore(d, Run(d, more), p); }
  }

  /** Revoking, reactivating or re-enrolling any row an accepted principal depends on refuses it from then on. */
  lemma ChangeRefuses(d: Directory, more: seq<Event>, p: Principal, r: Ref)
    requires Current(d, p) && r in DependsOn(d, p)
    requires r in Run(d, more).rows ==> Run(d, more).rows[r] != d.rows[r]
    ensures !Current(Run(d, more), p)
  {
    RunLater(d, more);
    if Current(Run(d, more), p) { StillCurrentIsSame(d, Run(d, more), p, r); }
  }

  /** Once bootstrapped, the platform always has an active administrator. */
  lemma NeverLockedOut(now: real, events: seq<Event>)
    requires exists r :: r in Run(Start(now), events).rows && r.AdminRef?
    ensures exists r :: r in Run(Start(now), events).rows && r.AdminRef? && Run(Start(now), events).rows[r].active
  {
    RunKeepsInv(Start(now), events);
    var admins := ActiveAdmins(Run(Start(now), events).rows);
    var r :| r in admins;
  }

  /**
   One signed request yields at most one principal that was ever usable: any later
   claim of it had passed its freshness test before, and its principal was expired on arrival.
   */
  lemma ReplaysAreExpired(now: real, events: seq<Event>, i: nat, j: nat)
    requires i < j < |Run(Start(now), events).claims|
    requires Run(Start(now), events).claims[i].request == Run(Start(now), events).claims[j].request
    ensures ExpiredAt(Run(Start(now), events).claims[j])
    ensures !Current(Run(Start(now), events), Run(Start(now), events).claims[j].principal)
  {
    RunKeepsInv(Start(now), events);
    assert ClaimFits(Run(Start(now), events), Run(Start(now), events).claims[j]);
  }

  predicate Atomic(e: Event, d: Directory) {
    e.Authenticate? ==> e.checked == d.now
  }

  /** When the freshness test and the claim are one step, a request is claimed at most once in any run. */
  lemma {:induction false} AtomicClaimsAreUnique(now: real, events: seq<Event>)
    requires forall k :: 0 <= k < |events| ==> Atomic(events[k], Run(Start(now), events[..k]))
    ensures forall i, j :: 0 <= i < j < |Run(Start(now), events).claims| ==>
              Run(Start(now), events).claims[i].request != Run(Start(now), events).claims[j].request
    ensures forall i :: 0 <= i < |Run(Start(now), events).claims| ==>
              Run(Start(now), events).claims[i].checked == Run(Start(now), events).claims[i].at
  {
    if |events| > 0 {
      var front, e := events[..|events| - 1], events[|events| - 1];
      forall k | 0 <= k < |front| ensures Atomic(front[k], Run(Start(now), front[..k])) {
        assert front[..k] == events[..k] && Atomic(events[k], Run(Start(now), events[..k]));
      }
      AtomicClaimsAreUnique(now, front);
      assert Atomic(e, Run(Start(now), front));
      RunKeepsInv(Start(now), events);
      AtomicStep(Run(Start(now), front), e);
    }
  }

  lemma AtomicStep(d: Directory, e: Event)
    requires Atomic(e, d) && ClaimsFit(Apply(d, e))
    requires forall i, j :: 0 <= i < j < |d.claims| ==> d.claims[i].request != d.claims[j].request
    requires forall i :: 0 <= i < |d.claims| ==> d.claims[i].checked == d.claims[i].at
    ensures var c := Apply(d, e).claims;
      && (forall i, j :: 0 <= i < j < |c| ==> c[i].request != c[j].request)
      && (forall i :: 0 <= i < |c| ==> c[i].checked == c[i].at)
  {
  }

  /** An administrator of one tenant cannot touch another tenant's rows, or the platform's. */
  lemma TenantConfinement(d: Directory, e: Event, r: Ref)
    requires Actor(e).Some? && !Actor(e).value.kind.PlatformAdmin?
    requires r.AdminRef? || r.tenant != Actor(e).value.tenant
    ensures r in Apply(d, e).rows <==> r in d.rows
    ensures r in d.rows ==> Apply(d, e).rows[r] == d.rows[r]
  {
  }

  function Actor(e: Event): (a: Option<Principal>) {
    match e
    case SetTenant(actor, _, _) => Some(actor)
    case EnrollAdmin(actor, _) => Some(actor)
    case RevokeAdmin(actor, _) => Some(actor)
    case EnrollMember(actor, _, _, _) => Some(actor)
    case RevokeMember(actor, _, _) => Some(actor)
    case EnrollAgent(actor, _, _, _) => Some(actor)
    case RevokeAgent(actor, _, _) => Some(actor)
    case Grant(actor, _, _, _, _, _) => Some(actor)
    case RevokeGrant(actor, _, _) => Some(actor)
    case Prune(actor, _, _) => Some(actor)
    case _ => None
  }

  // ----- the directory object -----

  /** Of a nonempty table, a row that no other is older than. */
  method Oldest(rows: map<Request, real>) returns (q: Request)
    requires |rows| > 0
    ensures q in rows && forall k :: k in rows ==> rows[q] <= rows[k]
  {
    q :| q in rows;
    var rest := rows.Keys - {q};
    while rest != {}
      invariant q in rows && rest <= rows.Keys
      invariant forall k :: k in rows && k !in rest ==> rows[q] <= rows[k]
      decreases |rest|
    {
      var k :| k in rest;
      if rows[k] < rows[q] { q := k; }
      rest := rest - {k};
    }
  }

  /** The oldest rows before `cutoff`, at most `limit` of them. */
  method OldestBefore(rows: map<Request, real>, cutoff: real, limit: int) returns (batch: set<Request>)
    requires limit >= 0
    ensures forall q :: q in batch ==> q in rows && rows[q] < cutoff
    ensures |batch| <= limit
    ensures forall q, kept :: q in batch && kept in rows && kept !in batch ==> rows[q] <= rows[kept]
    ensures |batch| < limit ==> forall q :: q in rows && q !in batch ==> rows[q] >= cutoff
  {
    batch := {};
    var rest := map q | q in rows && rows[q] < cutoff :: rows[q];
    while |batch| < limit && |rest| > 0
      invariant |batch| <= limit
      invariant forall q :: q in rest ==> q in rows && q !in batch && rest[q] == rows[q] && rows[q] < cutoff
      invariant forall q :: q in batch ==> q in rows && rows[q] < cutoff
      invariant forall q :: q in rows && rows[q] < cutoff && q !in batch ==> q in rest
      invariant forall q, kept :: q in batch && kept in rest ==> rows[q] <= rows[kept]
      decreases |rest|
    {
      var q := Oldest(rest);
      batch := batch + {q};
      assert (rest - {q}).Keys == rest.Keys - {q};
      rest := rest - {q};
    }
  }

  class AuthorityDirectory {
    var now: real
    var rows: map<Ref, Row>
    var replays: map<Request, real>
    var signed: set<Signature>
    var minted: map<Principal, map<Ref, Row>>
    ghost var origins: map<Ref, map<Ref, Row>>
    ghost var claims: seq<Claim>

    constructor (now: real)
      ensures Snapshot() == Start(now)
    {
      this.now := now;
      rows, replays, signed, minted, origins, claims := map[], map[], {}, map[], map[], [];
    }

    ghost function Snapshot(): Directory
      reads this
    {
      Directory(now, rows, replays, signed, minted, origins, claims)
    }

    method HasLive(r: Ref, revision: int) returns (ok: bool)
      ensures ok <==> Live(Snapshot(), r, revision)
    {
      if r !in rows { return false; }
      var row := rows[r];
      return row.active && Matches(r, row.body) && row.revision == revision;
    }

    /** The checks of a delegation, in the order they are made. */
    method CheckGrant(tenant: string, id: string, agent: string) returns (ok: bool)
      ensures ok <==> GrantHolds(Snapshot(), tenant, id, agent)
    {
      var r := GrantRef(tenant, id);
      if r !in rows || !rows[r].active || !Matches(r, rows[r].body) { return false; }
      var g := rows[r].body;
      if !(g.notBefore <= now < g.expires) || g.agent != agent { return false; }
      var agentOk := HasLive(AgentRef(tenant, agent), g.agentRevision);
      if !agentOk { return false; }
      var tenantOk := HasLive(TenantRef(tenant), g.tenantRevision);
      if !tenantOk { return false; }
      var grantorOk := HasLive(GrantorRef(tenant, g), g.grantorRevision);
      if !grantorOk { return false; }
      if !g.byPlatform && rows[GrantorRef(tenant, g)].body.role != TenantAdmin { return false; }
      ok := HasLive(MemberRef(tenant, g.user), g.userRevision);
    }

    /** Seal and expiry first, then the rows the principal depends on. */
    method Check(p: Principal) returns (ok: bool)
      ensures ok <==> Current(Snapshot(), p)
    {
      if p !in minted || p.validUntil <= now { return false; }
      if p.kind.PlatformAdmin? {
        ok := HasLive(AdminRef(p.person), p.revision);
        return;
      }
      var tenantOk := HasLive(TenantRef(p.tenant), p.tenantRevision);
      if !tenantOk { return false; }
      if p.kind.TenantUser? {
        var memberOk := HasLive(MemberRef(p.tenant, p.person), p.revision);
        return memberOk && rows[MemberRef(p.tenant, p.person)].body.role == p.kind.role;
      }
      var agentOk := HasLive(AgentRef(p.tenant, p.agent), p.agentRevision);
      if !agentOk || p.kind.Machine? { return agentOk; }
      var grantOk := CheckGrant(p.tenant, p.grant, p.agent);
      return grantOk && rows[GrantRef(p.tenant, p.grant)].revision == p.grantRevision;
    }

    method CheckAdmin(actor: Principal, tenant: Option<string>) returns (ok: bool)
      ensures ok <==> Administers(Snapshot(), actor, tenant)
    {
      var current := Check(actor);
      if !current { return false; }
      if actor.kind.PlatformAdmin? { return true; }
      return tenant.Some? && actor.kind == TenantUser(TenantAdmin) && actor.tenant == tenant.value;
    }

    method RevokePlatformAdmin(actor: Principal, person: Person) returns (ok: bool)
      modifies this`rows
      ensures ok <==> old(Enabled(Snapshot(), RevokeAdmin(actor, person)))
      ensures Snapshot() == old(Apply(Snapshot(), RevokeAdmin(actor, person)))
    {
      var admin := CheckAdmin(actor, None);
      if !admin { return false; }
      var r := AdminRef(person);
      if r !in rows || !rows[r].active || !Matches(r, rows[r].body) { return false; }
      if |ActiveAdmins(rows)| <= 1 { return false; }
      rows := rows[r := Row(rows[r].revision + 1, false, rows[r].body)];
      return true;
    }

    method GrantDelegation(actor: Principal, user: Principal, agent: string, id: string, terms: Terms, asked: real) returns (ok: bool)
      modifies this`rows, this`origins
      ensures ok <==> old(Enabled(Snapshot(), Grant(actor, user, agent, id, terms, asked)))
      ensures Snapshot() == old(Apply(Snapshot(), Grant(actor, user, agent, id, terms, asked)))
    {
      if !user.kind.TenantUser? || asked > now { return false; }
      if !(asked <= terms.notBefore < terms.expires <= user.validUntil && terms.expires <= asked + 3600.0) { return false; }
      var admin := CheckAdmin(actor, Some(user.tenant));
      if !admin { return false; }
      var consent := Check(user);
      if !consent { return false; }
      var a := AgentRef(user.tenant, agent);
      if a !in rows || !rows[a].active || !Matches(a, rows[a].body) { return false; }
      var enrolled := rows[a];
      if terms.capabilities == {} || !(terms.capabilities <= user.capabilities * enrolled.body.capabilities) { return false; }
      if !(terms.targets <= user.targets * enrolled.body.targets) { return false; }
      var r := GrantRef(user.tenant, id);
      if r in rows { return false; }
      var g := Delegation(agent, enrolled.revision, user.person, user.revision, actor.person, actor.kind.PlatformAdmin?, actor.revision,
                          user.tenantRevision, terms.capabilities, terms.targets, terms.notBefore, terms.expires);
      origins := origins[r := Reads(Snapshot(), PinnedRefs(user.tenant, g))];
      rows := rows[r := Row(1, true, g)];
      return true;
    }

    method AgentPrincipal(q: Request, grant: Option<string>, payload: string) returns (p: Principal)
      requires IsActive(Snapshot(), TenantRef(q.tenant)) && IsActive(Snapshot(), AgentRef(q.tenant, q.agent))
      requires grant.Some? ==> IsActive(Snapshot(), GrantRef(q.tenant, grant.value))
      ensures p == Authenticated(Snapshot(), q, grant, payload)
    {
      var tenant, agent := rows[TenantRef(q.tenant)], rows[AgentRef(q.tenant, q.agent)];
      var until := q.nonce.stamp + 300.0;
      if grant.Some? {
        var row := rows[GrantRef(q.tenant, grant.value)];
        if row.body.expires <= until { until := row.body.expires; }
        p := Principal(Delegated, q.tenant, row.body.user, agent.revision, tenant.revision, q.agent, agent.revision,
                       grant.value, row.revision, until, row.body.capabilities, row.body.targets, payload, q.nonce);
      } else {
        p := Principal(Machine, q.tenant, Person("urn:agentbridge:enrollment", q.agent), agent.revision, tenant.revision, q.agent,
                       agent.revision, "", 0, until, agent.body.capabilities, agent.body.targets, payload, q.nonce);
      }
    }

    /** Sizes and freshness before the transaction, then the rows, the signature and the delegation. */
    method CheckRequest(q: Request, grant: Option<string>, payload: string, checked: real) returns (ok: bool)
      ensures ok && q !in replays <==> Authenticates(Snapshot(), q, grant, payload, checked)
    {
      if |payload| > 1048576 || q.nonce.width + 1 + |q.nonce.random| > 256 || |q.nonce.random| < 16 { return false; }
      if checked > now || !(q.nonce.stamp - 300.0 <= checked <= q.nonce.stamp + 300.0) { return false; }
      var t, a := TenantRef(q.tenant), AgentRef(q.tenant, q.agent);
      if t !in rows || !rows[t].active || !Matches(t, rows[t].body) { return false; }
      if a !in rows || !rows[a].active || !Matches(a, rows[a].body) { return false; }
      if Signature(rows[a].body.key, q, grant, payload) !in signed { return false; }
      if grant.None? { return true; }
      ok := CheckGrant(q.tenant, grant.value, q.agent);
    }

    method ClaimRequest(q: Request, grant: Option<string>, payload: string, checked: real) returns (p: Principal)
      requires Authenticates(Snapshot(), q, grant, payload, checked)
      modifies this`replays, this`minted, this`claims
      ensures Snapshot() == old(AfterClaim(Snapshot(), q, grant, payload, checked))
      ensures p in minted && p.nonce == q.nonce && p.payload == payload
    {
      p := AgentPrincipal(q, grant, payload);
      ghost var seen := Reads(Snapshot(), RequestRefs(q, grant));
      replays := replays[q := now];
      minted := minted[p := map r | r in RequestRefs(q, grant) && r in rows :: rows[r]];
      assert minted[p] == seen;
      claims := claims + [Claim(q, checked, now, p)];
    }

    method AuthenticateAgent(q: Request, grant: Option<string>, payload: string, checked: real) returns (found: Option<Principal>)
      modifies this`replays, this`minted, this`claims
      ensures found.Some? <==> old(Authenticates(Snapshot(), q, grant, payload, checked))
      ensures Snapshot() == old(Apply(Snapshot(), Authenticate(q, grant, payload, checked)))
      ensures found.Some? ==> found.value in minted && found.value.nonce == q.nonce && found.value.payload == payload
    {
      AuthenticateStep(Snapshot(), q, grant, payload, checked);
      var ok := CheckRequest(q, grant, payload, checked);
      if !ok || q in replays { return None; }
      var p := ClaimRequest(q, grant, payload, checked);
      return Some(p);
    }

    method PruneReplays(actor: Principal, limit: int) returns (batch: set<Request>)
      modifies this`replays
      ensures Snapshot() == old(Apply(Snapshot(), Prune(actor, limit, batch)))
      ensures old(1 <= limit <= 10000 && Administers(Snapshot(), actor, None)) ==> Prunable(old(Snapshot()), limit, batch)
      ensures !old(1 <= limit <= 10000 && Administers(Snapshot(), actor, None)) ==> batch == {} && replays == old(replays)
    {
      if !(1 <= limit <= 10000) { return {}; }
      var admin := CheckAdmin(actor, None);
      if !admin { return {}; }
      batch := OldestBefore(replays, now - 600.0, limit);
      replays := replays - batch;
    }
  }
}
