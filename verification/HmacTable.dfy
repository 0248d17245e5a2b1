/** The durable table of the HMAC rollout: its records, the conditional multi-item transactions the
    gate commits against it, and the runtime's own clock writes. Every transaction is given as what
    the gate computed from the snapshots it had read (`...Checks`), what the table tests when the
    transaction arrives (`...Holds`), and what the table then becomes (`...Effect`). */
module HmacTable {
  import opened Optional
  import opened HmacKeyring

  type Epoch = string

  datatype Workload = Mcp | ConnectWeb | MorningDigest | Worker
  const ECS_TASKS: set<Workload> := {Mcp, ConnectWeb, MorningDigest}
  const ALL_TASKS: set<Workload> := {Mcp, ConnectWeb, MorningDigest, Worker}

  /** A provenance is a digest of a canonical document; digests are taken to be injective, so the
      document itself stands for the digest. `artifact` is the image, or the worker's archive. */
  datatype Provenance = Provenance(
    workload: Workload,
    artifact: string,
    epoch: Epoch,
    mail: Option<Config>,
    report: Option<Config>,
    legacyWorker: Option<Generation>)

  function ExpectedProvenance(
    task: Workload, artifact: string, epoch: Epoch, configs: Both<Config>, legacyWorker: Option<Generation>)
    : Provenance
  {
    match task
    case Mcp => Provenance(Mcp, artifact, epoch, Some(configs.mail), Some(configs.report), legacyWorker)
    case ConnectWeb => Provenance(ConnectWeb, artifact, epoch, None, Some(configs.report), None)
    case MorningDigest => Provenance(MorningDigest, artifact, epoch, Some(configs.mail), None, legacyWorker)
    case Worker => Provenance(Worker, artifact, epoch, Some(configs.mail), Some(configs.report), legacyWorker)
  }

  datatype LedgerStage = Initialized | ConnectWebPreloaded | WorkerVerified | McpStable | LedgerComplete

  function Rank(s: LedgerStage): nat {
    match s
    case Initialized => 0
    case ConnectWebPreloaded => 1
    case WorkerVerified => 2
    case McpStable => 3
    case LedgerComplete => 4
  }

  datatype RuntimeStage = Preload | Issuing | RuntimeComplete

  /** The runtime stage both domains show while the epoch's ledger is at a given stage. */
  function RuntimeStageOf(s: LedgerStage): RuntimeStage {
    match s
    case McpStable => Issuing
    case LedgerComplete => RuntimeComplete
    case _ => Preload
  }

  datatype CleanupStage = Authorized | Aborted | CleanupComplete
  datatype RestartStage = Requested | Completed | Reconciled
  datatype RestartMode = CandidateMode | RollbackMode | CleanupMode
  datatype Kind = Candidate | RollbackKind
  datatype IntentState = Prepared | ReconcileRequired | IntentAborted | Superseded | OtherState
  datatype WorkerClass = BaselineWorker | CandidateWorker

  datatype DomainRecord = DomainRecord(
    revision: nat,
    clockRevision: nat,
    primary: Generation,
    previous: Option<Generation>,
    t0: Option<int>,
    deadline: Option<int>,
    legacyWorker: Option<Generation>,
    epoch: Epoch,
    highWater: int,
    previousRetired: bool,
    stage: RuntimeStage,
    issuers: set<Provenance>,
    cleanupAuthorized: bool,
    retiredGenerations: set<Generation>,
    retiredProvenances: set<Provenance>)

  /** The deployment facts that LEDGER and CLEANUP records both collect, each bound at most once. */
  datatype Bindings = Bindings(
    digests: map<Workload, string>,
    arns: map<Workload, string>,
    plans: map<(Kind, Workload), string>,
    attempts: map<(Kind, Workload), string>,
    targetDigest: Option<string>,
    ruleDigest: Option<string>)

  const NO_BINDINGS := Bindings(map[], map[], map[], map[], None, None)

  datatype LedgerRecord = LedgerRecord(
    stage: LedgerStage, revision: nat, updatedAt: int, previousEpoch: Option<Epoch>, bound: Bindings)

  datatype CleanupRecord = CleanupRecord(
    stage: CleanupStage,
    revision: nat,
    authorizedAt: int,
    plan: string,
    intent: string,
    oldIssuers: Both<set<Provenance>>,
    newIssuers: Both<set<Provenance>>,
    baselineIssuers: Both<set<Provenance>>,
    proposed: Both<Config>,
    legacyWorker: Option<Generation>,
    rollbackDigests: map<Workload, string>,
    reconciledWorker: Option<(WorkerClass, Option<RestartRecord>)>,
    bound: Bindings)

  datatype RestartRecord = RestartRecord(
    mode: RestartMode,
    epoch: Epoch,
    provenance: Provenance,
    artifact: string,
    release: string,
    plan: string,
    attempt: string,
    nonce: string,
    stage: RestartStage,
    revision: nat,
    afterCheckedAt: int,
    requestedAt: int,
    completedAt: Option<int>,
    reconciledBy: Option<(string, string)>)

  datatype HistoryRecord = HistoryRecord(
    primary: Generation,
    closedAt: int,
    revision: nat,
    clockRevision: nat,
    highWater: int,
    retiredGenerations: set<Generation>,
    retiredProvenances: set<Provenance>)

  datatype RetirementRecord = RetirementRecord(
    primary: Generation,
    previous: Generation,
    t0: int,
    deadline: int,
    retiredAt: int,
    sourceRevision: nat,
    legacyWorker: Option<Generation>)

  datatype IntentRecord = IntentRecord(state: IntentState, plan: string, expiresAt: int)

  /** DOMAIN#d, LEDGER#e, CLEANUP#e#d, RESTART#e#p, EPOCH_HISTORY#d#e and RETIREMENT#d#e records, plus
      the deployment-intent table. '#' cannot occur in an epoch, so the record names are injective. */
  datatype Table = Table(
    domains: map<Domain, DomainRecord>,
    ledgers: map<Epoch, LedgerRecord>,
    cleanups: map<(Epoch, Domain), CleanupRecord>,
    restarts: map<(Epoch, Provenance), RestartRecord>,
    histories: map<(Domain, Epoch), HistoryRecord>,
    retirements: map<(Domain, Epoch), RetirementRecord>,
    intents: map<string, IntentRecord>)

  const EMPTY_TABLE := Table(map[], map[], map[], map[], map[], map[], map[])

  function Find<K, V>(m: map<K, V>, k: K): Option<V> {
    if k in m then Some(m[k]) else None
  }

  function Other(d: Domain): Domain {
    if d == MailAction then ReportLink else MailAction
  }

  function ConfigOf(r: DomainRecord): Config {
    Config(r.primary, r.previous, r.t0)
  }

  // ---------------------------------------------------------------- the operator's control file

  datatype Control = Control(
    epoch: Epoch,
    mcp: Provenance, mcpRollback: Provenance,
    connectWeb: Provenance, connectWebRollback: Provenance,
    morning: Provenance, morningRollback: Provenance,
    worker: Provenance, workerRollback: Provenance)

  function SharedIssuers(c: Control): set<Provenance> {
    {c.mcp, c.mcpRollback, c.worker, c.workerRollback}
  }

  function Issuers(c: Control): Both<set<Provenance>> {
    Both(SharedIssuers(c) + {c.morning, c.morningRollback}, SharedIssuers(c))
  }

  /** Every issuing provenance of the control file names its epoch. */
  predicate BindsEpoch(c: Control) {
    forall p <- Issuers(c).mail :: p.epoch == c.epoch
  }

  /** The provenance checks: every provenance is the one expected of its workload, for some artifact. */
  predicate Attested(c: Control, configs: Both<Config>, legacyWorker: Option<Generation>) {
    && AttestedAs(c.mcp, Mcp, c.epoch, configs, legacyWorker)
    && AttestedAs(c.mcpRollback, Mcp, c.epoch, configs, legacyWorker)
    && AttestedAs(c.connectWeb, ConnectWeb, c.epoch, configs, legacyWorker)
    && AttestedAs(c.connectWebRollback, ConnectWeb, c.epoch, configs, legacyWorker)
    && AttestedAs(c.morning, MorningDigest, c.epoch, configs, legacyWorker)
    && AttestedAs(c.morningRollback, MorningDigest, c.epoch, configs, legacyWorker)
    && AttestedAs(c.worker, Worker, c.epoch, configs, legacyWorker)
    && AttestedAs(c.workerRollback, Worker, c.epoch, configs, legacyWorker)
  }

  predicate AttestedAs(
    p: Provenance, task: Workload, epoch: Epoch, configs: Both<Config>, legacyWorker: Option<Generation>)
  {
    p == ExpectedProvenance(task, p.artifact, epoch, configs, legacyWorker)
  }

  lemma AttestedBinds(c: Control, configs: Both<Config>, legacyWorker: Option<Generation>)
    requires Attested(c, configs, legacyWorker)
    ensures BindsEpoch(c)
  {
  }

  /** The reviewed transition manifest. */
  datatype Manifest = Manifest(
    deployed: Both<Config>,
    proposed: Both<Config>,
    legacyDatabase: Generation,
    legacyWorker: Option<Generation>)

  /** The part of a generation identifier before its last '@'; empty when there is none. */
  function Resource(g: Generation): string {
    if g == "" then "" else if g[|g| - 1] == '@' then g[..|g| - 1] else Resource(g[..|g| - 1])
  }

  function Lower(c: char): char {
    if 'A' <= c <= 'Z' then c + ('a' - 'A') else c
  }

  predicate SlackAt(s: string, i: int) {
    && 0 <= i <= |s| - 5
    && Lower(s[i]) == 's' && Lower(s[i + 1]) == 'l' && Lower(s[i + 2]) == 'a' && Lower(s[i + 3]) == 'c'
    && Lower(s[i + 4]) == 'k'
  }

  predicate MentionsSlack(s: string) {
    exists i :: 0 <= i < |s| && SlackAt(s, i)
  }

  /** The signing keys are of different secrets, none of them the legacy one or a Slack secret. */
  predicate PrimariesSeparated(m: Manifest) {
    && (forall d: Domain ::
          && Resource(m.proposed.At(d).primary) != Resource(m.legacyDatabase)
          && !MentionsSlack(Resource(m.proposed.At(d).primary)))
    && Resource(m.proposed.mail.primary) != Resource(m.proposed.report.primary)
  }

  predicate VersionsNamed(m: Manifest) {
    '@' in m.legacyDatabase && '@' in m.proposed.mail.primary && '@' in m.proposed.report.primary
  }

  predicate TransitionAccepted(m: Manifest, deployed: Both<Config>, now: int) {
    && m.deployed == deployed
    && (forall d: Domain :: ValidateTransition(deployed.At(d), m.proposed.At(d), now, MaxTtl(d)) == Ok)
    && VersionsNamed(m) && PrimariesSeparated(m)
    && (if m.proposed.mail.previous == Some(m.legacyDatabase) then
          && m.legacyWorker.Some?
          && MentionsSlack(Resource(m.legacyWorker.value))
          && m.legacyWorker.value !in {m.legacyDatabase, m.proposed.mail.primary, m.proposed.report.primary}
        else m.legacyWorker.None?)
  }

  // ---------------------------------------------------------------- initialize

  datatype InitializeRequest = InitializeRequest(
    epoch: Epoch, manifest: Manifest, deployed: Both<Config>, checkedAt: int, now: int)

  function LegacyWorkerFor(d: Domain, m: Manifest): Option<Generation> {
    if d == MailAction && m.proposed.mail.previous.Some? then m.legacyWorker else None
  }

  function DeadlineOf(d: Domain, c: Config): Option<int> {
    if c.t0.Some? then Some(c.t0.value + ROLLOUT_OVERLAP + MaxTtl(d)) else None
  }

  function FirstDomain(d: Domain, q: InitializeRequest): DomainRecord {
    var c := q.manifest.proposed.At(d);
    DomainRecord(1, 0, c.primary, c.previous, c.t0, DeadlineOf(d, c), LegacyWorkerFor(d, q.manifest), q.epoch,
                 q.now, false, Preload, {}, false, {}, {})
  }

  function NextDomain(d: Domain, q: InitializeRequest, r: DomainRecord): DomainRecord {
    var c := q.manifest.proposed.At(d);
    r.(revision := r.revision + 1, primary := c.primary, previous := c.previous, t0 := c.t0,
       deadline := DeadlineOf(d, c), legacyWorker := LegacyWorkerFor(d, q.manifest), epoch := q.epoch,
       previousRetired := false, stage := Preload, issuers := {}, cleanupAuthorized := false)
  }

  predicate FirstEpochChecks(q: InitializeRequest) {
    TransitionAccepted(q.manifest, q.deployed, q.checkedAt)
  }

  predicate FirstEpochHolds(t: Table, q: InitializeRequest) {
    MailAction !in t.domains && ReportLink !in t.domains && q.epoch !in t.ledgers
  }

  function FirstEpochEffect(t: Table, q: InitializeRequest): Table {
    t.(domains := t.domains[MailAction := FirstDomain(MailAction, q)][ReportLink := FirstDomain(ReportLink, q)],
       ledgers := t.ledgers[q.epoch := LedgerRecord(Initialized, 1, q.now, None, NO_BINDINGS)])
  }

  predicate ReadyForNextEpoch(d: Domain, q: InitializeRequest, r: DomainRecord) {
    && r.epoch != q.epoch
    && r.stage == RuntimeComplete
    && r.previousRetired
    && ConfigOf(r) == q.deployed.At(d)
    && r.previous.None?
    && r.legacyWorker.None?
    && q.manifest.proposed.At(d).primary !in r.retiredGenerations
  }

  predicate NextEpochChecks(q: InitializeRequest, seen: Both<DomainRecord>, prior: Option<LedgerRecord>) {
    && TransitionAccepted(q.manifest, q.deployed, q.checkedAt)
    && ReadyForNextEpoch(MailAction, q, seen.mail) && ReadyForNextEpoch(ReportLink, q, seen.report)
    && seen.mail.epoch == seen.report.epoch
    && prior.Some? && prior.value.stage == LedgerComplete
  }

  predicate NextEpochDomainHolds(t: Table, d: Domain, q: InitializeRequest, seen: DomainRecord) {
    && (d, seen.epoch) !in t.histories
    && d in t.domains
    && t.domains[d].revision == seen.revision
    && t.domains[d].epoch == seen.epoch
    && t.domains[d].stage == RuntimeComplete
    && t.domains[d].previousRetired
    && t.domains[d].primary == q.deployed.At(d).primary
    && t.domains[d].previous.None?
    && t.domains[d].legacyWorker.None?
  }

  predicate NextEpochHolds(t: Table, q: InitializeRequest, seen: Both<DomainRecord>) {
    && seen.mail.epoch in t.ledgers && t.ledgers[seen.mail.epoch].stage == LedgerComplete
    && NextEpochDomainHolds(t, MailAction, q, seen.mail)
    && NextEpochDomainHolds(t, ReportLink, q, seen.report)
    && q.epoch !in t.ledgers
  }

  function Max(a: int, b: int): int {
    if a >= b then a else b
  }

  function ClosingRecord(q: InitializeRequest, d: Domain, seen: DomainRecord): HistoryRecord {
    HistoryRecord(q.deployed.At(d).primary, Max(q.now, seen.highWater), seen.revision, seen.clockRevision,
                  seen.highWater, seen.retiredGenerations, seen.retiredProvenances)
  }

  function NextEpochEffect(t: Table, q: InitializeRequest, seen: Both<DomainRecord>): Table
    requires NextEpochHolds(t, q, seen)
  {
    var e := seen.mail.epoch;
    t.(domains := t.domains[MailAction := NextDomain(MailAction, q, t.domains[MailAction])]
                           [ReportLink := NextDomain(ReportLink, q, t.domains[ReportLink])],
       histories := t.histories[(MailAction, seen.mail.epoch) := ClosingRecord(q, MailAction, seen.mail)]
                               [(ReportLink, seen.report.epoch) := ClosingRecord(q, ReportLink, seen.report)],
       ledgers := t.ledgers[q.epoch := LedgerRecord(Initialized, 1,
         Max(q.now, Max(seen.mail.highWater, seen.report.highWater)), Some(e), NO_BINDINGS)])
  }

  // ---------------------------------------------------------------- ledger transitions

  /** `cutoverAt` is the clock reading of the cutover check, `now` the one written to the ledger. */
  datatype TransitionRequest = TransitionRequest(
    control: Control, target: LedgerStage, manifest: Manifest, cutoverAt: int, now: int)

  function ExpectedStage(target: LedgerStage): LedgerStage
    requires target != Initialized
  {
    match target
    case ConnectWebPreloaded => Initialized
    case WorkerVerified => ConnectWebPreloaded
    case McpStable => WorkerVerified
    case LedgerComplete => McpStable
  }

  /** The issuers a transition writes; None where the transition leaves the stored set alone. */
  function OpenedIssuers(q: TransitionRequest, d: Domain): Option<set<Provenance>> {
    if q.target == McpStable then Some(SharedIssuers(q.control))
    else if q.target == LedgerComplete then Some(Issuers(q.control).At(d))
    else None
  }

  predicate CutoverOpen(q: TransitionRequest, seen: Both<DomainRecord>, d: Domain) {
    && seen.At(d).epoch == q.control.epoch
    && ConfigOf(seen.At(d)) == q.manifest.proposed.At(d)
    && ((q.target != ConnectWebPreloaded || d == ReportLink) && seen.At(d).t0.Some? ==>
          q.cutoverAt < seen.At(d).t0.value + ROLLOUT_OVERLAP)
  }

  predicate TransitionChecks(q: TransitionRequest, ledger: LedgerRecord, seen: Both<DomainRecord>) {
    && q.target != Initialized
    && ledger.stage == ExpectedStage(q.target)
    && seen.mail.legacyWorker == q.manifest.legacyWorker
    && CutoverOpen(q, seen, MailAction) && CutoverOpen(q, seen, ReportLink)
  }

  predicate TransitionHolds(t: Table, q: TransitionRequest, ledger: LedgerRecord) {
    var e := q.control.epoch;
    && e in t.ledgers && t.ledgers[e].stage == ledger.stage && t.ledgers[e].revision == ledger.revision
    && MailAction in t.domains && t.domains[MailAction].epoch == e
    && ReportLink in t.domains && t.domains[ReportLink].epoch == e
  }

  function StagedDomain(q: TransitionRequest, d: Domain, r: DomainRecord): DomainRecord {
    r.(stage := RuntimeStageOf(q.target), revision := r.revision + 1,
       issuers := if OpenedIssuers(q, d).Some? then OpenedIssuers(q, d).value else r.issuers)
  }

  function TransitionEffect(t: Table, q: TransitionRequest): Table
    requires q.control.epoch in t.ledgers && MailAction in t.domains && ReportLink in t.domains
  {
    var l := t.ledgers[q.control.epoch];
    t.(ledgers := t.ledgers[q.control.epoch := l.(stage := q.target, revision := l.revision + 1, updatedAt := q.now)],
       domains := t.domains[MailAction := StagedDomain(q, MailAction, t.domains[MailAction])]
                           [ReportLink := StagedDomain(q, ReportLink, t.domains[ReportLink])])
  }

  // ---------------------------------------------------------------- worker restarts

  function RestartKey(c: Control, mode: RestartMode): (Epoch, Provenance) {
    (c.epoch, if mode == RollbackMode then c.workerRollback else c.worker)
  }

  /** A restart record that proves a finished restart newer than `after`. */
  predicate ProvesRestart(c: Control, mode: RestartMode, r: RestartRecord, plan: string, attempt: string, after: int) {
    && r.stage == Completed && r.mode == mode && r.epoch == c.epoch
    && r.provenance == RestartKey(c, mode).1
    && r.plan == plan && r.attempt == attempt
    && r.completedAt.Some?
    && r.completedAt.value > Max(after, Max(r.requestedAt, r.afterCheckedAt))
  }

  datatype RestartRequest = RestartRequest(
    control: Control, mode: RestartMode, artifact: string, release: string, nonce: string,
    plan: string, attempt: string, checkedAt: int, now: int)

  predicate PreRestartChecks(
    q: RestartRequest, ledger: LedgerRecord, active: Both<Option<CleanupRecord>>,
    bound: Bindings, existing: Option<RestartRecord>)
  {
    && Rank(ledger.stage) >= Rank(WorkerVerified)
    && ActiveModeAllowed(q.mode, active)
    && IntentBound(bound, KindOf(q.mode), Worker, q.plan, q.attempt)
    && (existing.Some? ==> existing.value.stage != Requested)
  }

  function KindOf(mode: RestartMode): Kind {
    if mode == RollbackMode then RollbackKind else Candidate
  }

  predicate IsAuthorized(c: Option<CleanupRecord>) {
    c.Some? && c.value.stage == Authorized
  }

  predicate ActiveModeAllowed(mode: RestartMode, active: Both<Option<CleanupRecord>>) {
    var some := IsAuthorized(active.mail) || IsAuthorized(active.report);
    && !(IsAuthorized(active.mail) && IsAuthorized(active.report))
    && (mode == CleanupMode ==> some)
    && (mode == CandidateMode ==> !some)
  }

  predicate IntentBound(b: Bindings, kind: Kind, task: Workload, plan: string, attempt: string) {
    && (kind, task) in b.plans && b.plans[(kind, task)] == plan
    && (kind, task) in b.attempts && b.attempts[(kind, task)] == attempt
  }

  predicate PreRestartHolds(t: Table, q: RestartRequest, existing: Option<RestartRecord>) {
    var k := RestartKey(q.control, q.mode);
    if existing.None? then k !in t.restarts
    else k in t.restarts && t.restarts[k].revision == existing.value.revision && t.restarts[k].stage != Requested
  }

  function PreRestartEffect(t: Table, q: RestartRequest, existing: Option<RestartRecord>): Table {
    var k := RestartKey(q.control, q.mode);
    var revision := if existing.Some? then existing.value.revision + 1 else 1;
    t.(restarts := t.restarts[k := RestartRecord(q.mode, k.0, k.1, q.artifact, q.release, q.plan, q.attempt, q.nonce,
         Requested, revision, q.checkedAt, q.now, None, None)])
  }

  /** `checkedAt` is the newest readiness time both services attested for this restart's nonce. */
  predicate PostRestartChecks(
    q: RestartRequest, active: Both<Option<CleanupRecord>>, bound: Bindings, item: RestartRecord)
  {
    && ActiveModeAllowed(q.mode, active)
    && IntentBound(bound, KindOf(q.mode), Worker, q.plan, q.attempt)
    && item.stage == Requested && item.mode == q.mode && item.epoch == q.control.epoch
    && item.provenance == RestartKey(q.control, q.mode).1
    && item.plan == q.plan && item.attempt == q.attempt
    && q.checkedAt > Max(item.afterCheckedAt, item.requestedAt)
  }

  predicate PostRestartHolds(t: Table, q: RestartRequest, item: RestartRecord) {
    var k := RestartKey(q.control, q.mode);
    k in t.restarts && t.restarts[k].stage == Requested && t.restarts[k].revision == item.revision
  }

  function PostRestartEffect(t: Table, q: RestartRequest): Table
    requires RestartKey(q.control, q.mode) in t.restarts
  {
    var k := RestartKey(q.control, q.mode);
    var r := t.restarts[k];
    t.(restarts := t.restarts[k := r.(stage := Completed, completedAt := Some(q.checkedAt), revision := r.revision + 1)])
  }

  predicate ReconcileRestartChecks(q: RestartRequest, item: RestartRecord) {
    && item.mode == q.mode && item.epoch == q.control.epoch && item.plan == q.plan && item.attempt == q.attempt
    && (item.stage == Requested || item.stage == Completed)
  }

  predicate ReconcileRestartHolds(t: Table, q: RestartRequest, item: RestartRecord) {
    var k := RestartKey(q.control, q.mode);
    && k in t.restarts && t.restarts[k].revision == item.revision
    && t.restarts[k].stage != Reconciled && t.restarts[k].mode == q.mode
  }

  function ReconcileRestartEffect(t: Table, q: RestartRequest): Table
    requires RestartKey(q.control, q.mode) in t.restarts
  {
    var k := RestartKey(q.control, q.mode);
    var r := t.restarts[k];
    t.(restarts := t.restarts[k := r.(stage := Reconciled, reconciledBy := Some((q.plan, q.attempt)), revision := r.revision + 1)])
  }

  // ---------------------------------------------------------------- cleanup: authorize

  datatype AuthorizeRequest = AuthorizeRequest(
    control: Control, domain: Domain, deployed: Both<Config>, manifest: Manifest,
    candidateDigests: map<Workload, string>, rollbackDigests: map<Workload, string>,
    plan: string, intent: string, checkedAt: int, now: int)

  /** The guard the gate evaluates once, before the retry loop. */
  predicate PrepareGuard(ledger: LedgerRecord, active: Both<Option<CleanupRecord>>) {
    ledger.stage == LedgerComplete && !IsAuthorized(active.mail) && !IsAuthorized(active.report)
  }

  /** The reviewed cleanup manifest removes the previous generation of the target and nothing else.
      `durable` is the other domain's record, consulted only when its own window has expired. */
  predicate CleanupManifestAccepted(q: AuthorizeRequest, durable: DomainRecord) {
    var d := q.domain;
    var o := Other(d);
    var code := ValidateTransition(q.deployed.At(o), q.manifest.proposed.At(o), q.checkedAt, MaxTtl(o));
    && q.manifest.deployed == q.deployed
    && ValidateTransition(q.deployed.At(d), q.manifest.proposed.At(d), q.checkedAt, MaxTtl(d)) == Ok
    && q.deployed.At(d).previous.Some?
    && q.manifest.proposed.At(d) == Config(q.deployed.At(d).primary, None, None)
    && q.manifest.proposed.At(o) == q.deployed.At(o)
    && (code == Ok || (code == ExpiredPreviousNotRemoved && durable.previousRetired && durable.deadline.Some?
                       && q.checkedAt >= durable.deadline.value && ConfigOf(durable) == q.deployed.At(o)))
    && (forall d: Domain :: Resource(q.manifest.proposed.At(d).primary) != "")
    && PrimariesSeparated(q.manifest)
    && (if q.manifest.proposed.mail.previous == Some(q.manifest.legacyDatabase) then
          q.manifest.legacyWorker.Some? && MentionsSlack(q.manifest.legacyWorker.value)
        else q.manifest.legacyWorker.None?)
  }

  predicate AuthorizeDomainChecks(q: AuthorizeRequest, d: Domain, r: DomainRecord) {
    && r.epoch == q.control.epoch
    && r.stage == RuntimeComplete
    && ConfigOf(r) == q.deployed.At(d)
    && r.issuers != {}
    && r.issuers !! r.retiredProvenances
    && Issuers(q.control).At(d) !! r.retiredProvenances
  }

  predicate AuthorizeChecks(q: AuthorizeRequest, seen: Both<DomainRecord>) {
    var r := seen.At(q.domain);
    && q.candidateDigests.Keys == ALL_TASKS && q.rollbackDigests.Keys == ALL_TASKS
    && (forall task <- ALL_TASKS :: q.candidateDigests[task] != q.rollbackDigests[task])
    && r.previous.Some? && r.t0.Some? && r.deadline.Some?
    && q.now >= r.deadline.value
    && !r.cleanupAuthorized
    && AuthorizeDomainChecks(q, MailAction, seen.mail) && AuthorizeDomainChecks(q, ReportLink, seen.report)
    && r.issuers - Issuers(q.control).At(q.domain) != {}
  }

  predicate AuthorizeDomainHolds(t: Table, q: AuthorizeRequest, d: Domain, seen: DomainRecord) {
    && d in t.domains
    && t.domains[d].revision == seen.revision
    && t.domains[d].epoch == q.control.epoch
    && t.domains[d].stage == RuntimeComplete
    && t.domains[d].issuers == seen.issuers
    && (d == q.domain ==>
          && t.domains[d].highWater == seen.highWater
          && t.domains[d].previous == seen.previous
          && t.domains[d].deadline == seen.deadline)
  }

  predicate AuthorizeHolds(t: Table, q: AuthorizeRequest, seen: Both<DomainRecord>) {
    && (q.control.epoch, q.domain) !in t.cleanups
    && AuthorizeDomainHolds(t, q, MailAction, seen.mail)
    && AuthorizeDomainHolds(t, q, ReportLink, seen.report)
  }

  function SetOf<T>(o: Option<T>): set<T> {
    if o.Some? then {o.value} else {}
  }

  /** The generations a domain's expiry retires together. */
  function Retirees(r: DomainRecord): set<Generation> {
    SetOf(r.previous) + SetOf(r.legacyWorker)
  }

  function AuthorizedDomain(q: AuthorizeRequest, d: Domain, seen: DomainRecord, r: DomainRecord): DomainRecord {
    var widened := r.(issuers := seen.issuers + Issuers(q.control).At(d), revision := r.revision + 1);
    if d == q.domain then
      widened.(previousRetired := true, highWater := Max(q.now, seen.highWater), cleanupAuthorized := true,
               retiredGenerations := r.retiredGenerations + Retirees(seen))
    else widened
  }

  function AuthorizedCleanup(q: AuthorizeRequest, seen: Both<DomainRecord>): CleanupRecord {
    var new_ := Issuers(q.control);
    CleanupRecord(Authorized, 1, q.now, q.plan, q.intent,
                  Both(seen.mail.issuers - new_.mail, seen.report.issuers - new_.report),
                  new_, Both(seen.mail.issuers, seen.report.issuers), q.manifest.proposed, q.manifest.legacyWorker,
                  q.rollbackDigests, None, NO_BINDINGS.(digests := q.candidateDigests))
  }

  function AuthorizeEffect(t: Table, q: AuthorizeRequest, seen: Both<DomainRecord>): Table
    requires MailAction in t.domains && ReportLink in t.domains
  {
    t.(cleanups := t.cleanups[(q.control.epoch, q.domain) := AuthorizedCleanup(q, seen)],
       domains := t.domains[MailAction := AuthorizedDomain(q, MailAction, seen.mail, t.domains[MailAction])]
                           [ReportLink := AuthorizedDomain(q, ReportLink, seen.report, t.domains[ReportLink])])
  }

  // ---------------------------------------------------------------- cleanup: abort and rebind

  datatype ReconcileRequest = ReconcileRequest(
    control: Control, domain: Domain, now: int,
    freshPlan: string, freshIntent: string, freshDigests: map<Workload, string>)

  /** What the restart record proves about the running worker while a cleanup is authorized. */
  function ClassifyWorker(c: Control, cleanup: CleanupRecord, restart: Option<RestartRecord>): Option<WorkerClass>
  {
    var plan := Find(cleanup.bound.plans, (Candidate, Worker));
    var attempt := Find(cleanup.bound.attempts, (Candidate, Worker));
    if plan.Some? != attempt.Some? || (plan.Some? && plan.value != cleanup.plan) then None
    else if restart.None? then
      if cleanup.reconciledWorker.Some? && cleanup.reconciledWorker.value.1.Some? then None else Some(BaselineWorker)
    else
      var r := restart.value;
      if r.epoch != c.epoch then None
      else if plan.Some? && r.plan == plan.value && Some(r.attempt) == attempt && r.mode == CleanupMode then
        if r.provenance != c.worker || Some(r.artifact) != Find(cleanup.bound.digests, Worker) then None
        else if r.stage == Completed && r.completedAt.Some? then Some(CandidateWorker)
        else if r.stage == Reconciled && r.reconciledBy == Some((r.plan, r.attempt)) then Some(BaselineWorker)
        else None
      else if cleanup.reconciledWorker.Some? && cleanup.reconciledWorker.value.1 == restart then
        Some(cleanup.reconciledWorker.value.0)
      else if r.mode != CleanupMode && r.stage == Completed && r.provenance == c.worker
           && Some(r.artifact) == Find(cleanup.bound.digests, Worker) && r.completedAt.Some? then
        Some(BaselineWorker)
      else None
  }

  predicate WorkerUnmoved(t: Table, c: Control, seen: Option<RestartRecord>) {
    var k := RestartKey(c, CleanupMode);
    if seen.None? then k !in t.restarts
    else k in t.restarts && t.restarts[k].revision == seen.value.revision && t.restarts[k].stage == seen.value.stage
  }

  predicate AbortChecks(
    q: ReconcileRequest, cleanup: CleanupRecord, restart: Option<RestartRecord>,
    intent: Option<IntentRecord>, seen: Both<DomainRecord>)
  {
    && cleanup.stage == Authorized
    && ClassifyWorker(q.control, cleanup, restart) == Some(BaselineWorker)
    && intent.Some? && intent.value.plan == cleanup.plan
    && (intent.value.state == Prepared || intent.value.state == ReconcileRequired)
    && seen.mail.issuers == cleanup.baselineIssuers.mail + cleanup.newIssuers.mail
    && seen.report.issuers == cleanup.baselineIssuers.report + cleanup.newIssuers.report
  }

  predicate AbortDomainHolds(t: Table, d: Domain, seen: DomainRecord) {
    d in t.domains && t.domains[d].revision == seen.revision && t.domains[d].issuers == seen.issuers
  }

  predicate AbortHolds(
    t: Table, q: ReconcileRequest, cleanup: CleanupRecord, restart: Option<RestartRecord>, seen: Both<DomainRecord>)
  {
    var k := (q.control.epoch, q.domain);
    && cleanup.intent in t.intents && t.intents[cleanup.intent].plan == cleanup.plan
    && (t.intents[cleanup.intent].state == Prepared || t.intents[cleanup.intent].state == ReconcileRequired)
    && k in t.cleanups && t.cleanups[k].stage == Authorized
    && t.cleanups[k].revision == cleanup.revision && t.cleanups[k].plan == cleanup.plan
    && AbortDomainHolds(t, MailAction, seen.mail) && AbortDomainHolds(t, ReportLink, seen.report)
    && WorkerUnmoved(t, q.control, restart)
  }

  function AbortedDomain(q: ReconcileRequest, d: Domain, cleanup: CleanupRecord, r: DomainRecord): DomainRecord {
    r.(issuers := cleanup.baselineIssuers.At(d), revision := r.revision + 1,
       cleanupAuthorized := if d == q.domain then false else r.cleanupAuthorized)
  }

  function AbortEffect(t: Table, q: ReconcileRequest, cleanup: CleanupRecord, restart: Option<RestartRecord>): Table
    requires cleanup.intent in t.intents && (q.control.epoch, q.domain) in t.cleanups
    requires MailAction in t.domains && ReportLink in t.domains
  {
    var k := (q.control.epoch, q.domain);
    var r := t.cleanups[k];
    t.(intents := t.intents[cleanup.intent := t.intents[cleanup.intent].(state := IntentAborted)],
       cleanups := t.cleanups[k := r.(stage := Aborted, revision := r.revision + 1,
                                      reconciledWorker := Some((BaselineWorker, restart)))],
       domains := t.domains[MailAction := AbortedDomain(q, MailAction, cleanup, t.domains[MailAction])]
                           [ReportLink := AbortedDomain(q, ReportLink, cleanup, t.domains[ReportLink])])
  }

  predicate RebindChecks(
    q: ReconcileRequest, cleanup: CleanupRecord, restart: Option<RestartRecord>,
    intent: Option<IntentRecord>, successor: Option<IntentRecord>)
  {
    && cleanup.stage == Authorized
    && ClassifyWorker(q.control, cleanup, restart).Some?
    && intent.Some? && intent.value.plan == cleanup.plan && intent.value.state == ReconcileRequired
    && q.freshPlan != cleanup.plan && q.freshIntent != cleanup.intent
    && q.freshDigests.Keys == ECS_TASKS
    && (forall task <- ECS_TASKS :: Some(q.freshDigests[task]) == Find(cleanup.bound.digests, task))
    && successor.Some? && successor.value.state == Prepared && successor.value.plan == q.freshPlan
    && successor.value.expiresAt > q.now
  }

  predicate RebindHolds(t: Table, q: ReconcileRequest, cleanup: CleanupRecord, restart: Option<RestartRecord>) {
    var k := (q.control.epoch, q.domain);
    && cleanup.intent in t.intents && t.intents[cleanup.intent].plan == cleanup.plan
    && t.intents[cleanup.intent].state == ReconcileRequired
    && q.freshIntent in t.intents && t.intents[q.freshIntent].state == Prepared
    && t.intents[q.freshIntent].plan == q.freshPlan && t.intents[q.freshIntent].expiresAt > q.now
    && k in t.cleanups && t.cleanups[k].stage == Authorized && t.cleanups[k].revision == cleanup.revision
    && t.cleanups[k].plan == cleanup.plan && t.cleanups[k].intent == cleanup.intent
    && WorkerUnmoved(t, q.control, restart)
  }

  function RebindEffect(
    t: Table, q: ReconcileRequest, cleanup: CleanupRecord, restart: Option<RestartRecord>, worker: WorkerClass): Table
    requires cleanup.intent in t.intents && (q.control.epoch, q.domain) in t.cleanups
  {
    var k := (q.control.epoch, q.domain);
    var r := t.cleanups[k];
    t.(intents := t.intents[cleanup.intent := t.intents[cleanup.intent].(state := Superseded)],
       cleanups := t.cleanups[k := r.(plan := q.freshPlan, intent := q.freshIntent, revision := r.revision + 1,
                                      reconciledWorker := Some((worker, restart)),
                                      bound := r.bound.(plans := map[], attempts := map[]))])
  }

  // ---------------------------------------------------------------- cleanup: complete

  datatype CompleteRequest = CompleteRequest(
    control: Control, domain: Domain, plan: string, attempt: string, restartMode: RestartMode, now: int)

  predicate ReplacementsBound(b: Bindings) {
    && ECS_TASKS <= b.arns.Keys
    && b.arns[Mcp] != b.arns[ConnectWeb] && b.arns[Mcp] != b.arns[MorningDigest]
    && b.arns[ConnectWeb] != b.arns[MorningDigest]
  }

  predicate CompleteChecks(
    q: CompleteRequest, ledger: LedgerRecord, cleanup: CleanupRecord, restart: RestartRecord, seen: Both<DomainRecord>)
  {
    var r := seen.At(q.domain);
    && ledger.stage == LedgerComplete
    && cleanup.stage == Authorized
    && ReplacementsBound(cleanup.bound)
    && ProvesRestart(q.control, q.restartMode, restart, q.plan, q.attempt, cleanup.authorizedAt)
    && r.previous.Some? && r.t0.Some? && r.deadline.Some? && r.cleanupAuthorized
    && cleanup.proposed.At(q.domain) == Config(r.primary, None, None)
    && seen.mail.epoch == q.control.epoch && seen.report.epoch == q.control.epoch
    && seen.mail.issuers == cleanup.oldIssuers.mail + cleanup.newIssuers.mail
    && seen.report.issuers == cleanup.oldIssuers.report + cleanup.newIssuers.report
  }

  predicate CompleteDomainHolds(t: Table, q: CompleteRequest, d: Domain, cleanup: CleanupRecord, seen: DomainRecord) {
    && d in t.domains
    && t.domains[d].revision == seen.revision
    && t.domains[d].epoch == q.control.epoch
    && t.domains[d].issuers == cleanup.oldIssuers.At(d) + cleanup.newIssuers.At(d)
    && (d == q.domain ==>
          && t.domains[d].previous == seen.previous && t.domains[d].deadline == seen.deadline
          && t.domains[d].cleanupAuthorized && t.domains[d].stage == RuntimeComplete)
  }

  predicate CompleteHolds(t: Table, q: CompleteRequest, cleanup: CleanupRecord, seen: Both<DomainRecord>) {
    var k := (q.control.epoch, q.domain);
    && (q.domain, q.control.epoch) !in t.retirements
    && CompleteDomainHolds(t, q, MailAction, cleanup, seen.mail)
    && CompleteDomainHolds(t, q, ReportLink, cleanup, seen.report)
    && k in t.cleanups && t.cleanups[k].stage == Authorized && t.cleanups[k].revision == cleanup.revision
  }

  function CleanedDomain(q: CompleteRequest, d: Domain, cleanup: CleanupRecord, r: DomainRecord): DomainRecord {
    var narrowed := r.(issuers := cleanup.newIssuers.At(d), revision := r.revision + 1,
                       retiredProvenances := r.retiredProvenances + cleanup.oldIssuers.At(d));
    if d == q.domain then
      narrowed.(previousRetired := true, previous := None, t0 := None, deadline := None, legacyWorker := None,
                cleanupAuthorized := false)
    else narrowed
  }

  function CompleteEffect(t: Table, q: CompleteRequest, cleanup: CleanupRecord, seen: DomainRecord): Table
    requires (q.control.epoch, q.domain) in t.cleanups && MailAction in t.domains && ReportLink in t.domains
    requires seen.previous.Some? && seen.t0.Some? && seen.deadline.Some?
  {
    var k := (q.control.epoch, q.domain);
    var r := t.cleanups[k];
    t.(retirements := t.retirements[(q.domain, q.control.epoch) := RetirementRecord(
         cleanup.proposed.At(q.domain).primary, seen.previous.value, seen.t0.value, seen.deadline.value, q.now,
         seen.revision, seen.legacyWorker)],
       cleanups := t.cleanups[k := r.(stage := CleanupComplete, revision := r.revision + 1)],
       domains := t.domains[MailAction := CleanedDomain(q, MailAction, cleanup, t.domains[MailAction])]
                           [ReportLink := CleanedDomain(q, ReportLink, cleanup, t.domains[ReportLink])])
  }

  // ---------------------------------------------------------------- bindings

  /** The record a binding is written to: the epoch's ledger, or the active cleanup. */
  datatype Target = OnLedger(epoch: Epoch) | OnCleanup(epoch: Epoch, domain: Domain)

  datatype BindingHolder = BindingHolder(revision: nat, plan: Option<string>, bound: Bindings)

  function Holder(t: Table, x: Target): Option<BindingHolder> {
    match x
    case OnLedger(e) =>
      if e in t.ledgers then Some(BindingHolder(t.ledgers[e].revision, None, t.ledgers[e].bound)) else None
    case OnCleanup(e, d) =>
      if (e, d) in t.cleanups then
        Some(BindingHolder(t.cleanups[(e, d)].revision, Some(t.cleanups[(e, d)].plan), t.cleanups[(e, d)].bound))
      else None
  }

  function Rebound(t: Table, x: Target, b: Bindings): Table
    requires Holder(t, x).Some?
  {
    match x
    case OnLedger(e) =>
      t.(ledgers := t.ledgers[e := t.ledgers[e].(bound := b, revision := t.ledgers[e].revision + 1)])
    case OnCleanup(e, d) =>
      var r := t.cleanups[(e, d)];
      t.(cleanups := t.cleanups[(e, d) := r.(bound := b, revision := r.revision + 1)])
  }

  datatype Binding =
    | BindIntent(kind: Kind, task: Workload, plan: string, attempt: string)
    | BindDigest(task: Workload, digest: string)
    | BindArn(task: Workload, arn: string, digest: string, plan: string, attempt: string)
    | BindTarget(digest: string, rule: string, plan: string, attempt: string)

  /** `before` is an earlier read of the same record: the cleanup's prepared plan, or the intent
      that must already be bound before an artifact is. */
  predicate BindChecks(b: Binding, seen: BindingHolder, before: BindingHolder) {
    match b
    case BindIntent(kind, task, plan, attempt) =>
      && (before.plan.Some? && kind == Candidate ==> before.plan == Some(plan))
      && (kind, task) !in seen.bound.plans && (kind, task) !in seen.bound.attempts
    case BindDigest(task, digest) => task !in seen.bound.digests
    case BindArn(task, arn, digest, plan, attempt) =>
      && IntentBound(before.bound, Candidate, task, plan, attempt)
      && task in seen.bound.digests && seen.bound.digests[task] == digest && task !in seen.bound.arns
    case BindTarget(digest, rule, plan, attempt) =>
      && IntentBound(before.bound, Candidate, MorningDigest, plan, attempt)
      && MorningDigest in seen.bound.arns && seen.bound.targetDigest.None? && seen.bound.ruleDigest.None?
  }

  predicate BindHolds(t: Table, x: Target, b: Binding, seen: BindingHolder) {
    && Holder(t, x).Some?
    && var now := Holder(t, x).value;
       && now.revision == seen.revision
       && (match b
           case BindIntent(kind, task, plan, attempt) =>
             && (kind, task) !in now.bound.plans && (kind, task) !in now.bound.attempts
             && (x.OnCleanup? && kind == Candidate ==> now.plan == Some(plan))
           case BindDigest(task, digest) => task !in now.bound.digests
           case BindArn(task, arn, digest, _, _) =>
             task in now.bound.digests && now.bound.digests[task] == digest && task !in now.bound.arns
           case BindTarget(digest, rule, _, _) =>
             && Find(now.bound.arns, MorningDigest) == Find(seen.bound.arns, MorningDigest)
             && now.bound.targetDigest.None? && now.bound.ruleDigest.None?)
  }

  function WithBinding(b: Binding, o: Bindings): Bindings {
    match b
    case BindIntent(kind, task, plan, attempt) =>
      o.(plans := o.plans[(kind, task) := plan], attempts := o.attempts[(kind, task) := attempt])
    case BindDigest(task, digest) => o.(digests := o.digests[task := digest])
    case BindArn(task, arn, digest, _, _) => o.(arns := o.arns[task := arn])
    case BindTarget(digest, rule, _, _) => o.(targetDigest := Some(digest), ruleDigest := Some(rule))
  }

  function BindEffect(t: Table, x: Target, b: Binding): Table
    requires Holder(t, x).Some?
  {
    Rebound(t, x, WithBinding(b, Holder(t, x).value.bound))
  }

  // ---------------------------------------------------------------- the runtime's clock checkpoint

  /** The metadata one running task was started with. */
  datatype Expectation = Expectation(config: Config, legacyWorker: Option<Generation>, epoch: Epoch, provenance: Provenance)

  predicate Matches(d: Domain, x: Expectation, r: DomainRecord) {
    && r.primary == x.config.primary
    && (|| (r.previous == x.config.previous && r.t0 == x.config.t0 && r.deadline == DeadlineOf(d, x.config)
            && r.legacyWorker == x.legacyWorker)
        || (r.cleanupAuthorized && r.previousRetired && r.previous.Some?
            && x.config.previous.None? && x.config.t0.None? && x.legacyWorker.None?))
    && r.epoch == x.epoch
    && x.config.primary !in r.retiredGenerations
    && x.provenance !in r.retiredProvenances
  }

  predicate RetirementDue(d: Domain, x: Expectation, r: DomainRecord, now: int) {
    && x.config.previous.Some? && DeadlineOf(d, x.config).Some? && !r.previousRetired
    && Max(r.highWater, now) >= DeadlineOf(d, x.config).value
  }

  predicate CheckpointHolds(t: Table, d: Domain, seen: DomainRecord) {
    && d in t.domains
    && t.domains[d].revision == seen.revision
    && t.domains[d].clockRevision == seen.clockRevision
    && t.domains[d].highWater == seen.highWater
    && t.domains[d].previousRetired == seen.previousRetired
    && t.domains[d].primary == seen.primary
    && t.domains[d].epoch == seen.epoch
    && t.domains[d].previous == seen.previous
  }

  function CheckpointEffect(t: Table, d: Domain, x: Expectation, seen: DomainRecord, now: int): Table
    requires d in t.domains
  {
    var due := RetirementDue(d, x, seen, now);
    var r := t.domains[d];
    t.(domains := t.domains[d := r.(
         highWater := Max(seen.highWater, now),
         previousRetired := seen.previousRetired || due,
         clockRevision := r.clockRevision + 1,
         retiredGenerations := r.retiredGenerations
           + (if due then SetOf(x.config.previous) + SetOf(x.legacyWorker) else {}))])
  }
}
