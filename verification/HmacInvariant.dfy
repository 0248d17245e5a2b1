/** What every committed action keeps. `TableEvolves` relates any two tables of one run, `Good`
    describes every single one of them. */
module HmacInvariant {
  import opened Optional
  import opened HmacKeyring
  import opened HmacTable
  import opened HmacRun

  // ---------------------------------------------------------------- two tables of one run

  ghost predicate SubMap<K, V>(a: map<K, V>, b: map<K, V>) {
    forall k <- a :: k in b && b[k] == a[k]
  }

  /** Only the runtime's clock fields moved: time forward, and the window at most once into retirement. */
  ghost predicate ClockMoved(a: DomainRecord, b: DomainRecord) {
    && b == a.(clockRevision := b.clockRevision, highWater := b.highWater,
               previousRetired := b.previousRetired, retiredGenerations := b.retiredGenerations)
    && a.clockRevision <= b.clockRevision
    && (a.clockRevision == b.clockRevision ==> a == b)
    && (a.previousRetired ==> b.previousRetired)
    && b.retiredGenerations ==
       a.retiredGenerations + (if b.previousRetired && !a.previousRetired then Retirees(a) else {})
  }

  ghost predicate DomainEvolves(a: DomainRecord, b: DomainRecord) {
    && a.revision <= b.revision
    && a.highWater <= b.highWater
    && a.retiredGenerations <= b.retiredGenerations
    && a.retiredProvenances <= b.retiredProvenances
    && (a.revision == b.revision ==> ClockMoved(a, b))
  }

  /** Bound artifacts are final; deployment intents may be unbound again by a rebind. */
  ghost predicate ArtifactsKept(a: Bindings, b: Bindings) {
    && SubMap(a.digests, b.digests)
    && SubMap(a.arns, b.arns)
    && (a.targetDigest.Some? ==> b.targetDigest == a.targetDigest)
    && (a.ruleDigest.Some? ==> b.ruleDigest == a.ruleDigest)
  }

  ghost predicate LedgerEvolves(a: LedgerRecord, b: LedgerRecord) {
    && a.revision <= b.revision
    && (a.revision == b.revision ==> a == b)
    && Rank(a.stage) <= Rank(b.stage)
    && (a.stage == b.stage ==> a.updatedAt == b.updatedAt)
    && a.previousEpoch == b.previousEpoch
    && ArtifactsKept(a.bound, b.bound)
    && SubMap(a.bound.plans, b.bound.plans) && SubMap(a.bound.attempts, b.bound.attempts)
  }

  ghost predicate CleanupEvolves(a: CleanupRecord, b: CleanupRecord) {
    && a.revision <= b.revision
    && (a.revision == b.revision ==> a == b)
    && (a.stage != Authorized ==> b.stage == a.stage)
    && b == a.(stage := b.stage, revision := b.revision, plan := b.plan, intent := b.intent,
               reconciledWorker := b.reconciledWorker, bound := b.bound)
    && ArtifactsKept(a.bound, b.bound)
  }

  ghost predicate RestartEvolves(a: RestartRecord, b: RestartRecord) {
    && a.revision <= b.revision
    && (a.revision == b.revision ==> a == b)
  }

  ghost predicate DomainsEvolve(a: map<Domain, DomainRecord>, b: map<Domain, DomainRecord>) {
    forall d <- a :: d in b && DomainEvolves(a[d], b[d])
  }

  ghost predicate LedgersEvolve(a: map<Epoch, LedgerRecord>, b: map<Epoch, LedgerRecord>) {
    forall e <- a :: e in b && LedgerEvolves(a[e], b[e])
  }

  ghost predicate CleanupsEvolve(a: map<(Epoch, Domain), CleanupRecord>, b: map<(Epoch, Domain), CleanupRecord>) {
    forall k <- a :: k in b && CleanupEvolves(a[k], b[k])
  }

  ghost predicate RestartsEvolve(a: map<(Epoch, Provenance), RestartRecord>, b: map<(Epoch, Provenance), RestartRecord>) {
    forall k <- a :: k in b && RestartEvolves(a[k], b[k])
  }

  ghost predicate TableEvolves(a: Table, b: Table) {
    && DomainsEvolve(a.domains, b.domains)
    && LedgersEvolve(a.ledgers, b.ledgers)
    && CleanupsEvolve(a.cleanups, b.cleanups)
    && RestartsEvolve(a.restarts, b.restarts)
    && SubMap(a.histories, b.histories)
    && SubMap(a.retirements, b.retirements)
  }

  // ---------------------------------------------------------------- one table

  ghost predicate WindowGood(d: Domain, r: DomainRecord) {
    && r.previous.Some? == r.t0.Some?
    && r.deadline == (if r.t0.Some? then Some(r.t0.value + ROLLOUT_OVERLAP + MaxTtl(d)) else None)
    && r.previous != Some(r.primary)
    && (r.legacyWorker.Some? ==> r.previous.Some? && r.legacyWorker != Some(r.primary))
    && r.primary !in r.retiredGenerations
    && (r.previous.Some? && r.previousRetired ==>
          Retirees(r) <= r.retiredGenerations && r.highWater >= r.deadline.value)
    && (r.cleanupAuthorized ==> r.previous.Some? && r.previousRetired)
  }

  ghost predicate WindowsGood(domains: map<Domain, DomainRecord>) {
    forall d <- domains :: WindowGood(d, domains[d])
  }

  /** Both domains are in the current epoch and at the runtime stage its ledger stands for. */
  ghost predicate Lockstep(domains: map<Domain, DomainRecord>, ledgers: map<Epoch, LedgerRecord>, e: Epoch) {
    && MailAction in domains && ReportLink in domains && e in ledgers
    && domains[MailAction].epoch == e && domains[ReportLink].epoch == e
    && domains[MailAction].stage == RuntimeStageOf(ledgers[e].stage)
    && domains[ReportLink].stage == RuntimeStageOf(ledgers[e].stage)
  }

  /** A domain is marked exactly while its cleanup of the current epoch is authorized. */
  ghost predicate MarksGood(domains: map<Domain, DomainRecord>, cleanups: map<(Epoch, Domain), CleanupRecord>) {
    && (forall k <- cleanups :: cleanups[k].stage == Authorized ==>
          k.1 in domains && domains[k.1].epoch == k.0 && domains[k.1].cleanupAuthorized)
    && (forall d <- domains :: domains[d].cleanupAuthorized ==>
          (domains[d].epoch, d) in cleanups && cleanups[(domains[d].epoch, d)].stage == Authorized)
  }

  /** Cleanups belong to completed epochs. */
  ghost predicate CleanupsLate(cleanups: map<(Epoch, Domain), CleanupRecord>, ledgers: map<Epoch, LedgerRecord>) {
    forall k <- cleanups :: k.0 in ledgers && ledgers[k.0].stage == LedgerComplete
  }

  /** A retirement record stands for exactly one finished cleanup. */
  ghost predicate RetirementsGood(
    cleanups: map<(Epoch, Domain), CleanupRecord>, retirements: map<(Domain, Epoch), RetirementRecord>)
  {
    && (forall k <- cleanups :: cleanups[k].stage == CleanupComplete <==> (k.1, k.0) in retirements)
    && (forall k <- retirements :: (k.1, k.0) in cleanups)
  }

  /** A domain whose window is retired and gone has the retirement record of its epoch. */
  ghost predicate ClosedGood(domains: map<Domain, DomainRecord>, retirements: map<(Domain, Epoch), RetirementRecord>) {
    forall d <- domains :: domains[d].previousRetired && domains[d].previous.None? ==>
      (d, domains[d].epoch) in retirements
  }

  ghost predicate Paired(b: Bindings) {
    b.plans.Keys == b.attempts.Keys
  }

  ghost predicate LedgersPaired(ledgers: map<Epoch, LedgerRecord>) {
    forall e <- ledgers :: Paired(ledgers[e].bound)
  }

  /** The issuers a cleanup displaces are those that were there and are not among the new ones. */
  ghost predicate IssuersSplit(c: CleanupRecord) {
    && c.oldIssuers.mail == c.baselineIssuers.mail - c.newIssuers.mail
    && c.oldIssuers.report == c.baselineIssuers.report - c.newIssuers.report
  }

  ghost predicate CleanupRecordGood(c: CleanupRecord) {
    && IssuersSplit(c)
    && (forall task :: task in c.bound.digests)
    && Paired(c.bound)
    && (forall task :: (Candidate, task) in c.bound.plans ==> c.bound.plans[(Candidate, task)] == c.plan)
  }

  ghost predicate CleanupRecordsGood(cleanups: map<(Epoch, Domain), CleanupRecord>) {
    forall k <- cleanups :: CleanupRecordGood(cleanups[k])
  }

  ghost predicate RestartGood(ledgers: map<Epoch, LedgerRecord>, k: (Epoch, Provenance), r: RestartRecord) {
    && r.epoch == k.0 && r.provenance == k.1
    && k.0 in ledgers && Rank(ledgers[k.0].stage) >= Rank(WorkerVerified)
    && (r.stage == Completed ==> r.completedAt.Some?)
    && (r.stage == Requested ==> r.completedAt.None?)
    && (r.completedAt.Some? ==> r.completedAt.value > Max(r.afterCheckedAt, r.requestedAt))
  }

  ghost predicate RestartsGood(ledgers: map<Epoch, LedgerRecord>, restarts: map<(Epoch, Provenance), RestartRecord>) {
    forall k <- restarts :: RestartGood(ledgers, k, restarts[k])
  }

  ghost predicate Blank(t: Table) {
    && t.domains == map[] && t.ledgers == map[] && t.cleanups == map[] && t.restarts == map[]
    && t.histories == map[] && t.retirements == map[]
  }

  ghost predicate Recorded<V>(m: map<(Domain, Epoch), V>, e: Epoch) {
    (MailAction, e) in m && (ReportLink, e) in m
  }

  /** The epochs in the order they were initialized, oldest first; the last one is current. */
  ghost predicate EpochChain(
    ledgers: map<Epoch, LedgerRecord>, histories: map<(Domain, Epoch), HistoryRecord>,
    retirements: map<(Domain, Epoch), RetirementRecord>, c: seq<Epoch>)
  {
    && (forall i, j :: 0 <= i < j < |c| ==> c[i] != c[j])
    && (forall e :: e in ledgers <==> e in c)
    && (forall i :: 0 <= i < |c| ==> ledgers[c[i]].previousEpoch == (if i == 0 then None else Some(c[i - 1])))
    && (forall i :: 0 <= i < |c| - 1 ==> ledgers[c[i]].stage == LedgerComplete)
    && (forall i :: 0 <= i < |c| - 1 ==> Recorded(histories, c[i]) && Recorded(retirements, c[i]))
    && (forall k <- histories :: k.1 in c && k.1 != c[|c| - 1])
  }

  ghost predicate Good(t: Table, c: seq<Epoch>) {
    && (if c == [] then Blank(t) else Lockstep(t.domains, t.ledgers, c[|c| - 1]))
    && EpochChain(t.ledgers, t.histories, t.retirements, c)
    && WindowsGood(t.domains)
    && MarksGood(t.domains, t.cleanups)
    && CleanupsLate(t.cleanups, t.ledgers)
    && RetirementsGood(t.cleanups, t.retirements)
    && ClosedGood(t.domains, t.retirements)
    && LedgersPaired(t.ledgers)
    && CleanupRecordsGood(t.cleanups)
    && RestartsGood(t.ledgers, t.restarts)
  }

  // ---------------------------------------------------------------- what stays when a map stays

  lemma DomainsSame(m: map<Domain, DomainRecord>)
    ensures DomainsEvolve(m, m)
  {
  }

  lemma LedgersSame(m: map<Epoch, LedgerRecord>)
    ensures LedgersEvolve(m, m)
  {
  }

  lemma CleanupsSame(m: map<(Epoch, Domain), CleanupRecord>)
    ensures CleanupsEvolve(m, m)
  {
  }

  lemma RestartsSame(m: map<(Epoch, Provenance), RestartRecord>)
    ensures RestartsEvolve(m, m)
  {
  }

  lemma TwoDomainsEvolve(m: map<Domain, DomainRecord>, mail: DomainRecord, report: DomainRecord)
    requires MailAction in m && DomainEvolves(m[MailAction], mail)
    requires ReportLink in m && DomainEvolves(m[ReportLink], report)
    ensures DomainsEvolve(m, m[MailAction := mail][ReportLink := report])
  {
  }

  lemma OneLedgerEvolves(m: map<Epoch, LedgerRecord>, e: Epoch, r: LedgerRecord)
    requires e in m ==> LedgerEvolves(m[e], r)
    ensures LedgersEvolve(m, m[e := r])
  {
  }

  lemma OneCleanupEvolves(m: map<(Epoch, Domain), CleanupRecord>, k: (Epoch, Domain), r: CleanupRecord)
    requires k in m ==> CleanupEvolves(m[k], r)
    ensures CleanupsEvolve(m, m[k := r])
  {
  }

  lemma OneRestartEvolves(m: map<(Epoch, Provenance), RestartRecord>, k: (Epoch, Provenance), r: RestartRecord)
    requires k in m ==> RestartEvolves(m[k], r)
    ensures RestartsEvolve(m, m[k := r])
  {
  }

  lemma TwoWindowsGood(m: map<Domain, DomainRecord>, mail: DomainRecord, report: DomainRecord)
    requires WindowGood(MailAction, mail) && WindowGood(ReportLink, report)
    ensures WindowsGood(m[MailAction := mail][ReportLink := report])
  {
    var m' := m[MailAction := mail][ReportLink := report];
    forall d <- m'
      ensures WindowGood(d, m'[d])
    {
      match d { case MailAction => case ReportLink => }
    }
  }

  lemma OneCleanupRecordGood(m: map<(Epoch, Domain), CleanupRecord>, k: (Epoch, Domain), r: CleanupRecord)
    requires CleanupRecordsGood(m) && CleanupRecordGood(r)
    ensures CleanupRecordsGood(m[k := r])
  {
  }

  lemma ChainKept(
    l: map<Epoch, LedgerRecord>, l': map<Epoch, LedgerRecord>, h: map<(Domain, Epoch), HistoryRecord>,
    r: map<(Domain, Epoch), RetirementRecord>, r': map<(Domain, Epoch), RetirementRecord>, c: seq<Epoch>)
    requires EpochChain(l, h, r, c) && l'.Keys == l.Keys && LedgersEvolve(l, l') && SubMap(r, r')
    ensures EpochChain(l', h, r', c)
  {
    forall e <- l
      ensures l'[e].previousEpoch == l[e].previousEpoch && (l[e].stage == LedgerComplete ==> l'[e].stage == LedgerComplete)
    {
      assert LedgerEvolves(l[e], l'[e]);
    }
    forall i | 0 <= i < |c| - 1
      ensures Recorded(r', c[i])
    {
      assert Recorded(r, c[i]);
    }
  }

  lemma RestartsKept(ledgers: map<Epoch, LedgerRecord>, ledgers': map<Epoch, LedgerRecord>,
                     restarts: map<(Epoch, Provenance), RestartRecord>)
    requires RestartsGood(ledgers, restarts) && LedgersEvolve(ledgers, ledgers')
    ensures RestartsGood(ledgers', restarts)
  {
    forall k <- restarts
      ensures RestartGood(ledgers', k, restarts[k])
    {
      assert RestartGood(ledgers, k, restarts[k]);
    }
  }

  lemma LateKept(cleanups: map<(Epoch, Domain), CleanupRecord>, ledgers: map<Epoch, LedgerRecord>,
                 ledgers': map<Epoch, LedgerRecord>)
    requires CleanupsLate(cleanups, ledgers) && LedgersEvolve(ledgers, ledgers')
    ensures CleanupsLate(cleanups, ledgers')
  {
    forall k <- cleanups
      ensures k.0 in ledgers' && ledgers'[k.0].stage == LedgerComplete
    {
      assert LedgerEvolves(ledgers[k.0], ledgers'[k.0]);
    }
  }

  /** The cleanup records look at no more of a domain than its epoch and its authorization mark. */
  ghost predicate SameMarks(a: map<Domain, DomainRecord>, b: map<Domain, DomainRecord>) {
    && a.Keys == b.Keys
    && forall d <- a :: b[d].epoch == a[d].epoch && b[d].cleanupAuthorized == a[d].cleanupAuthorized
  }

  ghost predicate SameStages(a: map<(Epoch, Domain), CleanupRecord>, b: map<(Epoch, Domain), CleanupRecord>) {
    && a.Keys == b.Keys
    && forall k <- a :: b[k].stage == a[k].stage
  }

  lemma MarksKept(a: map<Domain, DomainRecord>, b: map<Domain, DomainRecord>,
                  c: map<(Epoch, Domain), CleanupRecord>, c': map<(Epoch, Domain), CleanupRecord>)
    requires MarksGood(a, c) && SameMarks(a, b) && SameStages(c, c')
    ensures MarksGood(b, c')
  {
  }

  /** A window stays as it is, or an open one is retired. */
  ghost predicate WindowsStay(a: map<Domain, DomainRecord>, b: map<Domain, DomainRecord>) {
    && a.Keys == b.Keys
    && forall d <- a :: b[d].epoch == a[d].epoch && b[d].previous == a[d].previous
                        && (b[d].previousRetired && b[d].previous.None? ==> a[d].previousRetired)
  }

  lemma ClosedKept(a: map<Domain, DomainRecord>, b: map<Domain, DomainRecord>,
                   r: map<(Domain, Epoch), RetirementRecord>)
    requires ClosedGood(a, r) && WindowsStay(a, b)
    ensures ClosedGood(b, r)
  {
  }

  /** One authorization ends: its record leaves the stage and its domain loses the mark. */
  lemma MarkCleared(a: map<Domain, DomainRecord>, b: map<Domain, DomainRecord>,
                    c: map<(Epoch, Domain), CleanupRecord>, k: (Epoch, Domain), r: CleanupRecord)
    requires MarksGood(a, c) && k in c && c[k].stage == Authorized && r.stage != Authorized
    requires a.Keys == b.Keys
    requires forall d <- a :: b[d].epoch == a[d].epoch && b[d].cleanupAuthorized == (a[d].cleanupAuthorized && d != k.1)
    ensures MarksGood(b, c[k := r])
  {
  }

  lemma CleanupClosed(
    c: map<(Epoch, Domain), CleanupRecord>, ledgers: map<Epoch, LedgerRecord>,
    retirements: map<(Domain, Epoch), RetirementRecord>, retirements': map<(Domain, Epoch), RetirementRecord>,
    k: (Epoch, Domain), r: CleanupRecord)
    requires CleanupsLate(c, ledgers) && RetirementsGood(c, retirements) && CleanupRecordsGood(c)
    requires k in c && c[k].stage == Authorized && CleanupEvolves(c[k], r) && r.bound == c[k].bound && r.plan == c[k].plan
    requires (r.stage == Aborted && retirements' == retirements)
             || (r.stage == CleanupComplete && retirements'.Keys == retirements.Keys + {(k.1, k.0)})
    ensures CleanupsLate(c[k := r], ledgers) && RetirementsGood(c[k := r], retirements')
    ensures CleanupRecordsGood(c[k := r]) && CleanupsEvolve(c, c[k := r])
  {
    EndedRecordGood(c[k], r);
    OneCleanupRecordGood(c, k, r);
    OneCleanupEvolves(c, k, r);
    OneRetirementGood(c, retirements, retirements', k, r);
  }

  lemma EndedRecordGood(c: CleanupRecord, r: CleanupRecord)
    requires CleanupRecordGood(c) && CleanupEvolves(c, r) && r.bound == c.bound && r.plan == c.plan
    ensures CleanupRecordGood(r)
  {
  }

  lemma OneRetirementGood(
    c: map<(Epoch, Domain), CleanupRecord>, retirements: map<(Domain, Epoch), RetirementRecord>,
    retirements': map<(Domain, Epoch), RetirementRecord>, k: (Epoch, Domain), r: CleanupRecord)
    requires RetirementsGood(c, retirements) && k in c && c[k].stage == Authorized
    requires (r.stage == Aborted && retirements' == retirements)
             || (r.stage == CleanupComplete && retirements'.Keys == retirements.Keys + {(k.1, k.0)})
    ensures RetirementsGood(c[k := r], retirements')
  {
  }

  lemma CleanupChanged(
    c: map<(Epoch, Domain), CleanupRecord>, ledgers: map<Epoch, LedgerRecord>,
    retirements: map<(Domain, Epoch), RetirementRecord>, k: (Epoch, Domain), r: CleanupRecord)
    requires CleanupsLate(c, ledgers) && RetirementsGood(c, retirements) && k in c && r.stage == c[k].stage
    ensures CleanupsLate(c[k := r], ledgers) && RetirementsGood(c[k := r], retirements) && SameStages(c, c[k := r])
  {
  }

  /** Writing one cleanup record without moving its stage touches nothing else but intents. */
  lemma CleanupWritten(t: Table, k: (Epoch, Domain), r: CleanupRecord, t': Table, c: seq<Epoch>)
    requires Good(t, c) && k in t.cleanups && r.stage == t.cleanups[k].stage
    requires CleanupRecordGood(r) && CleanupEvolves(t.cleanups[k], r)
    requires t' == t.(cleanups := t.cleanups[k := r], intents := t'.intents)
    ensures Good(t', c) && TableEvolves(t, t')
  {
    OneCleanupRecordGood(t.cleanups, k, r);
    OneCleanupEvolves(t.cleanups, k, r);
    CleanupChanged(t.cleanups, t.ledgers, t.retirements, k, r);
    MarksKept(t.domains, t.domains, t.cleanups, t'.cleanups);
    DomainsSame(t.domains);
    LedgersSame(t.ledgers);
    RestartsSame(t.restarts);
  }

  // ---------------------------------------------------------------- every action keeps it

  ghost predicate SeenBefore(t: Table, seen: Both<DomainRecord>) {
    && MailAction in t.domains && DomainEvolves(seen.mail, t.domains[MailAction])
    && ReportLink in t.domains && DomainEvolves(seen.report, t.domains[ReportLink])
  }

  lemma FirstRecord(d: Domain, q: InitializeRequest)
    requires TransitionAccepted(q.manifest, q.deployed, q.checkedAt)
    ensures WindowGood(d, FirstDomain(d, q))
  {
    TransitionContract(q.deployed.At(d), q.manifest.proposed.At(d), q.checkedAt, MaxTtl(d));
  }

  lemma FirstEpochStep(t: Table, q: InitializeRequest, t': Table, c: seq<Epoch>)
    requires Good(t, c) && FirstEpochChecks(q) && FirstEpochHolds(t, q) && t' == FirstEpochEffect(t, q)
    ensures Good(t', c + [q.epoch]) && TableEvolves(t, t')
  {
    assert c == [];
    assert (c + [q.epoch]) == [q.epoch];
    FirstRecord(MailAction, q);
    FirstRecord(ReportLink, q);
    TwoWindowsGood(t.domains, FirstDomain(MailAction, q), FirstDomain(ReportLink, q));
    FirstChain(t, q, t');
    FirstRest(t, q, t');
  }

  lemma FirstRest(t: Table, q: InitializeRequest, t': Table)
    requires Blank(t) && FirstEpochChecks(q) && FirstEpochHolds(t, q) && t' == FirstEpochEffect(t, q)
    requires CleanupsLate(t.cleanups, t.ledgers) && RetirementsGood(t.cleanups, t.retirements)
    requires EpochChain(t.ledgers, t.histories, t.retirements, []) && RestartsGood(t.ledgers, t.restarts)
    requires ClosedGood(t.domains, t.retirements)
    ensures MarksGood(t'.domains, t'.cleanups) && ClosedGood(t'.domains, t'.retirements)
    ensures CleanupsLate(t'.cleanups, t'.ledgers) && RetirementsGood(t'.cleanups, t'.retirements)
    ensures LedgersPaired(t'.ledgers) && CleanupRecordsGood(t'.cleanups) && RestartsGood(t'.ledgers, t'.restarts)
  {
  }

  lemma FirstChain(t: Table, q: InitializeRequest, t': Table)
    requires Blank(t) && EpochChain(t.ledgers, t.histories, t.retirements, [])
    requires FirstEpochHolds(t, q) && t' == FirstEpochEffect(t, q)
    ensures EpochChain(t'.ledgers, t'.histories, t'.retirements, [q.epoch])
  {
  }

  lemma NextRecord(d: Domain, q: InitializeRequest, seen: DomainRecord, r: DomainRecord)
    requires TransitionAccepted(q.manifest, q.deployed, q.checkedAt)
    requires ReadyForNextEpoch(d, q, seen) && seen.revision == r.revision && DomainEvolves(seen, r)
    ensures WindowGood(d, NextDomain(d, q, r)) && DomainEvolves(r, NextDomain(d, q, r))
    ensures r.previousRetired && r.previous.None?
  {
    TransitionContract(q.deployed.At(d), q.manifest.proposed.At(d), q.checkedAt, MaxTtl(d));
    assert ClockMoved(seen, r);
  }

  lemma ChainExtended(
    l: map<Epoch, LedgerRecord>, h: map<(Domain, Epoch), HistoryRecord>, r: map<(Domain, Epoch), RetirementRecord>,
    c: seq<Epoch>, e: Epoch, x: LedgerRecord, mail: HistoryRecord, report: HistoryRecord)
    requires c != [] && EpochChain(l, h, r, c) && Recorded(r, c[|c| - 1])
    requires e !in l && x.previousEpoch == Some(c[|c| - 1]) && l[c[|c| - 1]].stage == LedgerComplete
    ensures EpochChain(l[e := x], h[(MailAction, c[|c| - 1]) := mail][(ReportLink, c[|c| - 1]) := report], r, c + [e])
  {
    var last := c[|c| - 1];
    var c', h', l' := c + [e], h[(MailAction, last) := mail][(ReportLink, last) := report], l[e := x];
    assert c'[|c|] == e && forall i :: 0 <= i < |c| ==> c'[i] == c[i] && c[i] in l;
    AllRecorded(l, h, r, c, mail, report);
    LinksExtended(l, h, r, c, e, x, l', c');
    forall k <- h' ensures k.1 in c' && k.1 != e {
      if k in h {
        assert k.1 in c;
      } else {
        assert k.1 == last && last in c;
      }
    }
    forall y ensures y in l' <==> y in c' {
      assert y in c' <==> y in c || y == e;
    }
    assert forall i, j :: 0 <= i < j < |c'| ==> c'[i] != c'[j];
    assert EpochChain(l', h', r, c');
  }

  /** With the histories of the last epoch written, every epoch of the chain is recorded. */
  lemma AllRecorded(
    l: map<Epoch, LedgerRecord>, h: map<(Domain, Epoch), HistoryRecord>, r: map<(Domain, Epoch), RetirementRecord>,
    c: seq<Epoch>, mail: HistoryRecord, report: HistoryRecord)
    requires c != [] && EpochChain(l, h, r, c) && Recorded(r, c[|c| - 1])
    ensures var h' := h[(MailAction, c[|c| - 1]) := mail][(ReportLink, c[|c| - 1]) := report];
            forall i :: 0 <= i < |c| ==> Recorded(h', c[i]) && Recorded(r, c[i])
  {
    var h' := h[(MailAction, c[|c| - 1]) := mail][(ReportLink, c[|c| - 1]) := report];
    forall i | 0 <= i < |c| ensures Recorded(h', c[i]) && Recorded(r, c[i]) {
      if i < |c| - 1 {
        assert Recorded(h, c[i]) && Recorded(r, c[i]);
      }
    }
  }

  lemma LinksExtended(
    l: map<Epoch, LedgerRecord>, h: map<(Domain, Epoch), HistoryRecord>, r: map<(Domain, Epoch), RetirementRecord>,
    c: seq<Epoch>, e: Epoch, x: LedgerRecord, l': map<Epoch, LedgerRecord>, c': seq<Epoch>)
    requires c != [] && EpochChain(l, h, r, c) && l' == l[e := x] && c' == c + [e]
    requires e !in l && x.previousEpoch == Some(c[|c| - 1]) && l[c[|c| - 1]].stage == LedgerComplete
    ensures forall i :: 0 <= i < |c'| ==> c'[i] in l'
    ensures forall i :: 0 <= i < |c'| ==> l'[c'[i]].previousEpoch == (if i == 0 then None else Some(c'[i - 1]))
    ensures forall i :: 0 <= i < |c'| - 1 ==> l'[c'[i]].stage == LedgerComplete
  {
    forall i | 0 <= i < |c'|
      ensures c'[i] in l' && l'[c'[i]].previousEpoch == (if i == 0 then None else Some(c'[i - 1]))
      ensures i < |c'| - 1 ==> l'[c'[i]].stage == LedgerComplete
    {
      if i == |c| {
        assert c'[i] == e && c'[i - 1] == c[|c| - 1];
      } else {
        assert c'[i] == c[i] && c[i] in l;
        assert l[c[i]].previousEpoch == (if i == 0 then None else Some(c[i - 1]));
        assert i > 0 ==> c'[i - 1] == c[i - 1];
      }
    }
  }

  lemma NextEpochLedgers(t: Table, q: InitializeRequest, seen: Both<DomainRecord>, t': Table)
    requires NextEpochHolds(t, q, seen) && t' == NextEpochEffect(t, q, seen)
    requires CleanupsLate(t.cleanups, t.ledgers) && RestartsGood(t.ledgers, t.restarts) && LedgersPaired(t.ledgers)
    ensures LedgersEvolve(t.ledgers, t'.ledgers) && SubMap(t.histories, t'.histories)
    ensures CleanupsLate(t.cleanups, t'.ledgers) && RestartsGood(t'.ledgers, t.restarts) && LedgersPaired(t'.ledgers)
  {
    OneLedgerEvolves(t.ledgers, q.epoch, t'.ledgers[q.epoch]);
    RestartsKept(t.ledgers, t'.ledgers, t.restarts);
    LateKept(t.cleanups, t.ledgers, t'.ledgers);
  }

  lemma NextEpochMarks(
    a: map<Domain, DomainRecord>, mail: DomainRecord, report: DomainRecord,
    cleanups: map<(Epoch, Domain), CleanupRecord>, retirements: map<(Domain, Epoch), RetirementRecord>)
    requires MarksGood(a, cleanups) && WindowsGood(a)
    requires MailAction in a && a[MailAction].previous.None? && ReportLink in a && a[ReportLink].previous.None?
    requires !mail.cleanupAuthorized && !report.cleanupAuthorized && !mail.previousRetired && !report.previousRetired
    ensures MarksGood(a[MailAction := mail][ReportLink := report], cleanups)
    ensures ClosedGood(a[MailAction := mail][ReportLink := report], retirements)
  {
    assert WindowGood(MailAction, a[MailAction]) && WindowGood(ReportLink, a[ReportLink]);
    forall k <- cleanups
      ensures cleanups[k].stage != Authorized
    {
      match k.1 { case MailAction => case ReportLink => }
    }
    var b := a[MailAction := mail][ReportLink := report];
    forall d <- b
      ensures !b[d].previousRetired && !b[d].cleanupAuthorized
    {
      match d { case MailAction => case ReportLink => }
    }
  }

  lemma NextEpochDomains(
    t: Table, q: InitializeRequest, seen: Both<DomainRecord>, prior: Option<LedgerRecord>, t': Table)
    requires WindowsGood(t.domains) && MarksGood(t.domains, t.cleanups) && SeenBefore(t, seen)
    requires NextEpochChecks(q, seen, prior) && NextEpochHolds(t, q, seen)
    requires t' == NextEpochEffect(t, q, seen)
    ensures DomainsEvolve(t.domains, t'.domains) && WindowsGood(t'.domains)
    ensures MarksGood(t'.domains, t.cleanups) && ClosedGood(t'.domains, t.retirements)
    ensures Lockstep(t'.domains, t'.ledgers, q.epoch)
    ensures t.domains[MailAction].previousRetired && t.domains[MailAction].previous.None?
    ensures t.domains[ReportLink].previousRetired && t.domains[ReportLink].previous.None?
  {
    var mail, report := t.domains[MailAction], t.domains[ReportLink];
    NextRecord(MailAction, q, seen.mail, mail);
    NextRecord(ReportLink, q, seen.report, report);
    TwoDomainsEvolve(t.domains, NextDomain(MailAction, q, mail), NextDomain(ReportLink, q, report));
    TwoWindowsGood(t.domains, NextDomain(MailAction, q, mail), NextDomain(ReportLink, q, report));
    NextEpochMarks(t.domains, NextDomain(MailAction, q, mail), NextDomain(ReportLink, q, report), t.cleanups, t.retirements);
  }

  lemma NextEpochLinked(t: Table, q: InitializeRequest, seen: Both<DomainRecord>, t': Table, c: seq<Epoch>)
    requires c != [] && EpochChain(t.ledgers, t.histories, t.retirements, c) && NextEpochHolds(t, q, seen)
    requires seen.mail.epoch == seen.report.epoch == c[|c| - 1] && Recorded(t.retirements, c[|c| - 1])
    requires t' == NextEpochEffect(t, q, seen)
    ensures EpochChain(t'.ledgers, t'.histories, t'.retirements, c + [q.epoch])
  {
    ChainExtended(t.ledgers, t.histories, t.retirements, c, q.epoch, t'.ledgers[q.epoch],
                  ClosingRecord(q, MailAction, seen.mail), ClosingRecord(q, ReportLink, seen.report));
  }

  lemma NextEpochStep(
    t: Table, q: InitializeRequest, seen: Both<DomainRecord>, prior: Option<LedgerRecord>, t': Table, c: seq<Epoch>)
    requires Good(t, c) && NextEpochChecks(q, seen, prior) && NextEpochHolds(t, q, seen) && SeenBefore(t, seen)
    requires t' == NextEpochEffect(t, q, seen)
    ensures Good(t', c + [q.epoch]) && TableEvolves(t, t')
  {
    assert c != [];
    NextEpochDomains(t, q, seen, prior, t');
    assert Recorded(t.retirements, c[|c| - 1]);
    NextEpochLinked(t, q, seen, t', c);
    NextEpochLedgers(t, q, seen, t');
    CleanupsSame(t.cleanups);
    RestartsSame(t.restarts);
  }

  lemma StagedRecord(q: TransitionRequest, d: Domain, r: DomainRecord)
    requires WindowGood(d, r)
    ensures WindowGood(d, StagedDomain(q, d, r)) && DomainEvolves(r, StagedDomain(q, d, r))
  {
  }

  lemma TransitionDomains(t: Table, q: TransitionRequest, t': Table)
    requires WindowsGood(t.domains) && Lockstep(t.domains, t.ledgers, q.control.epoch) && t' == TransitionEffect(t, q)
    ensures DomainsEvolve(t.domains, t'.domains) && WindowsGood(t'.domains)
    ensures Lockstep(t'.domains, t'.ledgers, q.control.epoch)
    ensures WindowsStay(t.domains, t'.domains) && SameMarks(t.domains, t'.domains)
  {
    var mail, report := t.domains[MailAction], t.domains[ReportLink];
    StagedRecord(q, MailAction, mail);
    StagedRecord(q, ReportLink, report);
    TwoDomainsEvolve(t.domains, StagedDomain(q, MailAction, mail), StagedDomain(q, ReportLink, report));
    TwoWindowsGood(t.domains, StagedDomain(q, MailAction, mail), StagedDomain(q, ReportLink, report));
  }

  /** A ledger record moves on; everything that refers to ledgers still fits. */
  lemma LedgerMoved(t: Table, e: Epoch, r: LedgerRecord, t': Table, c: seq<Epoch>)
    requires EpochChain(t.ledgers, t.histories, t.retirements, c) && LedgersPaired(t.ledgers)
    requires RestartsGood(t.ledgers, t.restarts) && CleanupsLate(t.cleanups, t.ledgers)
    requires e in t.ledgers && LedgerEvolves(t.ledgers[e], r) && Paired(r.bound)
    requires t'.ledgers == t.ledgers[e := r] && t'.histories == t.histories && t'.retirements == t.retirements
    ensures EpochChain(t'.ledgers, t'.histories, t'.retirements, c) && LedgersPaired(t'.ledgers)
    ensures RestartsGood(t'.ledgers, t.restarts) && CleanupsLate(t.cleanups, t'.ledgers)
    ensures LedgersEvolve(t.ledgers, t'.ledgers)
  {
    OneLedgerEvolves(t.ledgers, e, r);
    ChainKept(t.ledgers, t'.ledgers, t.histories, t.retirements, t'.retirements, c);
    RestartsKept(t.ledgers, t'.ledgers, t.restarts);
    LateKept(t.cleanups, t.ledgers, t'.ledgers);
  }

  lemma TransitionLedgers(t: Table, q: TransitionRequest, ledger: LedgerRecord, t': Table, c: seq<Epoch>)
    requires EpochChain(t.ledgers, t.histories, t.retirements, c) && LedgersPaired(t.ledgers)
    requires RestartsGood(t.ledgers, t.restarts) && CleanupsLate(t.cleanups, t.ledgers)
    requires TransitionHolds(t, q, ledger) && q.target != Initialized && ledger.stage == ExpectedStage(q.target)
    requires t' == TransitionEffect(t, q)
    ensures EpochChain(t'.ledgers, t'.histories, t'.retirements, c) && LedgersPaired(t'.ledgers)
    ensures RestartsGood(t'.ledgers, t.restarts) && CleanupsLate(t.cleanups, t'.ledgers)
    ensures LedgersEvolve(t.ledgers, t'.ledgers)
  {
    var e := q.control.epoch;
    assert Paired(t.ledgers[e].bound);
    LedgerMoved(t, e, t'.ledgers[e], t', c);
  }

  lemma TransitionStep(
    t: Table, q: TransitionRequest, ledger: LedgerRecord, t': Table, c: seq<Epoch>)
    requires Good(t, c) && TransitionHolds(t, q, ledger)
    requires q.target != Initialized && ledger.stage == ExpectedStage(q.target)
    requires t' == TransitionEffect(t, q)
    ensures Good(t', c) && TableEvolves(t, t')
  {
    TransitionDomains(t, q, t');
    TransitionLedgers(t, q, ledger, t', c);
    MarksKept(t.domains, t'.domains, t.cleanups, t.cleanups);
    ClosedKept(t.domains, t'.domains, t.retirements);
    CleanupsSame(t.cleanups);
    RestartsSame(t.restarts);
  }

  lemma AuthorizedRecordGood(q: AuthorizeRequest, d: Domain, seen: DomainRecord, r: DomainRecord)
    requires WindowGood(d, r) && DomainEvolves(seen, r) && seen.revision == r.revision
    requires d == q.domain ==> seen.highWater == r.highWater && seen.deadline.Some? && q.now >= seen.deadline.value
    ensures WindowGood(d, AuthorizedDomain(q, d, seen, r)) && DomainEvolves(r, AuthorizedDomain(q, d, seen, r))
  {
    assert ClockMoved(seen, r);
  }

  lemma AuthorizeMarks(t: Table, q: AuthorizeRequest, seen: Both<DomainRecord>, t': Table, e: Epoch)
    requires Lockstep(t.domains, t.ledgers, e) && MarksGood(t.domains, t.cleanups)
    requires AuthorizeHolds(t, q, seen) && t' == AuthorizeEffect(t, q, seen)
    ensures MarksGood(t'.domains, t'.cleanups)
  {
  }

  lemma AuthorizeCleanups(t: Table, q: AuthorizeRequest, seen: Both<DomainRecord>, t': Table, e: Epoch)
    requires Lockstep(t.domains, t.ledgers, e)
    requires CleanupsLate(t.cleanups, t.ledgers) && RetirementsGood(t.cleanups, t.retirements)
    requires CleanupRecordsGood(t.cleanups)
    requires AuthorizeChecks(q, seen) && AuthorizeHolds(t, q, seen) && t' == AuthorizeEffect(t, q, seen)
    ensures CleanupsLate(t'.cleanups, t.ledgers) && RetirementsGood(t'.cleanups, t.retirements)
    ensures CleanupRecordsGood(t'.cleanups) && CleanupsEvolve(t.cleanups, t'.cleanups)
  {
    assert q.control.epoch == e && t.ledgers[e].stage == LedgerComplete;
    var r := AuthorizedCleanup(q, seen);
    forall task: Workload
      ensures task in r.bound.digests
    {
      match task { case Mcp => case ConnectWeb => case MorningDigest => case Worker => }
    }
    OneCleanupRecordGood(t.cleanups, (e, q.domain), r);
    OneCleanupEvolves(t.cleanups, (e, q.domain), r);
  }

  lemma AuthorizeDomains(t: Table, q: AuthorizeRequest, seen: Both<DomainRecord>, t': Table)
    requires WindowsGood(t.domains) && SeenBefore(t, seen)
    requires AuthorizeChecks(q, seen) && AuthorizeHolds(t, q, seen) && t' == AuthorizeEffect(t, q, seen)
    ensures DomainsEvolve(t.domains, t'.domains) && WindowsGood(t'.domains) && WindowsStay(t.domains, t'.domains)
  {
    var mail, report := t.domains[MailAction], t.domains[ReportLink];
    AuthorizedRecordGood(q, MailAction, seen.mail, mail);
    AuthorizedRecordGood(q, ReportLink, seen.report, report);
    TwoDomainsEvolve(t.domains, AuthorizedDomain(q, MailAction, seen.mail, mail),
                     AuthorizedDomain(q, ReportLink, seen.report, report));
    TwoWindowsGood(t.domains, AuthorizedDomain(q, MailAction, seen.mail, mail),
                   AuthorizedDomain(q, ReportLink, seen.report, report));
  }

  lemma AuthorizeStep(t: Table, q: AuthorizeRequest, seen: Both<DomainRecord>, t': Table, c: seq<Epoch>)
    requires Good(t, c) && AuthorizeChecks(q, seen) && AuthorizeHolds(t, q, seen) && SeenBefore(t, seen)
    requires t' == AuthorizeEffect(t, q, seen)
    ensures Good(t', c) && TableEvolves(t, t')
  {
    AuthorizeDomains(t, q, seen, t');
    AuthorizeMarks(t, q, seen, t', c[|c| - 1]);
    AuthorizeCleanups(t, q, seen, t', c[|c| - 1]);
    ClosedKept(t.domains, t'.domains, t.retirements);
    LedgersSame(t.ledgers);
    RestartsSame(t.restarts);
  }

  lemma AbortedRecordGood(q: ReconcileRequest, d: Domain, cleanup: CleanupRecord, r: DomainRecord)
    requires WindowGood(d, r)
    ensures WindowGood(d, AbortedDomain(q, d, cleanup, r)) && DomainEvolves(r, AbortedDomain(q, d, cleanup, r))
  {
  }

  lemma AbortDomains(
    t: Table, q: ReconcileRequest, cleanup: CleanupRecord, restart: Option<RestartRecord>, t': Table)
    requires WindowsGood(t.domains) && MailAction in t.domains && ReportLink in t.domains
    requires cleanup.intent in t.intents && (q.control.epoch, q.domain) in t.cleanups
    requires t' == AbortEffect(t, q, cleanup, restart)
    ensures DomainsEvolve(t.domains, t'.domains) && WindowsGood(t'.domains) && WindowsStay(t.domains, t'.domains)
  {
    var mail, report := t.domains[MailAction], t.domains[ReportLink];
    AbortedRecordGood(q, MailAction, cleanup, mail);
    AbortedRecordGood(q, ReportLink, cleanup, report);
    TwoDomainsEvolve(t.domains, AbortedDomain(q, MailAction, cleanup, mail), AbortedDomain(q, ReportLink, cleanup, report));
    TwoWindowsGood(t.domains, AbortedDomain(q, MailAction, cleanup, mail), AbortedDomain(q, ReportLink, cleanup, report));
  }

  lemma AbortMarks(
    t: Table, q: ReconcileRequest, cleanup: CleanupRecord, restart: Option<RestartRecord>,
    seen: Both<DomainRecord>, t': Table)
    requires MarksGood(t.domains, t.cleanups) && AbortHolds(t, q, cleanup, restart, seen)
    requires t' == AbortEffect(t, q, cleanup, restart)
    ensures MarksGood(t'.domains, t'.cleanups)
  {
    var k := (q.control.epoch, q.domain);
    MarkCleared(t.domains, t'.domains, t.cleanups, k, t'.cleanups[k]);
  }

  lemma AbortCleanups(
    t: Table, q: ReconcileRequest, cleanup: CleanupRecord, restart: Option<RestartRecord>,
    seen: Both<DomainRecord>, t': Table)
    requires CleanupsLate(t.cleanups, t.ledgers) && RetirementsGood(t.cleanups, t.retirements)
    requires CleanupRecordsGood(t.cleanups) && AbortHolds(t, q, cleanup, restart, seen)
    requires t' == AbortEffect(t, q, cleanup, restart)
    ensures CleanupsLate(t'.cleanups, t.ledgers) && RetirementsGood(t'.cleanups, t.retirements)
    ensures CleanupRecordsGood(t'.cleanups) && CleanupsEvolve(t.cleanups, t'.cleanups)
  {
    var k := (q.control.epoch, q.domain);
    CleanupClosed(t.cleanups, t.ledgers, t.retirements, t.retirements, k, t'.cleanups[k]);
  }

  lemma AbortStep(
    t: Table, q: ReconcileRequest, cleanup: CleanupRecord, restart: Option<RestartRecord>,
    seen: Both<DomainRecord>, t': Table, c: seq<Epoch>)
    requires Good(t, c) && AbortHolds(t, q, cleanup, restart, seen) && t' == AbortEffect(t, q, cleanup, restart)
    ensures Good(t', c) && TableEvolves(t, t')
  {
    AbortDomains(t, q, cleanup, restart, t');
    AbortMarks(t, q, cleanup, restart, seen, t');
    AbortCleanups(t, q, cleanup, restart, seen, t');
    ClosedKept(t.domains, t'.domains, t.retirements);
    LedgersSame(t.ledgers);
    RestartsSame(t.restarts);
  }

  lemma RebindStep(
    t: Table, q: ReconcileRequest, cleanup: CleanupRecord, restart: Option<RestartRecord>, worker: WorkerClass,
    t': Table, c: seq<Epoch>)
    requires Good(t, c) && RebindHolds(t, q, cleanup, restart)
    requires t' == RebindEffect(t, q, cleanup, restart, worker)
    ensures Good(t', c) && TableEvolves(t, t')
  {
    var k := (q.control.epoch, q.domain);
    assert CleanupRecordGood(t.cleanups[k]);
    CleanupWritten(t, k, t'.cleanups[k], t', c);
  }

  lemma CleanedRecordGood(q: CompleteRequest, d: Domain, cleanup: CleanupRecord, r: DomainRecord)
    requires WindowGood(d, r)
    ensures WindowGood(d, CleanedDomain(q, d, cleanup, r)) && DomainEvolves(r, CleanedDomain(q, d, cleanup, r))
  {
  }

  lemma CompleteClosed(t: Table, q: CompleteRequest, cleanup: CleanupRecord, seen: Both<DomainRecord>, t': Table)
    requires ClosedGood(t.domains, t.retirements) && CompleteHolds(t, q, cleanup, seen)
    requires seen.At(q.domain).previous.Some? && seen.At(q.domain).t0.Some? && seen.At(q.domain).deadline.Some?
    requires t' == CompleteEffect(t, q, cleanup, seen.At(q.domain))
    ensures ClosedGood(t'.domains, t'.retirements) && SubMap(t.retirements, t'.retirements)
  {
  }

  lemma CompleteDomains(t: Table, q: CompleteRequest, cleanup: CleanupRecord, seen: DomainRecord, t': Table, e: Epoch)
    requires WindowsGood(t.domains) && Lockstep(t.domains, t.ledgers, e)
    requires (q.control.epoch, q.domain) in t.cleanups
    requires seen.previous.Some? && seen.t0.Some? && seen.deadline.Some?
    requires t' == CompleteEffect(t, q, cleanup, seen)
    ensures DomainsEvolve(t.domains, t'.domains) && WindowsGood(t'.domains) && Lockstep(t'.domains, t.ledgers, e)
  {
    var mail, report := t.domains[MailAction], t.domains[ReportLink];
    CleanedRecordGood(q, MailAction, cleanup, mail);
    CleanedRecordGood(q, ReportLink, cleanup, report);
    TwoDomainsEvolve(t.domains, CleanedDomain(q, MailAction, cleanup, mail), CleanedDomain(q, ReportLink, cleanup, report));
    TwoWindowsGood(t.domains, CleanedDomain(q, MailAction, cleanup, mail), CleanedDomain(q, ReportLink, cleanup, report));
  }

  lemma CompleteMarks(t: Table, q: CompleteRequest, cleanup: CleanupRecord, seen: Both<DomainRecord>, t': Table)
    requires MarksGood(t.domains, t.cleanups) && CompleteHolds(t, q, cleanup, seen)
    requires seen.At(q.domain).previous.Some? && seen.At(q.domain).t0.Some? && seen.At(q.domain).deadline.Some?
    requires t' == CompleteEffect(t, q, cleanup, seen.At(q.domain))
    ensures MarksGood(t'.domains, t'.cleanups)
  {
    var k := (q.control.epoch, q.domain);
    MarkCleared(t.domains, t'.domains, t.cleanups, k, t'.cleanups[k]);
  }

  lemma CompleteCleanups(t: Table, q: CompleteRequest, cleanup: CleanupRecord, seen: Both<DomainRecord>, t': Table)
    requires CleanupsLate(t.cleanups, t.ledgers) && RetirementsGood(t.cleanups, t.retirements)
    requires CleanupRecordsGood(t.cleanups) && CompleteHolds(t, q, cleanup, seen)
    requires seen.At(q.domain).previous.Some? && seen.At(q.domain).t0.Some? && seen.At(q.domain).deadline.Some?
    requires t' == CompleteEffect(t, q, cleanup, seen.At(q.domain))
    ensures CleanupsLate(t'.cleanups, t.ledgers) && RetirementsGood(t'.cleanups, t'.retirements)
    ensures CleanupRecordsGood(t'.cleanups) && CleanupsEvolve(t.cleanups, t'.cleanups)
  {
    var k := (q.control.epoch, q.domain);
    CleanupClosed(t.cleanups, t.ledgers, t.retirements, t'.retirements, k, t'.cleanups[k]);
  }

  lemma CompleteStep(
    t: Table, q: CompleteRequest, cleanup: CleanupRecord, seen: Both<DomainRecord>, t': Table, c: seq<Epoch>)
    requires Good(t, c) && CompleteHolds(t, q, cleanup, seen)
    requires seen.At(q.domain).previous.Some? && seen.At(q.domain).t0.Some? && seen.At(q.domain).deadline.Some?
    requires t' == CompleteEffect(t, q, cleanup, seen.At(q.domain))
    ensures Good(t', c) && TableEvolves(t, t')
  {
    CompleteDomains(t, q, cleanup, seen.At(q.domain), t', c[|c| - 1]);
    CompleteMarks(t, q, cleanup, seen, t');
    CompleteCleanups(t, q, cleanup, seen, t');
    CompleteClosed(t, q, cleanup, seen, t');
    LedgersSame(t.ledgers);
    RestartsSame(t.restarts);
    ChainKept(t.ledgers, t'.ledgers, t.histories, t.retirements, t'.retirements, c);
  }

  lemma BoundArtifacts(b: Binding, o: Bindings)
    requires Paired(o)
    requires b.BindDigest? ==> b.task !in o.digests
    requires b.BindArn? ==> b.task !in o.arns
    requires b.BindTarget? ==> o.targetDigest.None? && o.ruleDigest.None?
    requires b.BindIntent? ==> (b.kind, b.task) !in o.plans && (b.kind, b.task) !in o.attempts
    ensures ArtifactsKept(o, WithBinding(b, o)) && Paired(WithBinding(b, o))
    ensures SubMap(o.plans, WithBinding(b, o).plans) && SubMap(o.attempts, WithBinding(b, o).attempts)
  {
  }

  lemma BindLedgerStep(t: Table, e: Epoch, b: Binding, seen: BindingHolder, t': Table, c: seq<Epoch>)
    requires Good(t, c) && BindHolds(t, OnLedger(e), b, seen) && t' == BindEffect(t, OnLedger(e), b)
    ensures Good(t', c) && TableEvolves(t, t')
  {
    assert Paired(t.ledgers[e].bound);
    BoundArtifacts(b, t.ledgers[e].bound);
    LedgerAlone(t, e, t'.ledgers[e], t', c);
  }

  /** Only one ledger record moves, and not its stage. */
  lemma LedgerAlone(t: Table, e: Epoch, r: LedgerRecord, t': Table, c: seq<Epoch>)
    requires Good(t, c) && e in t.ledgers && LedgerEvolves(t.ledgers[e], r) && r.stage == t.ledgers[e].stage && Paired(r.bound)
    requires t' == t.(ledgers := t.ledgers[e := r])
    ensures Good(t', c) && TableEvolves(t, t')
  {
    LedgerMoved(t, e, r, t', c);
    DomainsSame(t.domains);
    CleanupsSame(t.cleanups);
    RestartsSame(t.restarts);
  }

  lemma BoundCleanup(r: CleanupRecord, b: Binding)
    requires CleanupRecordGood(r)
    requires b.BindDigest? ==> b.task !in r.bound.digests
    requires b.BindArn? ==> b.task !in r.bound.arns
    requires b.BindTarget? ==> r.bound.targetDigest.None? && r.bound.ruleDigest.None?
    requires b.BindIntent? ==> (b.kind, b.task) !in r.bound.plans && (b.kind, b.task) !in r.bound.attempts
                               && (b.kind == Candidate ==> b.plan == r.plan)
    ensures var r' := r.(bound := WithBinding(b, r.bound), revision := r.revision + 1);
            CleanupRecordGood(r') && CleanupEvolves(r, r')
  {
    BoundArtifacts(b, r.bound);
  }

  lemma BindCleanupStep(t: Table, e: Epoch, d: Domain, b: Binding, seen: BindingHolder, t': Table, c: seq<Epoch>)
    requires Good(t, c) && BindHolds(t, OnCleanup(e, d), b, seen) && t' == BindEffect(t, OnCleanup(e, d), b)
    ensures Good(t', c) && TableEvolves(t, t')
  {
    var k := (e, d);
    BoundCleanup(t.cleanups[k], b);
    CleanupWritten(t, k, t'.cleanups[k], t', c);
  }

  /** Writing one restart record touches nothing else. */
  lemma RestartWritten(t: Table, k: (Epoch, Provenance), r: RestartRecord, t': Table, c: seq<Epoch>)
    requires Good(t, c) && t' == t.(restarts := t.restarts[k := r])
    requires RestartGood(t.ledgers, k, r) && (k in t.restarts ==> RestartEvolves(t.restarts[k], r))
    ensures Good(t', c) && TableEvolves(t, t')
  {
    DomainsSame(t.domains);
    LedgersSame(t.ledgers);
    CleanupsSame(t.cleanups);
    OneRestartEvolves(t.restarts, k, r);
  }

  lemma PreRestartStep(t: Table, q: RestartRequest, existing: Option<RestartRecord>, t': Table, c: seq<Epoch>)
    requires Good(t, c) && PreRestartHolds(t, q, existing) && t' == PreRestartEffect(t, q, existing)
    requires q.control.epoch in t.ledgers && Rank(t.ledgers[q.control.epoch].stage) >= Rank(WorkerVerified)
    ensures Good(t', c) && TableEvolves(t, t')
  {
    var k := RestartKey(q.control, q.mode);
    RestartWritten(t, k, t'.restarts[k], t', c);
  }

  lemma PostRestartStep(t: Table, q: RestartRequest, item: RestartRecord, t': Table, c: seq<Epoch>)
    requires Good(t, c) && PostRestartHolds(t, q, item) && t' == PostRestartEffect(t, q)
    requires RestartEvolves(item, t.restarts[RestartKey(q.control, q.mode)])
    requires q.checkedAt > Max(item.afterCheckedAt, item.requestedAt)
    ensures Good(t', c) && TableEvolves(t, t')
  {
    var k := RestartKey(q.control, q.mode);
    assert RestartGood(t.ledgers, k, t.restarts[k]);
    RestartWritten(t, k, t'.restarts[k], t', c);
  }

  lemma ReconcileRestartStep(t: Table, q: RestartRequest, item: RestartRecord, t': Table, c: seq<Epoch>)
    requires Good(t, c) && ReconcileRestartHolds(t, q, item) && t' == ReconcileRestartEffect(t, q)
    ensures Good(t', c) && TableEvolves(t, t')
  {
    var k := RestartKey(q.control, q.mode);
    assert RestartGood(t.ledgers, k, t.restarts[k]);
    RestartWritten(t, k, t'.restarts[k], t', c);
  }

  lemma CheckpointRecordGood(t: Table, d: Domain, x: Expectation, seen: DomainRecord, now: int)
    requires d in t.domains && WindowGood(d, t.domains[d]) && DomainEvolves(seen, t.domains[d])
    requires Matches(d, x, seen) && CheckpointHolds(t, d, seen)
    ensures var r := CheckpointEffect(t, d, x, seen, now).domains[d]; WindowGood(d, r) && DomainEvolves(t.domains[d], r)
    ensures var r := CheckpointEffect(t, d, x, seen, now).domains[d];
            r.previousRetired && r.previous.None? ==> t.domains[d].previousRetired
  {
    assert ClockMoved(seen, t.domains[d]);
  }

  lemma CheckpointDomains(t: Table, d: Domain, x: Expectation, seen: DomainRecord, now: int, t': Table)
    requires WindowsGood(t.domains) && Matches(d, x, seen) && CheckpointHolds(t, d, seen)
    requires DomainEvolves(seen, t.domains[d]) && MailAction in t.domains && ReportLink in t.domains
    requires t' == CheckpointEffect(t, d, x, seen, now)
    ensures DomainsEvolve(t.domains, t'.domains) && WindowsGood(t'.domains)
    ensures WindowsStay(t.domains, t'.domains) && SameMarks(t.domains, t'.domains)
  {
    CheckpointRecordGood(t, d, x, seen, now);
  }

  lemma CheckpointStep(t: Table, d: Domain, x: Expectation, seen: DomainRecord, now: int, t': Table, c: seq<Epoch>)
    requires Good(t, c) && Matches(d, x, seen) && CheckpointHolds(t, d, seen)
    requires DomainEvolves(seen, t.domains[d])
    requires t' == CheckpointEffect(t, d, x, seen, now)
    ensures Good(t', c) && TableEvolves(t, t')
  {
    CheckpointDomains(t, d, x, seen, now, t');
    LedgersSame(t.ledgers);
    CleanupsSame(t.cleanups);
    RestartsSame(t.restarts);
    MarksKept(t.domains, t'.domains, t.cleanups, t.cleanups);
    ClosedKept(t.domains, t'.domains, t.retirements);
  }

}
