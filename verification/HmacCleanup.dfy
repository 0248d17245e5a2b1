/** The life of one cleanup, from authorization to its end, with any other actions in between. */
module HmacCleanup {
  import opened Optional
  import opened HmacKeyring
  import opened HmacTable
  import opened HmacRun
  import opened HmacInvariant
  import opened HmacRunGood
  import opened HmacWindow
  import opened HmacAtomic

  function AuthorizeKey(q: AuthorizeRequest): (Epoch, Domain) {
    (q.control.epoch, q.domain)
  }

  ghost predicate BothDomains(t: Table) {
    MailAction in t.domains && ReportLink in t.domains
  }

  // ---------------------------------------------------------------- what one commit writes

  /** Authorizing, in terms of the two DOMAIN records as they are at the commit. */
  ghost predicate AuthorizeWrote(q: AuthorizeRequest, a: Table, b: Table) {
    && BothDomains(a) && BothDomains(b)
    && AuthorizeKey(q) !in a.cleanups && AuthorizeKey(q) in b.cleanups
    && b.cleanups[AuthorizeKey(q)] == AuthorizedCleanup(q, Domains(a))
    && b.domains[MailAction] == AuthorizedDomain(q, MailAction, a.domains[MailAction], a.domains[MailAction])
    && b.domains[ReportLink] == AuthorizedDomain(q, ReportLink, a.domains[ReportLink], a.domains[ReportLink])
    && AuthorizeChecks(q, Domains(a))
  }

  lemma TryAuthorizeWrites(t: Table, q: AuthorizeRequest, t': Table)
    requires BothDomains(t) && TryAuthorize(t, q, Domains(t)) == Some(t')
    ensures AuthorizeWrote(q, t, t')
  {
  }

  lemma AuthorizeWritesNow(h: History, op: Op, t': Table)
    requires op.Authorize? && Reaches(h) && NextAuthorize(h, op) == Some(t')
    ensures AuthorizeWrote(op.auth, Last(h), t')
  {
    var seen := DomainsAt(h, op.at).value;
    DomainsSeen(h, op.at);
    AuthorizeCommits(h, op, seen);
    TryAuthorizeStays(Last(h), op.auth, seen);
    TryAuthorizeWrites(Last(h), op.auth, t');
  }

  lemma AuthorizeWrites(h: seq<Table>, ops: seq<Op>, i: nat)
    requires Run(h, ops) && i < |ops| && ops[i].Authorize?
    ensures AuthorizeWrote(ops[i].auth, h[i], h[i + 1])
  {
    Committed(h, ops, i);
    AuthorizeWritesNow(h[..i + 1], ops[i], h[i + 1]);
  }

  /** Completing, in terms of the cleanup and DOMAIN records it finds. */
  ghost predicate CompleteWrote(q: CompleteRequest, a: Table, b: Table) {
    var k := (q.control.epoch, q.domain);
    && BothDomains(a) && k in a.cleanups && CompleteHolds(a, q, a.cleanups[k], Domains(a))
    && var r := a.domains[q.domain];
       && r.previous.Some? && r.t0.Some? && r.deadline.Some?
       && a.cleanups[k].proposed.At(q.domain) == Config(r.primary, None, None)
       && b == CompleteEffect(a, q, a.cleanups[k], r)
  }

  lemma TryCompleteWrites(
    t: Table, q: CompleteRequest, ledger: LedgerRecord, restart: RestartRecord, t': Table, k: (Epoch, Domain))
    requires BothDomains(t) && k == (q.control.epoch, q.domain) && k in t.cleanups
    requires TryComplete(t, q, ledger, t.cleanups[k], restart, Domains(t)) == Some(t')
    ensures CompleteWrote(q, t, t')
  {
  }

  lemma CompleteWritesNow(h: History, op: Op, t': Table)
    requires op.Complete? && Reaches(h) && NextComplete(h, op) == Some(t')
    ensures CompleteWrote(op.done, Last(h), t')
  {
    var q, k := op.done, (op.done.control.epoch, op.done.domain);
    CleanupSeen(h, op.atCleanup, q.control.epoch, q.domain);
    LedgerSeen(h, op.atLedger, q.control.epoch);
    DomainsSeen(h, op.at);
    var ledger := LedgerAt(h, op.atLedger, q.control.epoch).value;
    var restart := RestartAt(h, op.atRestart, RestartKey(q.control, q.restartMode)).value;
    TryCompleteStays(Last(h), q, ledger, ledger, CleanupAt(h, op.atCleanup, q.control.epoch, q.domain).value, restart,
                     DomainsAt(h, op.at).value);
    TryCompleteWrites(Last(h), q, ledger, restart, t', k);
  }

  lemma CompleteWrites(h: seq<Table>, ops: seq<Op>, j: nat)
    requires Run(h, ops) && j < |ops| && ops[j].Complete?
    ensures CompleteWrote(ops[j].done, h[j], h[j + 1])
  {
    Committed(h, ops, j);
    CompleteWritesNow(h[..j + 1], ops[j], h[j + 1]);
  }

  /** Aborting, in terms of the cleanup and DOMAIN records it finds. */
  ghost predicate AbortWrote(q: ReconcileRequest, a: Table, b: Table) {
    var k := (q.control.epoch, q.domain);
    && BothDomains(a) && k in a.cleanups && a.cleanups[k].stage == Authorized
    && k in b.cleanups && b.cleanups[k].stage == Aborted
    && a.domains[MailAction].issuers == a.cleanups[k].baselineIssuers.mail + a.cleanups[k].newIssuers.mail
    && a.domains[ReportLink].issuers == a.cleanups[k].baselineIssuers.report + a.cleanups[k].newIssuers.report
    && b.domains == a.domains[MailAction := AbortedDomain(q, MailAction, a.cleanups[k], a.domains[MailAction])]
                             [ReportLink := AbortedDomain(q, ReportLink, a.cleanups[k], a.domains[ReportLink])]
  }

  lemma AbortWritesNow(h: History, op: Op, t': Table)
    requires op.Abort? && Reaches(h) && NextAbort(h, op) == Some(t')
    ensures AbortWrote(op.rec, Last(h), t')
  {
    CleanupSeen(h, op.atCleanup, op.rec.control.epoch, op.rec.domain);
  }

  lemma AbortWrites(h: seq<Table>, ops: seq<Op>, j: nat)
    requires Run(h, ops) && j < |ops| && ops[j].Abort?
    ensures AbortWrote(ops[j].rec, h[j], h[j + 1])
  {
    Committed(h, ops, j);
    AbortWritesNow(h[..j + 1], ops[j], h[j + 1]);
  }

  // ---------------------------------------------------------------- two commits of one run

  lemma CleanupKept(h: seq<Table>, ops: seq<Op>, i: nat, j: nat, k: (Epoch, Domain))
    requires Run(h, ops) && i <= j < |h| && k in h[i].cleanups
    ensures k in h[j].cleanups && CleanupEvolves(h[i].cleanups[k], h[j].cleanups[k])
  {
    StatesEvolve(h, ops, i, j);
  }

  /** Each (epoch, domain) is authorized at most once in a run, also after an abort. */
  lemma AuthorizedOnce(h: seq<Table>, ops: seq<Op>, i: nat, j: nat)
    requires Run(h, ops) && i < j < |ops| && ops[i].Authorize? && ops[j].Authorize?
    ensures AuthorizeKey(ops[i].auth) != AuthorizeKey(ops[j].auth)
  {
    var k := AuthorizeKey(ops[i].auth);
    assert k in h[i + 1].cleanups by { AuthorizeWrites(h, ops, i); }
    assert AuthorizeKey(ops[j].auth) !in h[j].cleanups by { AuthorizeWrites(h, ops, j); }
    CleanupKept(h, ops, i + 1, j, k);
  }

  /** The target keeps its epoch's primary and nothing of its window. */
  predicate WindowGone(before: DomainRecord, after: DomainRecord) {
    && after.previous.None? && after.t0.None? && after.deadline.None? && after.legacyWorker.None?
    && after.previousRetired && !after.cleanupAuthorized
    && Retirees(before) <= after.retiredGenerations
  }

  /** Exactly the new provenances issue, exactly the displaced ones were retired. */
  ghost predicate CompletedAs(q: AuthorizeRequest, before: DomainRecord, last: DomainRecord, after: DomainRecord, d: Domain) {
    && after.issuers == Issuers(q.control).At(d)
    && after.retiredProvenances == last.retiredProvenances + (before.issuers - Issuers(q.control).At(d))
    && (d == q.domain ==> WindowGone(before, after))
  }

  /** The issuers are as they were and none was retired; the expired generations stay retired. */
  ghost predicate AbortedAs(q: AuthorizeRequest, before: DomainRecord, last: DomainRecord, after: DomainRecord, d: Domain) {
    && after.issuers == before.issuers
    && after.retiredProvenances == last.retiredProvenances
    && (d == q.domain ==> !after.cleanupAuthorized && Retirees(before) <= after.retiredGenerations)
  }

  lemma CompleteOutcome(q: AuthorizeRequest, a: Table, a': Table, r: CompleteRequest, b: Table, b': Table, d: Domain)
    requires AuthorizeWrote(q, a, a') && CompleteWrote(r, b, b') && AuthorizeKey(q) == (r.control.epoch, r.domain)
    requires CleanupsEvolve(a'.cleanups, b.cleanups)
    requires DomainsEvolve(a'.domains, b'.domains)
    ensures d in a.domains && d in b.domains && d in b'.domains
    ensures CompletedAs(q, a.domains[d], b.domains[d], b'.domains[d], d)
  {
    match d { case MailAction => case ReportLink => }
    assert CleanupEvolves(a'.cleanups[AuthorizeKey(q)], b.cleanups[AuthorizeKey(q)]);
    assert DomainEvolves(a'.domains[d], b'.domains[d]);
  }

  lemma AbortOutcome(q: AuthorizeRequest, a: Table, a': Table, r: ReconcileRequest, b: Table, b': Table, d: Domain)
    requires AuthorizeWrote(q, a, a') && AbortWrote(r, b, b') && AuthorizeKey(q) == (r.control.epoch, r.domain)
    requires CleanupsEvolve(a'.cleanups, b.cleanups)
    requires DomainsEvolve(a'.domains, b'.domains)
    ensures d in a.domains && d in b.domains && d in b'.domains
    ensures AbortedAs(q, a.domains[d], b.domains[d], b'.domains[d], d)
  {
    match d { case MailAction => case ReportLink => }
    assert CleanupEvolves(a'.cleanups[AuthorizeKey(q)], b.cleanups[AuthorizeKey(q)]);
    assert DomainEvolves(a'.domains[d], b'.domains[d]);
  }

  /** What holds between the table after commit `i` and the two tables around commit `j`. */
  lemma KeptBetween(h: seq<Table>, ops: seq<Op>, i: nat, j: nat)
    requires Run(h, ops) && i < j < |ops|
    ensures CleanupsEvolve(h[i + 1].cleanups, h[j].cleanups) && DomainsEvolve(h[i + 1].domains, h[j + 1].domains)
  {
    StatesEvolve(h, ops, i + 1, j);
    StatesEvolve(h, ops, i + 1, j + 1);
  }

  lemma BothWrote(h: seq<Table>, ops: seq<Op>, i: nat, j: nat)
    requires Run(h, ops) && i < |ops| && j < |ops| && ops[i].Authorize?
    ensures AuthorizeWrote(ops[i].auth, h[i], h[i + 1])
    ensures ops[j].Complete? ==> CompleteWrote(ops[j].done, h[j], h[j + 1])
    ensures ops[j].Abort? ==> AbortWrote(ops[j].rec, h[j], h[j + 1])
  {
    AuthorizeWrites(h, ops, i);
    if ops[j].Complete? {
      CompleteWrites(h, ops, j);
    } else if ops[j].Abort? {
      AbortWrites(h, ops, j);
    }
  }

  /** Authorize ... complete, whatever else happens in between. */
  lemma AuthorizeThenComplete(h: seq<Table>, ops: seq<Op>, i: nat, j: nat, d: Domain)
    requires Run(h, ops) && i < j < |ops| && ops[i].Authorize? && ops[j].Complete?
    requires AuthorizeKey(ops[i].auth) == (ops[j].done.control.epoch, ops[j].done.domain)
    ensures d in h[i].domains && d in h[j].domains && d in h[j + 1].domains
    ensures CompletedAs(ops[i].auth, h[i].domains[d], h[j].domains[d], h[j + 1].domains[d], d)
  {
    BothWrote(h, ops, i, j);
    KeptBetween(h, ops, i, j);
    CompleteOutcome(ops[i].auth, h[i], h[i + 1], ops[j].done, h[j], h[j + 1], d);
  }

  /** Authorize ... abort, whatever else happens in between. */
  lemma AuthorizeThenAbort(h: seq<Table>, ops: seq<Op>, i: nat, j: nat, d: Domain)
    requires Run(h, ops) && i < j < |ops| && ops[i].Authorize? && ops[j].Abort?
    requires AuthorizeKey(ops[i].auth) == (ops[j].rec.control.epoch, ops[j].rec.domain)
    ensures d in h[i].domains && d in h[j].domains && d in h[j + 1].domains
    ensures AbortedAs(ops[i].auth, h[i].domains[d], h[j].domains[d], h[j + 1].domains[d], d)
  {
    BothWrote(h, ops, i, j);
    KeptBetween(h, ops, i, j);
    AbortOutcome(ops[i].auth, h[i], h[i + 1], ops[j].rec, h[j], h[j + 1], d);
  }

  predicate NamesWindow(x: RetirementRecord, r: DomainRecord) {
    && r.previous == Some(x.previous) && r.t0 == Some(x.t0) && r.deadline == Some(x.deadline)
    && r.legacyWorker == x.legacyWorker && r.primary == x.primary
  }

  lemma RetirementOutcome(q: AuthorizeRequest, a: Table, a': Table, r: CompleteRequest, b: Table, b': Table)
    requires AuthorizeWrote(q, a, a') && CompleteWrote(r, b, b') && AuthorizeKey(q) == (r.control.epoch, r.domain)
    requires WindowMoves(a.domains[q.domain], b.domains[q.domain], a.ledgers.Keys)
    ensures (q.domain, q.control.epoch) in b'.retirements
    ensures NamesWindow(b'.retirements[(q.domain, q.control.epoch)], a.domains[q.domain])
  {
  }

  /** The record a finished cleanup leaves names the window it found when it was authorized. */
  lemma RetirementNamesWindow(h: seq<Table>, ops: seq<Op>, i: nat, j: nat)
    requires Run(h, ops) && i < j < |ops| && ops[i].Authorize? && ops[j].Complete?
    requires AuthorizeKey(ops[i].auth) == (ops[j].done.control.epoch, ops[j].done.domain)
    ensures ops[i].auth.domain in h[i].domains
    ensures (ops[i].auth.domain, ops[i].auth.control.epoch) in h[j + 1].retirements
    ensures NamesWindow(h[j + 1].retirements[(ops[i].auth.domain, ops[i].auth.control.epoch)], h[i].domains[ops[i].auth.domain])
  {
    AuthorizeWrites(h, ops, i);
    CompleteWrites(h, ops, j);
    StatesMove(h, ops, i, j);
    RetirementOutcome(ops[i].auth, h[i], h[i + 1], ops[j].done, h[j], h[j + 1]);
  }

  ghost predicate ThroughRebinds(a: CleanupRecord, b: CleanupRecord) {
    && ArtifactsKept(a.bound, b.bound)
    && (forall task: Workload :: task in a.bound.digests)
    && (forall task: Workload :: (Candidate, task) in b.bound.plans ==> b.bound.plans[(Candidate, task)] == b.plan)
    && b.bound.plans.Keys == b.bound.attempts.Keys
    && (a.stage != Authorized ==> b.stage == a.stage)
    && a.oldIssuers == b.oldIssuers && a.newIssuers == b.newIssuers && a.baselineIssuers == b.baselineIssuers
  }

  /** Rebinding any number of times: artifacts once written stay, every bound candidate plan is the
      plan now prepared, plan and attempt come in pairs, and an ended cleanup stays ended. */
  lemma CleanupThroughRebinds(h: seq<Table>, ops: seq<Op>, i: nat, j: nat, k: (Epoch, Domain))
    requires Run(h, ops) && i <= j < |h| && k in h[i].cleanups
    ensures k in h[j].cleanups && ThroughRebinds(h[i].cleanups[k], h[j].cleanups[k])
  {
    CleanupKept(h, ops, i, j, k);
    CleanupGoodAt(h, ops, i, k);
    CleanupGoodAt(h, ops, j, k);
  }

  lemma CleanupGoodAt(h: seq<Table>, ops: seq<Op>, i: nat, k: (Epoch, Domain))
    requires Run(h, ops) && i < |h| && k in h[i].cleanups
    ensures CleanupRecordGood(h[i].cleanups[k])
  {
    StateGood(h, ops, i);
  }
}
