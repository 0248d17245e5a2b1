/** Optimistic concurrency pays off: an action that read its records long ago and commits now does
    what it would have done had it read, at the commit point, every record its transaction tests. */
module HmacAtomic {
  import opened Optional
  import opened HmacKeyring
  import opened HmacTable
  import opened HmacRun
  import opened HmacInvariant
  import opened HmacRunGood
  import opened HmacWindow

  /** The same action with the records its transaction tests read at position `n`. Evidence that no
      transaction tests (guards, completed restarts, the other domain's expiry) keeps its position. */
  function Reread(op: Op, n: nat): Op {
    match op
    case Initialize(q, _, _) => Initialize(q, Both(n, n), n)
    case Advance(q, _, _, mode, plan, attempt, _, atRestart) => Advance(q, n, Both(n, n), mode, plan, attempt, n, atRestart)
    case Authorize(q, _, atGuards, atOther, _) => Authorize(q, n, atGuards, atOther, Both(n, n))
    case Abort(q, _, _, _, _) => Abort(q, n, n, n, Both(n, n))
    case Rebind(q, _, _, _, _) => Rebind(q, n, n, n, n)
    case Complete(q, _, _, atRestart, _) => Complete(q, n, n, atRestart, Both(n, n))
    case Bind(x, b, atBefore, _) => Bind(x, b, atBefore, n)
    case PreRestart(q, _, atGuards, atBound, _) => PreRestart(q, n, atGuards, atBound, n)
    case PostRestart(q, atGuards, atBound, _) => PostRestart(q, atGuards, atBound, n)
    case ReconcileRestart(q, _) => ReconcileRestart(q, n)
    case Checkpoint(d, x, now, _) => Checkpoint(d, x, now, n)
    case IntentWrite(id, rec) => IntentWrite(id, rec)
  }

  /** No ABA, DOMAIN records: an unchanged revision leaves only the runtime's clock fields free, and
      an unchanged clock revision leaves none. Any state of a run and any later one are compared. */
  lemma DomainNoAba(h: seq<Table>, ops: seq<Op>, i: nat, j: nat, d: Domain)
    requires Run(h, ops) && i <= j < |h| && d in h[i].domains
    ensures d in h[j].domains
    ensures h[j].domains[d].revision == h[i].domains[d].revision ==> ClockMoved(h[i].domains[d], h[j].domains[d])
    ensures (h[j].domains[d].revision == h[i].domains[d].revision
             && h[j].domains[d].clockRevision == h[i].domains[d].clockRevision) ==> h[j].domains[d] == h[i].domains[d]
  {
    StatesEvolve(h, ops, i, j);
    assert DomainEvolves(h[i].domains[d], h[j].domains[d]);
  }

  /** No ABA, LEDGER, CLEANUP and RESTART records: an unchanged revision is an unchanged record. */
  lemma RecordNoAba(h: seq<Table>, ops: seq<Op>, i: nat, j: nat)
    requires Run(h, ops) && i <= j < |h|
    ensures forall e <- h[i].ledgers :: e in h[j].ledgers
              && (h[j].ledgers[e].revision == h[i].ledgers[e].revision ==> h[j].ledgers[e] == h[i].ledgers[e])
    ensures forall k <- h[i].cleanups :: k in h[j].cleanups
              && (h[j].cleanups[k].revision == h[i].cleanups[k].revision ==> h[j].cleanups[k] == h[i].cleanups[k])
    ensures forall k <- h[i].restarts :: k in h[j].restarts
              && (h[j].restarts[k].revision == h[i].restarts[k].revision ==> h[j].restarts[k] == h[i].restarts[k])
  {
    StatesEvolve(h, ops, i, j);
    LedgerNoAba(h[i].ledgers, h[j].ledgers);
    CleanupNoAba(h[i].cleanups, h[j].cleanups);
    RestartNoAba(h[i].restarts, h[j].restarts);
  }

  lemma LedgerNoAba(a: map<Epoch, LedgerRecord>, b: map<Epoch, LedgerRecord>)
    requires LedgersEvolve(a, b)
    ensures forall e <- a :: e in b && (b[e].revision == a[e].revision ==> b[e] == a[e])
  {
    forall e <- a
      ensures e in b && (b[e].revision == a[e].revision ==> b[e] == a[e])
    {
      assert LedgerEvolves(a[e], b[e]);
    }
  }

  lemma CleanupNoAba(a: map<(Epoch, Domain), CleanupRecord>, b: map<(Epoch, Domain), CleanupRecord>)
    requires CleanupsEvolve(a, b)
    ensures forall k <- a :: k in b && (b[k].revision == a[k].revision ==> b[k] == a[k])
  {
    forall k <- a
      ensures k in b && (b[k].revision == a[k].revision ==> b[k] == a[k])
    {
      assert CleanupEvolves(a[k], b[k]);
    }
  }

  lemma RestartNoAba(a: map<(Epoch, Provenance), RestartRecord>, b: map<(Epoch, Provenance), RestartRecord>)
    requires RestartsEvolve(a, b)
    ensures forall k <- a :: k in b && (b[k].revision == a[k].revision ==> b[k] == a[k])
  {
    forall k <- a
      ensures k in b && (b[k].revision == a[k].revision ==> b[k] == a[k])
    {
      assert RestartEvolves(a[k], b[k]);
    }
  }

  // ------------------------------------------------- one lemma per action

  /** The tables differ at most in clock readings an initialization copies into its new records. */
  predicate SameUpToReadings(a: Table, b: Table) {
    && a == b.(ledgers := a.ledgers, histories := a.histories)
    && a.ledgers.Keys == b.ledgers.Keys && a.histories.Keys == b.histories.Keys
    && (forall e <- a.ledgers :: a.ledgers[e] == b.ledgers[e].(updatedAt := a.ledgers[e].updatedAt))
    && (forall k <- a.histories ::
          a.histories[k] == b.histories[k].(closedAt := a.histories[k].closedAt,
            clockRevision := a.histories[k].clockRevision, highWater := a.histories[k].highWater))
  }

  lemma SameAsItself(t: Table)
    ensures SameUpToReadings(t, t)
  {
  }

  lemma ReadyStays(d: Domain, q: InitializeRequest, seen: DomainRecord, r: DomainRecord)
    requires ReadyForNextEpoch(d, q, seen) && ClockMoved(seen, r)
    ensures ReadyForNextEpoch(d, q, r)
    ensures r == seen.(clockRevision := r.clockRevision, highWater := r.highWater)
  {
  }

  lemma NextEpochAtomic(t: Table, q: InitializeRequest, seen: Both<DomainRecord>, prior: Option<LedgerRecord>)
    requires SeenBefore(t, seen) && NextEpochChecks(q, seen, prior) && NextEpochHolds(t, q, seen)
    ensures var now := Both(t.domains[MailAction], t.domains[ReportLink]);
            && NextEpochChecks(q, now, Find(t.ledgers, now.mail.epoch)) && NextEpochHolds(t, q, now)
            && SameUpToReadings(NextEpochEffect(t, q, seen), NextEpochEffect(t, q, now))
  {
    ReadyStays(MailAction, q, seen.mail, t.domains[MailAction]);
    ReadyStays(ReportLink, q, seen.report, t.domains[ReportLink]);
  }

  /** The two DOMAIN records of a table. */
  function Domains(t: Table): Both<DomainRecord>
    requires MailAction in t.domains && ReportLink in t.domains
  {
    Both(t.domains[MailAction], t.domains[ReportLink])
  }

  lemma DomainsNow(h: History)
    requires MailAction in Last(h).domains && ReportLink in Last(h).domains
    ensures DomainsAt(h, Both(|h| - 1, |h| - 1)) == Some(Domains(Last(h)))
  {
  }

  lemma TryInitializeStays(t: Table, q: InitializeRequest, seen: Both<DomainRecord>, prior: Option<LedgerRecord>, t': Table)
    requires TryInitialize(t, q, Both(Some(seen.mail), Some(seen.report)), prior) == Some(t') && SeenBefore(t, seen)
    ensures var r := TryInitialize(t, q, Both(Some(t.domains[MailAction]), Some(t.domains[ReportLink])),
                                   Find(t.ledgers, t.domains[MailAction].epoch));
            r.Some? && SameUpToReadings(t', r.value)
  {
    NextEpochAtomic(t, q, seen, prior);
  }

  /** Without DOMAIN records at the time of reading there are none at the commit. */
  lemma FirstInitializeAtomic(h: History, op: Op, t': Table)
    requires op.Initialize? && NextInitialize(h, op) == Some(t')
    requires DomainAt(h, op.at.mail, MailAction).None? || DomainAt(h, op.at.report, ReportLink).None?
    ensures NextInitialize(h, Reread(op, |h| - 1)) == Some(t')
  {
    assert FirstEpochHolds(Last(h), op.init);
  }

  lemma InitializeTested(h: History, op: Op, t': Table, seen: Both<DomainRecord>)
    requires op.Initialize? && NextInitialize(h, op) == Some(t') && DomainsAt(h, op.at) == Some(seen)
    ensures TryInitialize(Last(h), op.init, Both(Some(seen.mail), Some(seen.report)),
                          LedgerAt(h, op.atLedger, seen.mail.epoch)) == Some(t')
  {
  }

  lemma InitializeReread(h: History, op: Op, now: Both<DomainRecord>, r: Option<Table>)
    requires op.Initialize? && DomainsAt(h, Both(|h| - 1, |h| - 1)) == Some(now)
    requires TryInitialize(Last(h), op.init, Both(Some(now.mail), Some(now.report)), Find(Last(h).ledgers, now.mail.epoch)) == r
    ensures NextInitialize(h, Reread(op, |h| - 1)) == r
  {
    assert LedgerAt(h, |h| - 1, now.mail.epoch) == Find(Last(h).ledgers, now.mail.epoch);
  }

  lemma NextInitializeAtomic(h: History, op: Op, t': Table, seen: Both<DomainRecord>)
    requires op.Initialize? && Reaches(h) && NextInitialize(h, op) == Some(t')
    requires DomainsAt(h, op.at) == Some(seen)
    ensures var r := NextInitialize(h, Reread(op, |h| - 1)); r.Some? && SameUpToReadings(t', r.value)
  {
    var q := op.init;
    DomainsSeen(h, op.at);
    InitializeTested(h, op, t', seen);
    TryInitializeStays(Last(h), q, seen, LedgerAt(h, op.atLedger, seen.mail.epoch), t');
    DomainsNow(h);
    var now := Domains(Last(h));
    InitializeReread(h, op, now, TryInitialize(Last(h), q, Both(Some(now.mail), Some(now.report)),
                                               Find(Last(h).ledgers, now.mail.epoch)));
  }

  lemma InitializeAtomic(h: History, op: Op, t': Table)
    requires op.Initialize? && Reaches(h) && NextInitialize(h, op) == Some(t')
    ensures var r := NextInitialize(h, Reread(op, |h| - 1)); r.Some? && SameUpToReadings(t', r.value)
  {
    var mail, report := DomainAt(h, op.at.mail, MailAction), DomainAt(h, op.at.report, ReportLink);
    if mail.None? || report.None? {
      FirstInitializeAtomic(h, op, t');
      SameAsItself(t');
    } else {
      NextInitializeAtomic(h, op, t', Both(mail.value, report.value));
    }
  }

  /** Before its epoch completes, a domain's window is the one the cutover check read. */
  lemma CutoverStays(q: TransitionRequest, seen: Both<DomainRecord>, now: Both<DomainRecord>, d: Domain)
    requires CutoverOpen(q, seen, d) && WindowKept(seen.At(d), now.At(d)) && now.At(d).stage != RuntimeComplete
    requires now.At(d).epoch == q.control.epoch
    ensures CutoverOpen(q, now, d) && now.At(d).legacyWorker == seen.At(d).legacyWorker
  {
  }

  /** At one stage a ledger keeps the time it was moved there. */
  lemma ProofStays(h: History, op: Op)
    requires op.Advance? && Reaches(h) && op.move.target == McpStable && RestartProven(op.move, RestartProofAt(h, op))
    requires op.move.control.epoch in Last(h).ledgers && Last(h).ledgers[op.move.control.epoch].stage == WorkerVerified
    ensures RestartProven(op.move, RestartProofAt(h, Reread(op, |h| - 1)))
  {
    LedgerSeen(h, op.atFirst, op.move.control.epoch);
    var now := Last(h).ledgers[op.move.control.epoch];
    assert LedgerAt(h, |h| - 1, op.move.control.epoch) == Some(now);
    assert now.updatedAt == LedgerAt(h, op.atFirst, op.move.control.epoch).value.updatedAt;
  }

  lemma TryTransitionStays(
    t: Table, q: TransitionRequest, ledger: LedgerRecord, seen: Both<DomainRecord>, proof: Option<RestartProof>,
    proof': Option<RestartProof>)
    requires TryTransition(t, q, ledger, seen, proof).Some? && RestartProven(q, proof')
    requires TransitionChecks(q, t.ledgers[q.control.epoch], Domains(t))
    ensures TryTransition(t, q, t.ledgers[q.control.epoch], Domains(t), proof') == TryTransition(t, q, ledger, seen, proof)
  {
  }

  /** The transaction pins the ledger. */
  lemma AdvancePinned(h: History, op: Op, t': Table)
    requires op.Advance? && Reaches(h) && NextAdvance(h, op) == Some(t')
    ensures op.move.control.epoch in Last(h).ledgers
    ensures LedgerAt(h, op.atLedger, op.move.control.epoch) == Some(Last(h).ledgers[op.move.control.epoch])
  {
    LedgerSeen(h, op.atLedger, op.move.control.epoch);
  }

  /** The checks, asked of the records as they are at the commit. */
  lemma AdvanceChecks(q: TransitionRequest, ledger: LedgerRecord, seen: Both<DomainRecord>, now: Both<DomainRecord>)
    requires TransitionChecks(q, ledger, seen)
    requires now.mail.epoch == q.control.epoch && now.report.epoch == q.control.epoch
    requires now.mail.stage != RuntimeComplete && now.report.stage != RuntimeComplete
    requires WindowKept(seen.mail, now.mail) && WindowKept(seen.report, now.report)
    ensures TransitionChecks(q, ledger, now)
  {
    CutoverStays(q, seen, now, MailAction);
    CutoverStays(q, seen, now, ReportLink);
  }

  lemma AdvanceReread(
    h: History, op: Op, t': Table, ledger: LedgerRecord, now: Both<DomainRecord>, proof: Option<RestartProof>)
    requires op.Advance? && LedgerAt(h, |h| - 1, op.move.control.epoch) == Some(ledger)
    requires DomainsAt(h, Both(|h| - 1, |h| - 1)) == Some(now) && proof == RestartProofAt(h, Reread(op, |h| - 1))
    requires TryTransition(Last(h), op.move, ledger, now, proof) == Some(t')
    ensures NextAdvance(h, Reread(op, |h| - 1)) == Some(t')
  {
  }

  /** The windows read are the windows kept. */
  lemma WindowsRead(h: History, at: Both<nat>, seen: Both<DomainRecord>, e: Epoch)
    requires DomainsAt(h, at) == Some(seen) && forall k :: 0 <= k < |h| ==> WindowsMove(h[k], Last(h))
    requires Lockstep(Last(h).domains, Last(h).ledgers, e) && seen.mail.epoch == e && seen.report.epoch == e
    ensures WindowKept(seen.mail, Last(h).domains[MailAction]) && WindowKept(seen.report, Last(h).domains[ReportLink])
  {
    assert WindowsMove(h[at.mail], Last(h)) && WindowsMove(h[at.report], Last(h));
  }

  lemma AdvanceTested(h: History, op: Op, t': Table, ledger: LedgerRecord, seen: Both<DomainRecord>)
    requires op.Advance? && NextAdvance(h, op) == Some(t')
    requires LedgerAt(h, op.atLedger, op.move.control.epoch) == Some(ledger) && DomainsAt(h, op.at) == Some(seen)
    ensures TryTransition(Last(h), op.move, ledger, seen, RestartProofAt(h, op)) == Some(t')
    ensures TransitionChecks(op.move, ledger, seen) && ledger.stage != LedgerComplete
    ensures RestartProven(op.move, RestartProofAt(h, op))
  {
  }

  lemma ProofKept(h: History, op: Op, ledger: LedgerRecord)
    requires op.Advance? && Reaches(h) && RestartProven(op.move, RestartProofAt(h, op))
    requires op.move.control.epoch in Last(h).ledgers && Last(h).ledgers[op.move.control.epoch] == ledger
    requires op.move.target != Initialized && ledger.stage == ExpectedStage(op.move.target)
    ensures RestartProven(op.move, RestartProofAt(h, Reread(op, |h| - 1)))
  {
    if op.move.target == McpStable {
      ProofStays(h, op);
    }
  }

  lemma AdvanceAtomic(h: History, op: Op, t': Table)
    requires op.Advance? && Reaches(h) && NextAdvance(h, op) == Some(t')
    requires forall k :: 0 <= k < |h| ==> WindowsMove(h[k], Last(h))
    requires Lockstep(Last(h).domains, Last(h).ledgers, op.move.control.epoch)
    ensures NextAdvance(h, Reread(op, |h| - 1)) == Some(t')
  {
    var e := op.move.control.epoch;
    AdvancePinned(h, op, t');
    DomainsNow(h);
    var ledger, seen, now := Last(h).ledgers[e], DomainsAt(h, op.at).value, Domains(Last(h));
    var proof' := RestartProofAt(h, Reread(op, |h| - 1));
    AdvanceTested(h, op, t', ledger, seen);
    WindowsRead(h, op.at, seen, e);
    AdvanceChecks(op.move, ledger, seen, now);
    ProofKept(h, op, ledger);
    TryTransitionStays(Last(h), op.move, ledger, seen, RestartProofAt(h, op), proof');
    AdvanceReread(h, op, t', ledger, now, proof');
  }

  lemma AuthorizeStays(q: AuthorizeRequest, d: Domain, seen: DomainRecord, r: DomainRecord)
    requires ClockMoved(seen, r) && AuthorizeDomainChecks(q, d, seen)
    ensures AuthorizeDomainChecks(q, d, r) && Retirees(r) == Retirees(seen)
  {
  }

  lemma TryAuthorizeStays(t: Table, q: AuthorizeRequest, seen: Both<DomainRecord>)
    requires SeenBefore(t, seen) && TryAuthorize(t, q, seen).Some?
    ensures TryAuthorize(t, q, Domains(t)) == TryAuthorize(t, q, seen)
  {
    AuthorizeStays(q, MailAction, seen.mail, t.domains[MailAction]);
    AuthorizeStays(q, ReportLink, seen.report, t.domains[ReportLink]);
  }

  /** A completed ledger stays completed. */
  lemma GuardStays(h: History, q: AuthorizeRequest, atGuard: nat, atGuards: Both<nat>)
    requires Reaches(h) && GuardPassed(h, q, atGuard, atGuards)
    ensures GuardPassed(h, q, |h| - 1, atGuards)
  {
    LedgerSeen(h, atGuard, q.control.epoch);
  }

  lemma AuthorizeCommits(h: History, op: Op, seen: Both<DomainRecord>)
    requires op.Authorize? && DomainsAt(h, op.at) == Some(seen)
    ensures GuardPassed(h, op.auth, op.atGuard, op.atGuards) && ManifestPassed(h, op.auth, op.atOther) ==>
              NextAuthorize(h, op) == TryAuthorize(Last(h), op.auth, seen)
    ensures NextAuthorize(h, op).Some? ==>
              GuardPassed(h, op.auth, op.atGuard, op.atGuards) && ManifestPassed(h, op.auth, op.atOther)
  {
  }

  lemma AuthorizeReread(h: History, op: Op, now: Both<DomainRecord>, t': Table)
    requires op.Authorize? && DomainsAt(h, Both(|h| - 1, |h| - 1)) == Some(now)
    requires GuardPassed(h, op.auth, |h| - 1, op.atGuards) && ManifestPassed(h, op.auth, op.atOther)
    requires TryAuthorize(Last(h), op.auth, now) == Some(t')
    ensures NextAuthorize(h, Reread(op, |h| - 1)) == Some(t')
  {
    AuthorizeCommits(h, Reread(op, |h| - 1), now);
  }

  lemma AuthorizeAtomic(h: History, op: Op, t': Table)
    requires op.Authorize? && Reaches(h) && NextAuthorize(h, op) == Some(t')
    ensures NextAuthorize(h, Reread(op, |h| - 1)) == Some(t')
  {
    var seen := DomainsAt(h, op.at).value;
    DomainsSeen(h, op.at);
    AuthorizeCommits(h, op, seen);
    GuardStays(h, op.auth, op.atGuard, op.atGuards);
    TryAuthorizeStays(Last(h), op.auth, seen);
    DomainsNow(h);
    AuthorizeReread(h, op, Domains(Last(h)), t');
  }

  /** What the reconciler's transaction tests pins the restart record it had read. */
  lemma WorkerPinned(h: History, k: nat, c: Control)
    requires Reaches(h) && k < |h| && WorkerUnmoved(Last(h), c, RestartAt(h, k, RestartKey(c, CleanupMode)))
    ensures RestartAt(h, |h| - 1, RestartKey(c, CleanupMode)) == RestartAt(h, k, RestartKey(c, CleanupMode))
  {
    if RestartAt(h, k, RestartKey(c, CleanupMode)).Some? {
      RestartSeen(h, k, RestartKey(c, CleanupMode));
    }
  }

  lemma TryAbortStays(
    t: Table, q: ReconcileRequest, cleanup: CleanupRecord, restart: Option<RestartRecord>, intent: Option<IntentRecord>,
    seen: Both<DomainRecord>)
    requires TryAbort(t, q, cleanup, restart, intent, seen).Some?
    ensures MailAction in t.domains && ReportLink in t.domains
    ensures TryAbort(t, q, cleanup, restart, Find(t.intents, cleanup.intent), Domains(t))
            == TryAbort(t, q, cleanup, restart, intent, seen)
  {
  }

  /** The transaction pins the cleanup record as well. */
  lemma CleanupPinned(h: History, k: nat, e: Epoch, d: Domain, revision: nat)
    requires Reaches(h) && CleanupAt(h, k, e, d).Some? && CleanupAt(h, k, e, d).value.revision == revision
    requires (e, d) in Last(h).cleanups ==> Last(h).cleanups[(e, d)].revision == revision
    ensures CleanupAt(h, |h| - 1, e, d) == CleanupAt(h, k, e, d)
  {
    CleanupSeen(h, k, e, d);
  }

  lemma AbortAtomic(h: History, op: Op, t': Table)
    requires op.Abort? && Reaches(h) && NextAbort(h, op) == Some(t')
    ensures NextAbort(h, Reread(op, |h| - 1)) == Some(t')
  {
    var q, n := op.rec, |h| - 1;
    var e, d, key := q.control.epoch, q.domain, RestartKey(q.control, CleanupMode);
    var cleanup, restart := CleanupAt(h, op.atCleanup, e, d).value, RestartAt(h, op.atRestart, key);
    var intent, seen := IntentAt(h, op.atIntent, cleanup.intent), DomainsAt(h, op.at).value;
    AbortTested(h, op, t', cleanup, restart, seen);
    WorkerPinned(h, op.atRestart, q.control);
    CleanupPinned(h, op.atCleanup, e, d, cleanup.revision);
    TryAbortStays(Last(h), q, cleanup, restart, intent, seen);
    DomainsNow(h);
    AbortReread(h, op, t', cleanup, restart);
  }

  lemma AbortTested(h: History, op: Op, t': Table, cleanup: CleanupRecord, restart: Option<RestartRecord>, seen: Both<DomainRecord>)
    requires op.Abort? && NextAbort(h, op) == Some(t')
    requires CleanupAt(h, op.atCleanup, op.rec.control.epoch, op.rec.domain) == Some(cleanup)
    requires restart == RestartAt(h, op.atRestart, RestartKey(op.rec.control, CleanupMode))
    requires DomainsAt(h, op.at) == Some(seen)
    ensures AbortHolds(Last(h), op.rec, cleanup, restart, seen) && op.atRestart < |h|
  {
  }

  lemma AbortReread(h: History, op: Op, t': Table, cleanup: CleanupRecord, restart: Option<RestartRecord>)
    requires op.Abort? && MailAction in Last(h).domains && ReportLink in Last(h).domains
    requires CleanupAt(h, |h| - 1, op.rec.control.epoch, op.rec.domain) == Some(cleanup)
    requires RestartAt(h, |h| - 1, RestartKey(op.rec.control, CleanupMode)) == restart
    requires DomainsAt(h, Both(|h| - 1, |h| - 1)) == Some(Domains(Last(h)))
    requires TryAbort(Last(h), op.rec, cleanup, restart, Find(Last(h).intents, cleanup.intent), Domains(Last(h))) == Some(t')
    ensures NextAbort(h, Reread(op, |h| - 1)) == Some(t')
  {
    assert IntentAt(h, |h| - 1, cleanup.intent) == Find(Last(h).intents, cleanup.intent);
  }

  lemma TryRebindStays(
    t: Table, q: ReconcileRequest, cleanup: CleanupRecord, restart: Option<RestartRecord>, intent: Option<IntentRecord>,
    successor: Option<IntentRecord>)
    requires TryRebind(t, q, cleanup, restart, intent, successor).Some?
    ensures TryRebind(t, q, cleanup, restart, Find(t.intents, cleanup.intent), Find(t.intents, q.freshIntent))
            == TryRebind(t, q, cleanup, restart, intent, successor)
  {
  }

  lemma RebindAtomic(h: History, op: Op, t': Table)
    requires op.Rebind? && Reaches(h) && NextRebind(h, op) == Some(t')
    ensures NextRebind(h, Reread(op, |h| - 1)) == Some(t')
  {
    var q := op.rec;
    var e, d, key := q.control.epoch, q.domain, RestartKey(q.control, CleanupMode);
    var cleanup, restart := CleanupAt(h, op.atCleanup, e, d).value, RestartAt(h, op.atRestart, key);
    RebindTested(h, op, t', cleanup, restart);
    WorkerPinned(h, op.atRestart, q.control);
    CleanupPinned(h, op.atCleanup, e, d, cleanup.revision);
    TryRebindStays(Last(h), q, cleanup, restart, IntentAt(h, op.atIntent, cleanup.intent), IntentAt(h, op.atFresh, q.freshIntent));
    RebindReread(h, op, t', cleanup, restart);
  }

  lemma RebindTested(h: History, op: Op, t': Table, cleanup: CleanupRecord, restart: Option<RestartRecord>)
    requires op.Rebind? && NextRebind(h, op) == Some(t')
    requires CleanupAt(h, op.atCleanup, op.rec.control.epoch, op.rec.domain) == Some(cleanup)
    requires restart == RestartAt(h, op.atRestart, RestartKey(op.rec.control, CleanupMode))
    ensures RebindHolds(Last(h), op.rec, cleanup, restart) && op.atRestart < |h|
  {
  }

  lemma RebindReread(h: History, op: Op, t': Table, cleanup: CleanupRecord, restart: Option<RestartRecord>)
    requires op.Rebind?
    requires CleanupAt(h, |h| - 1, op.rec.control.epoch, op.rec.domain) == Some(cleanup)
    requires RestartAt(h, |h| - 1, RestartKey(op.rec.control, CleanupMode)) == restart
    requires TryRebind(Last(h), op.rec, cleanup, restart, Find(Last(h).intents, cleanup.intent),
                       Find(Last(h).intents, op.rec.freshIntent)) == Some(t')
    ensures NextRebind(h, Reread(op, |h| - 1)) == Some(t')
  {
    assert IntentAt(h, |h| - 1, cleanup.intent) == Find(Last(h).intents, cleanup.intent);
    assert IntentAt(h, |h| - 1, op.rec.freshIntent) == Find(Last(h).intents, op.rec.freshIntent);
  }

  lemma TryCompleteStays(
    t: Table, q: CompleteRequest, ledger: LedgerRecord, ledger': LedgerRecord, cleanup: CleanupRecord,
    restart: RestartRecord, seen: Both<DomainRecord>)
    requires SeenBefore(t, seen) && TryComplete(t, q, ledger, cleanup, restart, seen).Some?
    requires ledger'.stage == LedgerComplete
    requires var k := (q.control.epoch, q.domain); k in t.cleanups && CleanupEvolves(cleanup, t.cleanups[k])
    ensures TryComplete(t, q, ledger', t.cleanups[(q.control.epoch, q.domain)], restart, Domains(t))
            == TryComplete(t, q, ledger, cleanup, restart, seen)
  {
    assert ClockMoved(seen.mail, t.domains[MailAction]) && ClockMoved(seen.report, t.domains[ReportLink]);
  }

  lemma CompleteTested(h: History, op: Op, t': Table, ledger: LedgerRecord)
    requires op.Complete? && NextComplete(h, op) == Some(t')
    requires LedgerAt(h, op.atLedger, op.done.control.epoch) == Some(ledger)
    ensures ledger.stage == LedgerComplete
  {
  }

  lemma CompleteReread(h: History, op: Op, t': Table, ledger: LedgerRecord, cleanup: CleanupRecord, restart: RestartRecord)
    requires op.Complete? && MailAction in Last(h).domains && ReportLink in Last(h).domains
    requires LedgerAt(h, |h| - 1, op.done.control.epoch) == Some(ledger)
    requires CleanupAt(h, |h| - 1, op.done.control.epoch, op.done.domain) == Some(cleanup)
    requires RestartAt(h, op.atRestart, RestartKey(op.done.control, op.done.restartMode)) == Some(restart)
    requires DomainsAt(h, Both(|h| - 1, |h| - 1)) == Some(Domains(Last(h)))
    requires TryComplete(Last(h), op.done, ledger, cleanup, restart, Domains(Last(h))) == Some(t')
    ensures NextComplete(h, Reread(op, |h| - 1)) == Some(t')
  {
  }

  lemma CompleteAtomic(h: History, op: Op, t': Table)
    requires op.Complete? && Reaches(h) && NextComplete(h, op) == Some(t')
    ensures NextComplete(h, Reread(op, |h| - 1)) == Some(t')
  {
    var q := op.done;
    var e, d := q.control.epoch, q.domain;
    LedgerSeen(h, op.atLedger, e);
    CleanupSeen(h, op.atCleanup, e, d);
    DomainsSeen(h, op.at);
    DomainsNow(h);
    var ledger, ledger' := LedgerAt(h, op.atLedger, e).value, Last(h).ledgers[e];
    var cleanup, restart := CleanupAt(h, op.atCleanup, e, d).value, RestartAt(h, op.atRestart, RestartKey(q.control, q.restartMode)).value;
    CompleteTested(h, op, t', ledger);
    TryCompleteStays(Last(h), q, ledger, ledger', cleanup, restart, DomainsAt(h, op.at).value);
    CompleteReread(h, op, t', ledger', Last(h).cleanups[(e, d)], restart);
  }

  /** An unchanged revision of the record a binding is written to means unchanged bindings. */
  lemma HolderPinned(h: History, k: nat, x: Target)
    requires Reaches(h) && HolderAt(h, k, x).Some?
    requires Holder(Last(h), x).Some? ==> Holder(Last(h), x).value.revision == HolderAt(h, k, x).value.revision
    ensures HolderAt(h, |h| - 1, x) == HolderAt(h, k, x)
  {
    match x {
      case OnLedger(e) => LedgerSeen(h, k, e);
      case OnCleanup(e, d) => CleanupSeen(h, k, e, d);
    }
  }

  lemma BindTested(h: History, op: Op, t': Table, seen: BindingHolder, before: BindingHolder)
    requires op.Bind? && NextBind(h, op) == Some(t')
    requires HolderAt(h, op.atHolder, op.target) == Some(seen) && HolderAt(h, op.atBefore, op.target) == Some(before)
    ensures Holder(Last(h), op.target).Some? && Holder(Last(h), op.target).value.revision == seen.revision
    ensures TryBind(Last(h), op.target, op.binding, seen, before) == Some(t')
  {
  }

  lemma BindReread(h: History, op: Op, t': Table, seen: BindingHolder, before: BindingHolder)
    requires op.Bind? && HolderAt(h, |h| - 1, op.target) == Some(seen) && HolderAt(h, op.atBefore, op.target) == Some(before)
    requires TryBind(Last(h), op.target, op.binding, seen, before) == Some(t')
    ensures NextBind(h, Reread(op, |h| - 1)) == Some(t')
  {
  }

  lemma BindAtomic(h: History, op: Op, t': Table)
    requires op.Bind? && Reaches(h) && NextBind(h, op) == Some(t')
    ensures NextBind(h, Reread(op, |h| - 1)) == Some(t')
  {
    var seen, before := HolderAt(h, op.atHolder, op.target).value, HolderAt(h, op.atBefore, op.target).value;
    BindTested(h, op, t', seen, before);
    HolderPinned(h, op.atHolder, op.target);
    BindReread(h, op, t', seen, before);
  }

  lemma TryPreRestartStays(
    t: Table, q: RestartRequest, ledger: LedgerRecord, ledger': LedgerRecord, active: Both<Option<CleanupRecord>>,
    bound: Bindings, existing: Option<RestartRecord>)
    requires TryPreRestart(t, q, ledger, active, bound, existing).Some? && Rank(ledger.stage) <= Rank(ledger'.stage)
    ensures TryPreRestart(t, q, ledger', active, bound, existing) == TryPreRestart(t, q, ledger, active, bound, existing)
  {
  }

  lemma PreRestartTested(
    h: History, op: Op, t': Table, ledger: LedgerRecord, active: Both<Option<CleanupRecord>>, bound: Bindings,
    existing: Option<RestartRecord>)
    requires op.PreRestart? && NextPreRestart(h, op) == Some(t')
    requires LedgerAt(h, op.atLedger, op.restart.control.epoch) == Some(ledger)
    requires active == ActiveAt(h, op.atGuards, op.restart.control.epoch)
    requires HolderAt(h, op.atBound, IntentHolder(op.restart.control.epoch, active)).Some?
    requires bound == HolderAt(h, op.atBound, IntentHolder(op.restart.control.epoch, active)).value.bound
    requires existing == RestartAt(h, op.atRestart, RestartKey(op.restart.control, op.restart.mode))
    ensures TryPreRestart(Last(h), op.restart, ledger, active, bound, existing) == Some(t')
    ensures PreRestartHolds(Last(h), op.restart, existing) && op.atGuards.mail < |h| && op.atGuards.report < |h|
  {
  }

  lemma RequestPinned(h: History, k: nat, q: RestartRequest, existing: Option<RestartRecord>)
    requires Reaches(h) && existing == RestartAt(h, k, RestartKey(q.control, q.mode))
    requires PreRestartHolds(Last(h), q, existing)
    ensures RestartAt(h, |h| - 1, RestartKey(q.control, q.mode)) == existing
  {
    if existing.Some? {
      RestartSeen(h, k, RestartKey(q.control, q.mode));
    }
  }

  lemma PreRestartReread(
    h: History, op: Op, t': Table, ledger: LedgerRecord, active: Both<Option<CleanupRecord>>, bound: Bindings,
    existing: Option<RestartRecord>)
    requires op.PreRestart? && LedgerAt(h, |h| - 1, op.restart.control.epoch) == Some(ledger)
    requires op.atGuards.mail < |h| && op.atGuards.report < |h|
    requires active == ActiveAt(h, op.atGuards, op.restart.control.epoch)
    requires HolderAt(h, op.atBound, IntentHolder(op.restart.control.epoch, active)).Some?
    requires bound == HolderAt(h, op.atBound, IntentHolder(op.restart.control.epoch, active)).value.bound
    requires existing == RestartAt(h, |h| - 1, RestartKey(op.restart.control, op.restart.mode))
    requires TryPreRestart(Last(h), op.restart, ledger, active, bound, existing) == Some(t')
    ensures NextPreRestart(h, Reread(op, |h| - 1)) == Some(t')
  {
  }

  lemma PreRestartAtomic(h: History, op: Op, t': Table)
    requires op.PreRestart? && Reaches(h) && NextPreRestart(h, op) == Some(t')
    ensures NextPreRestart(h, Reread(op, |h| - 1)) == Some(t')
  {
    var q := op.restart;
    var e, active := q.control.epoch, ActiveAt(h, op.atGuards, q.control.epoch);
    var bound := HolderAt(h, op.atBound, IntentHolder(e, active)).value.bound;
    var existing, ledger := RestartAt(h, op.atRestart, RestartKey(q.control, q.mode)), LedgerAt(h, op.atLedger, e).value;
    LedgerSeen(h, op.atLedger, e);
    var ledger' := Last(h).ledgers[e];
    PreRestartTested(h, op, t', ledger, active, bound, existing);
    RequestPinned(h, op.atRestart, q, existing);
    TryPreRestartStays(Last(h), q, ledger, ledger', active, bound, existing);
    PreRestartReread(h, op, t', ledger', active, bound, existing);
  }

  lemma PostRestartTested(
    h: History, op: Op, t': Table, active: Both<Option<CleanupRecord>>, bound: Bindings, item: RestartRecord)
    requires op.PostRestart? && NextPostRestart(h, op) == Some(t')
    requires active == ActiveAt(h, op.atGuards, op.restart.control.epoch)
    requires HolderAt(h, op.atBound, IntentHolder(op.restart.control.epoch, active)).Some?
    requires bound == HolderAt(h, op.atBound, IntentHolder(op.restart.control.epoch, active)).value.bound
    requires RestartAt(h, op.atRestart, RestartKey(op.restart.control, op.restart.mode)) == Some(item)
    ensures TryPostRestart(Last(h), op.restart, active, bound, item) == Some(t')
    ensures PostRestartHolds(Last(h), op.restart, item) && op.atGuards.mail < |h| && op.atGuards.report < |h|
  {
  }

  lemma PostRestartReread(
    h: History, op: Op, t': Table, active: Both<Option<CleanupRecord>>, bound: Bindings, item: RestartRecord)
    requires op.PostRestart? && active == ActiveAt(h, op.atGuards, op.restart.control.epoch)
    requires op.atGuards.mail < |h| && op.atGuards.report < |h|
    requires HolderAt(h, op.atBound, IntentHolder(op.restart.control.epoch, active)).Some?
    requires bound == HolderAt(h, op.atBound, IntentHolder(op.restart.control.epoch, active)).value.bound
    requires RestartAt(h, |h| - 1, RestartKey(op.restart.control, op.restart.mode)) == Some(item)
    requires TryPostRestart(Last(h), op.restart, active, bound, item) == Some(t')
    ensures NextPostRestart(h, Reread(op, |h| - 1)) == Some(t')
  {
  }

  lemma PostRestartAtomic(h: History, op: Op, t': Table)
    requires op.PostRestart? && Reaches(h) && NextPostRestart(h, op) == Some(t')
    ensures NextPostRestart(h, Reread(op, |h| - 1)) == Some(t')
  {
    var q := op.restart;
    var e, k, active := q.control.epoch, RestartKey(q.control, q.mode), ActiveAt(h, op.atGuards, q.control.epoch);
    var bound, item := HolderAt(h, op.atBound, IntentHolder(e, active)).value.bound, RestartAt(h, op.atRestart, k).value;
    PostRestartTested(h, op, t', active, bound, item);
    RestartSeen(h, op.atRestart, k);
    PostRestartReread(h, op, t', active, bound, item);
  }

  lemma ReconcileRestartAtomic(h: History, op: Op, t': Table)
    requires op.ReconcileRestart? && Reaches(h) && NextReconcileRestart(h, op) == Some(t')
    ensures NextReconcileRestart(h, Reread(op, |h| - 1)) == Some(t')
  {
    RestartSeen(h, op.atRestart, RestartKey(op.restart.control, op.restart.mode));
  }

  lemma CheckpointAtomic(h: History, op: Op, t': Table)
    requires op.Checkpoint? && Reaches(h) && NextCheckpoint(h, op) == Some(t')
    ensures NextCheckpoint(h, Reread(op, |h| - 1)) == Some(t')
  {
    DomainSeen(h, op.atDomain, op.domain);
  }

  lemma CleanupAtomic(h: History, op: Op, t': Table)
    requires IsCleanupAction(op) && Reaches(h) && Next(h, op) == Some(t')
    ensures Next(h, Reread(op, |h| - 1)) == Some(t')
  {
    match op
    case Authorize(_, _, _, _, _) => AuthorizeAtomic(h, op, t');
    case Abort(_, _, _, _, _) => AbortAtomic(h, op, t');
    case Rebind(_, _, _, _, _) => RebindAtomic(h, op, t');
    case Complete(_, _, _, _, _) => CompleteAtomic(h, op, t');
  }

  lemma OtherAtomic(h: History, op: Op, t': Table)
    requires op.Bind? || IsRestartAction(op) || op.Checkpoint? || op.IntentWrite?
    requires Reaches(h) && Next(h, op) == Some(t')
    ensures Next(h, Reread(op, |h| - 1)) == Some(t')
  {
    match op
    case Bind(_, _, _, _) => BindAtomic(h, op, t');
    case PreRestart(_, _, _, _, _) => PreRestartAtomic(h, op, t');
    case PostRestart(_, _, _, _) => PostRestartAtomic(h, op, t');
    case ReconcileRestart(_, _) => ReconcileRestartAtomic(h, op, t');
    case Checkpoint(_, _, _, _) => CheckpointAtomic(h, op, t');
    case IntentWrite(_, _) =>
  }

  /** Every table of a run has moved to its last one. */
  lemma EveryStateMovesHere(h: seq<Table>, ops: seq<Op>)
    requires Run(h, ops)
    ensures forall k :: 0 <= k < |h| ==> WindowsMove(h[k], Last(h))
  {
    forall k | 0 <= k < |h|
      ensures WindowsMove(h[k], Last(h))
    {
      StatesMove(h, ops, k, |h| - 1);
    }
  }

  /** Atomic refinement: whatever states an action read, its commit has the effect it would have had
      with every record its transaction tests read at the commit itself. */
  lemma AtomicRefinement(h: seq<Table>, ops: seq<Op>, op: Op, t': Table)
    requires Run(h, ops) && Next(h, op) == Some(t')
    ensures var r := Next(h, Reread(op, |h| - 1)); r.Some? && SameUpToReadings(t', r.value)
    ensures !op.Initialize? ==> Next(h, Reread(op, |h| - 1)) == Some(t')
  {
    RunGood(h, ops);
    SameAsItself(t');
    if op.Initialize? {
      InitializeAtomic(h, op, t');
    } else if op.Advance? {
      EveryStateMovesHere(h, ops);
      AdvanceEpoch(h, ops, op, t');
      AdvanceAtomic(h, op, t');
    } else if IsCleanupAction(op) {
      CleanupAtomic(h, op, t');
    } else {
      OtherAtomic(h, op, t');
    }
  }

  /** A ledger is advanced only in the epoch both domains are in. */
  lemma AdvanceEpoch(h: seq<Table>, ops: seq<Op>, op: Op, t': Table)
    requires Run(h, ops) && op.Advance? && NextAdvance(h, op) == Some(t')
    ensures Lockstep(Last(h).domains, Last(h).ledgers, op.move.control.epoch)
  {
    RunGood(h, ops);
    assert Last(h).domains != map[];
  }
}
