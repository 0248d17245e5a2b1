/** Which worker runs when a cleanup is reconciled, by what its restart record shows. A candidate worker
    that was started under a cleanup is not forgotten: the cleanup is not aborted before that restart is
    reconciled or replaced by another one, however often the cleanup is bound anew. */
module HmacWorker {
  import opened Optional
  import opened HmacKeyring
  import opened HmacTable
  import opened HmacRun
  import opened HmacInvariant
  import opened HmacRunGood
  import opened HmacAtomic
  import opened HmacCleanup
  import opened HmacFresh
  import opened HmacDeadlock

  function KeyOf(q: ReconcileRequest): (Epoch, Domain) {
    (q.control.epoch, q.domain)
  }

  /** The restart record of the candidate worker, if there is one. */
  function RestartOf(t: Table, c: Control): Option<RestartRecord> {
    Find(t.restarts, (c.epoch, c.worker))
  }

  /** The restart was made in cleanup mode, with the plan and the attempt the cleanup has bound for its worker. */
  predicate MadeUnder(c: CleanupRecord, r: RestartRecord) {
    && r.mode == CleanupMode
    && (Candidate, Worker) in c.bound.plans && r.plan == c.bound.plans[(Candidate, Worker)]
    && (Candidate, Worker) in c.bound.attempts && r.attempt == c.bound.attempts[(Candidate, Worker)]
  }

  predicate OfArtifact(c: CleanupRecord, r: RestartRecord) {
    Worker in c.bound.digests && r.artifact == c.bound.digests[Worker]
  }

  /** The last reconciliation of this cleanup found this very record and took the worker for `w`. */
  predicate FoundAs(c: CleanupRecord, r: RestartRecord, w: WorkerClass) {
    c.reconciledWorker == Some((w, Some(r)))
  }

  predicate Found(c: CleanupRecord, r: RestartRecord) {
    c.reconciledWorker.Some? && c.reconciledWorker.value.1 == Some(r)
  }

  /** The records that show the worker of before the cleanup: none at all, where no earlier reconciliation saw
      one; a restart made under the cleanup that was reconciled; one found to be so by the last
      reconciliation; or one that was completed in another mode. */
  predicate ShowsBaseline(c: CleanupRecord, restart: Option<RestartRecord>) {
    match restart
    case None => c.reconciledWorker.None? || c.reconciledWorker.value.1.None?
    case Some(r) =>
      || (MadeUnder(c, r) && r.stage == Reconciled && OfArtifact(c, r))
      || (!MadeUnder(c, r) && FoundAs(c, r, BaselineWorker))
      || (!MadeUnder(c, r) && !Found(c, r) && r.mode != CleanupMode && r.stage == Completed && OfArtifact(c, r))
  }

  /** The records that show the candidate: a restart made under the cleanup that was completed, or one found
      to be so by the last reconciliation. */
  predicate ShowsCandidate(c: CleanupRecord, restart: Option<RestartRecord>) {
    && restart.Some?
    && var r := restart.value;
       || (MadeUnder(c, r) && r.stage == Completed && OfArtifact(c, r))
       || (!MadeUnder(c, r) && FoundAs(c, r, CandidateWorker))
  }

  // ---------------------------------------------------------------- what every restart record says of itself

  /** The record agrees with its name, a completed restart says when, and a reconciled one was reconciled by
      the plan and the attempt it was made with. */
  predicate TellsItself(k: (Epoch, Provenance), r: RestartRecord) {
    && r.epoch == k.0 && r.provenance == k.1
    && (r.stage == Completed ==> r.completedAt.Some?)
    && (r.stage == Reconciled ==> r.reconciledBy == Some((r.plan, r.attempt)))
  }

  lemma ReconcileTells(h: History, op: Op, t': Table)
    requires op.ReconcileRestart? && Reaches(h) && NextReconcileRestart(h, op) == Some(t')
    ensures var k := RestartKey(op.restart.control, op.restart.mode);
            k in t'.restarts && t'.restarts[k].reconciledBy == Some((t'.restarts[k].plan, t'.restarts[k].attempt))
  {
    RestartSeen(h, op.atRestart, RestartKey(op.restart.control, op.restart.mode));
  }

  predicate ByItself(r: Option<RestartRecord>) {
    r.Some? && r.value.stage == Reconciled ==> r.value.reconciledBy == Some((r.value.plan, r.value.attempt))
  }

  lemma ByItselfStep(h: seq<Table>, ops: seq<Op>, m: nat, k: (Epoch, Provenance))
    requires Run(h, ops) && m < |ops| && ByItself(Find(h[m].restarts, k))
    ensures ByItself(Find(h[m + 1].restarts, k))
  {
    RestartStep(h, ops, m, k);
    if OnRestart(ops[m], k) && ops[m].ReconcileRestart? {
      Committed(h, ops, m);
      ReconcileTells(h[..m + 1], ops[m], h[m + 1]);
    }
  }

  lemma {:induction false} ReconciledByItself(h: seq<Table>, ops: seq<Op>, i: nat, k: (Epoch, Provenance))
    requires Run(h, ops) && i < |h|
    ensures ByItself(Find(h[i].restarts, k))
    decreases i
  {
    if i > 0 {
      ReconciledByItself(h, ops, i - 1, k);
      ByItselfStep(h, ops, i - 1, k);
    }
  }

  /** Over any run. */
  lemma RestartTells(h: seq<Table>, ops: seq<Op>, i: nat, k: (Epoch, Provenance))
    requires Run(h, ops) && i < |h| && k in h[i].restarts
    ensures TellsItself(k, h[i].restarts[k])
  {
    StateGood(h, ops, i);
    assert RestartGood(h[i].ledgers, k, h[i].restarts[k]);
    ReconciledByItself(h, ops, i, k);
  }

  // ---------------------------------------------------------------- the verdict, in terms of the records

  lemma VerdictIff(c: Control, cleanup: CleanupRecord, restart: Option<RestartRecord>)
    requires CleanupRecordGood(cleanup) && (restart.Some? ==> TellsItself((c.epoch, c.worker), restart.value))
    ensures ClassifyWorker(c, cleanup, restart) == Some(BaselineWorker) <==> ShowsBaseline(cleanup, restart)
    ensures ClassifyWorker(c, cleanup, restart) == Some(CandidateWorker) <==> ShowsCandidate(cleanup, restart)
  {
  }

  lemma VerdictAt(h: seq<Table>, ops: seq<Op>, i: nat, q: ReconcileRequest)
    requires Run(h, ops) && i < |h| && KeyOf(q) in h[i].cleanups
    ensures var c, r := h[i].cleanups[KeyOf(q)], RestartOf(h[i], q.control);
            && (ClassifyWorker(q.control, c, r) == Some(BaselineWorker) <==> ShowsBaseline(c, r))
            && (ClassifyWorker(q.control, c, r) == Some(CandidateWorker) <==> ShowsCandidate(c, r))
  {
    var k := (q.control.epoch, q.control.worker);
    CleanupGoodAt(h, ops, i, KeyOf(q));
    if k in h[i].restarts {
      RestartTells(h, ops, i, k);
    }
    VerdictIff(q.control, h[i].cleanups[KeyOf(q)], RestartOf(h[i], q.control));
  }

  // ---------------------------------------------------------------- what an abort and a rebind find

  /** The one deployment intent is put into a state, and all others are left as they are. */
  ghost predicate IntentMoves(t: Table, t': Table, id: string, state: IntentState) {
    id in t.intents && t'.intents == t.intents[id := t.intents[id].(state := state)]
  }

  /** At its commit an abort finds the records it had read. */
  lemma AbortFinds(h: History, op: Op, t': Table)
    requires op.Abort? && Reaches(h) && NextAbort(h, op) == Some(t')
    ensures KeyOf(op.rec) in Last(h).cleanups && KeyOf(op.rec) in t'.cleanups
    ensures var c, r := Last(h).cleanups[KeyOf(op.rec)], RestartOf(Last(h), op.rec.control);
            && c.stage == Authorized && ClassifyWorker(op.rec.control, c, r) == Some(BaselineWorker)
            && t'.cleanups[KeyOf(op.rec)].reconciledWorker == Some((BaselineWorker, r))
            && IntentMoves(Last(h), t', c.intent, IntentAborted)
  {
    var q := op.rec;
    var e, d, key := q.control.epoch, q.domain, RestartKey(q.control, CleanupMode);
    var cleanup, restart := CleanupAt(h, op.atCleanup, e, d).value, RestartAt(h, op.atRestart, key);
    AbortTested(h, op, t', cleanup, restart, DomainsAt(h, op.at).value);
    WorkerPinned(h, op.atRestart, q.control);
    CleanupPinned(h, op.atCleanup, e, d, cleanup.revision);
  }

  /** When a cleanup is aborted, its restart record shows the worker of before the cleanup. The abort also
      closes the deployment intent the cleanup was prepared for. */
  lemma AbortNeedsBaseline(h: seq<Table>, ops: seq<Op>, m: nat)
    requires Run(h, ops) && m < |ops| && ops[m].Abort?
    ensures var k, r := KeyOf(ops[m].rec), RestartOf(h[m], ops[m].rec.control);
            && k in h[m].cleanups && h[m].cleanups[k].stage == Authorized
            && ShowsBaseline(h[m].cleanups[k], r) && !ShowsCandidate(h[m].cleanups[k], r)
            && k in h[m + 1].cleanups && h[m + 1].cleanups[k].reconciledWorker == Some((BaselineWorker, r))
            && IntentMoves(h[m], h[m + 1], h[m].cleanups[k].intent, IntentAborted)
  {
    Committed(h, ops, m);
    AbortFinds(h[..m + 1], ops[m], h[m + 1]);
    VerdictAt(h, ops, m, ops[m].rec);
  }

  /** What a rebind makes of the cleanup record, given what it found. */
  predicate RebindWrote(q: ReconcileRequest, c: CleanupRecord, r: Option<RestartRecord>, after: CleanupRecord) {
    && c.stage == Authorized && ClassifyWorker(q.control, c, r).Some?
    && after == c.(plan := q.freshPlan, intent := q.freshIntent, revision := c.revision + 1,
                   reconciledWorker := Some((ClassifyWorker(q.control, c, r).value, r)),
                   bound := c.bound.(plans := map[], attempts := map[]))
  }

  lemma TryRebindWrites(
    t: Table, q: ReconcileRequest, r: Option<RestartRecord>, intent: Option<IntentRecord>, successor: Option<IntentRecord>,
    t': Table)
    requires KeyOf(q) in t.cleanups && TryRebind(t, q, t.cleanups[KeyOf(q)], r, intent, successor) == Some(t')
    ensures KeyOf(q) in t'.cleanups && RebindWrote(q, t.cleanups[KeyOf(q)], r, t'.cleanups[KeyOf(q)])
    ensures IntentMoves(t, t', t.cleanups[KeyOf(q)].intent, Superseded)
  {
  }

  lemma RebindFinds(h: History, op: Op, t': Table)
    requires op.Rebind? && Reaches(h) && NextRebind(h, op) == Some(t')
    ensures KeyOf(op.rec) in Last(h).cleanups && KeyOf(op.rec) in t'.cleanups
    ensures RebindWrote(op.rec, Last(h).cleanups[KeyOf(op.rec)], RestartOf(Last(h), op.rec.control), t'.cleanups[KeyOf(op.rec)])
    ensures IntentMoves(Last(h), t', Last(h).cleanups[KeyOf(op.rec)].intent, Superseded)
  {
    var q := op.rec;
    var e, d, key := q.control.epoch, q.domain, RestartKey(q.control, CleanupMode);
    var cleanup, restart := CleanupAt(h, op.atCleanup, e, d).value, RestartAt(h, op.atRestart, key);
    RebindTested(h, op, t', cleanup, restart);
    WorkerPinned(h, op.atRestart, q.control);
    CleanupPinned(h, op.atCleanup, e, d, cleanup.revision);
    TryRebindWrites(Last(h), q, restart, IntentAt(h, op.atIntent, cleanup.intent), IntentAt(h, op.atFresh, q.freshIntent), t');
  }

  /** The worker a rebind found is on record afterwards, and the plans and attempts bound before are gone. */
  predicate Recorded(before: CleanupRecord, r: Option<RestartRecord>, after: CleanupRecord) {
    && (ShowsCandidate(before, r) || ShowsBaseline(before, r))
    && (after.reconciledWorker == Some((CandidateWorker, r)) <==> ShowsCandidate(before, r))
    && (after.reconciledWorker == Some((BaselineWorker, r)) <==> ShowsBaseline(before, r))
    && after.bound == before.bound.(plans := map[], attempts := map[])
  }

  lemma RebindMeans(q: ReconcileRequest, c: CleanupRecord, r: Option<RestartRecord>, after: CleanupRecord)
    requires RebindWrote(q, c, r, after)
    requires ClassifyWorker(q.control, c, r) == Some(BaselineWorker) <==> ShowsBaseline(c, r)
    requires ClassifyWorker(q.control, c, r) == Some(CandidateWorker) <==> ShowsCandidate(c, r)
    ensures Recorded(c, r, after)
  {
    var w := ClassifyWorker(q.control, c, r).value;
    assert w == BaselineWorker || w == CandidateWorker;
  }

  /** A rebind keeps the worker it found on record: the candidate exactly when the restart record shows it. The
      cleanup now has the fresh plan and intent, and the intent it had is superseded. */
  lemma RebindRecords(h: seq<Table>, ops: seq<Op>, m: nat)
    requires Run(h, ops) && m < |ops| && ops[m].Rebind?
    ensures var k := KeyOf(ops[m].rec);
            && k in h[m].cleanups && k in h[m + 1].cleanups
            && Recorded(h[m].cleanups[k], RestartOf(h[m], ops[m].rec.control), h[m + 1].cleanups[k])
            && h[m + 1].cleanups[k].plan == ops[m].rec.freshPlan && h[m + 1].cleanups[k].intent == ops[m].rec.freshIntent
            && IntentMoves(h[m], h[m + 1], h[m].cleanups[k].intent, Superseded)
  {
    var q, k := ops[m].rec, KeyOf(ops[m].rec);
    Committed(h, ops, m);
    RebindFinds(h[..m + 1], ops[m], h[m + 1]);
    VerdictAt(h, ops, m, q);
    RebindMeans(q, h[m].cleanups[k], RestartOf(h[m], q.control), h[m + 1].cleanups[k]);
  }

  // ---------------------------------------------------------------- exactly when an abort commits

  /** What the table must show for an abort to commit on records it has just read. */
  ghost predicate AbortOpen(t: Table, q: ReconcileRequest) {
    && BothDomains(t) && KeyOf(q) in t.cleanups
    && var c := t.cleanups[KeyOf(q)];
       && c.stage == Authorized && ShowsBaseline(c, RestartOf(t, q.control))
       && c.intent in t.intents && t.intents[c.intent].plan == c.plan
       && (t.intents[c.intent].state == Prepared || t.intents[c.intent].state == ReconcileRequired)
       && t.domains[MailAction].issuers == c.baselineIssuers.mail + c.newIssuers.mail
       && t.domains[ReportLink].issuers == c.baselineIssuers.report + c.newIssuers.report
  }

  lemma AbortReads(h: History, q: ReconcileRequest, n: nat)
    requires n == |h| - 1
    ensures Next(h, Abort(q, n, n, n, Both(n, n)))
            == if KeyOf(q) in Last(h).cleanups && BothDomains(Last(h)) then
                 var c := Last(h).cleanups[KeyOf(q)];
                 TryAbort(Last(h), q, c, RestartOf(Last(h), q.control), Find(Last(h).intents, c.intent), Domains(Last(h)))
               else None
  {
    assert CleanupAt(h, n, q.control.epoch, q.domain) == Find(Last(h).cleanups, KeyOf(q));
    assert RestartAt(h, n, RestartKey(q.control, CleanupMode)) == RestartOf(Last(h), q.control);
  }

  lemma TryAbortIff(t: Table, q: ReconcileRequest)
    requires BothDomains(t) && KeyOf(q) in t.cleanups
    requires var c, r := t.cleanups[KeyOf(q)], RestartOf(t, q.control);
             ClassifyWorker(q.control, c, r) == Some(BaselineWorker) <==> ShowsBaseline(c, r)
    ensures var c := t.cleanups[KeyOf(q)];
            TryAbort(t, q, c, RestartOf(t, q.control), Find(t.intents, c.intent), Domains(t)).Some? <==> AbortOpen(t, q)
  {
  }

  /** An abort on records read at the end of a run commits exactly when these are the records: a reconciled
      restart does not stand in its way, a completed one under the cleanup does. */
  lemma AbortIff(h: seq<Table>, ops: seq<Op>, q: ReconcileRequest, n: nat)
    requires Run(h, ops) && n == |h| - 1
    ensures Next(h, Abort(q, n, n, n, Both(n, n))).Some? <==> AbortOpen(h[n], q)
  {
    AbortReads(h, q, n);
    if KeyOf(q) in h[n].cleanups && BothDomains(h[n]) {
      VerdictAt(h, ops, n, q);
      TryAbortIff(h[n], q);
    }
  }

  // ---------------------------------------------------------------- the candidate is not forgotten

  /** A candidate restart of the cleanup's artifact is complete: it was made under the cleanup as it is bound
      now, or was found to be so by its last reconciliation. */
  predicate CandidateRuns(c: CleanupRecord, r: RestartRecord) {
    && r.mode == CleanupMode && r.stage == Completed && OfArtifact(c, r)
    && (MadeUnder(c, r) || FoundAs(c, r, CandidateWorker))
  }

  lemma CandidateShown(c: CleanupRecord, r: RestartRecord)
    requires CandidateRuns(c, r)
    ensures ShowsCandidate(c, Some(r)) && !ShowsBaseline(c, Some(r))
  {
  }

  /** A step that is no rebind of this cleanup leaves what it bound and found as it is, or adds to it. */
  predicate Grows(a: CleanupRecord, b: CleanupRecord) {
    && a.reconciledWorker == b.reconciledWorker
    && (forall x <- a.bound.plans :: x in b.bound.plans && b.bound.plans[x] == a.bound.plans[x])
    && (forall x <- a.bound.attempts :: x in b.bound.attempts && b.bound.attempts[x] == a.bound.attempts[x])
    && (forall x <- a.bound.digests :: x in b.bound.digests && b.bound.digests[x] == a.bound.digests[x])
  }

  lemma CandidateStays(a: CleanupRecord, b: CleanupRecord, r: RestartRecord)
    requires CandidateRuns(a, r) && Grows(a, b)
    ensures CandidateRuns(b, r)
  {
  }

  lemma BoundGrows(t: Table, x: Target, b: Binding, seen: BindingHolder, t': Table, k: (Epoch, Domain))
    requires BindHolds(t, x, b, seen) && t' == BindEffect(t, x, b) && k in t.cleanups
    requires b.BindDigest? ==> b.task !in Holder(t, x).value.bound.digests
    ensures k in t'.cleanups && Grows(t.cleanups[k], t'.cleanups[k])
  {
    if x == OnCleanup(k.0, k.1) {
      assert t'.cleanups[k].bound == WithBinding(b, t.cleanups[k].bound);
    } else {
      assert t'.cleanups[k] == t.cleanups[k];
    }
  }

  lemma BindGrows(h: History, op: Op, t': Table, k: (Epoch, Domain))
    requires op.Bind? && NextBind(h, op) == Some(t') && k in Last(h).cleanups
    ensures k in t'.cleanups && Grows(Last(h).cleanups[k], t'.cleanups[k])
  {
    var seen, before := HolderAt(h, op.atHolder, op.target).value, HolderAt(h, op.atBefore, op.target).value;
    BindTested(h, op, t', seen, before);
    BoundGrows(Last(h), op.target, op.binding, seen, t', k);
  }

  predicate RebindsKey(op: Op, k: (Epoch, Domain)) {
    op.Rebind? && KeyOf(op.rec) == k
  }

  lemma OthersCleanup(h: History, op: Op, t': Table, k: (Epoch, Domain))
    requires op.Abort? || op.Rebind? || op.Complete?
    requires Next(h, op) == Some(t') && k in Last(h).cleanups && !Ends(op, k.0, k.1) && !RebindsKey(op, k)
    ensures k in t'.cleanups && t'.cleanups[k] == Last(h).cleanups[k]
  {
    if op.Abort? {
      assert NextAbort(h, op) == Some(t');
    } else if op.Rebind? {
      assert NextRebind(h, op) == Some(t');
    } else {
      assert NextComplete(h, op) == Some(t');
    }
  }

  lemma CleanupGrows(h: History, op: Op, t': Table, k: (Epoch, Domain))
    requires Next(h, op) == Some(t') && k in Last(h).cleanups && !Ends(op, k.0, k.1) && !RebindsKey(op, k)
    ensures k in t'.cleanups && Grows(Last(h).cleanups[k], t'.cleanups[k])
  {
    match op
    case Initialize(_, _, _) => InitializeOpens(h, op, t');
    case Advance(_, _, _, _, _, _, _, _) => assert NextAdvance(h, op) == Some(t');
    case Authorize(_, _, _, _, _) => AuthorizeAdds(h, op, t');
    case Bind(_, _, _, _) => BindGrows(h, op, t', k);
    case Abort(_, _, _, _, _) => OthersCleanup(h, op, t', k);
    case Rebind(_, _, _, _, _) => OthersCleanup(h, op, t', k);
    case Complete(_, _, _, _, _) => OthersCleanup(h, op, t', k);
    case _ => CleanupsStandOther(h, op, t');
  }

  /** No action from i up to j is made on the restart record. */
  ghost predicate LeftAlone(ops: seq<Op>, i: nat, j: nat, k: (Epoch, Provenance))
    requires j <= |ops|
  {
    forall m :: i <= m < j ==> !OnRestart(ops[m], k)
  }

  lemma {:induction false} RestartLeft(h: seq<Table>, ops: seq<Op>, i: nat, j: nat, k: (Epoch, Provenance))
    requires Run(h, ops) && i <= j < |h| && LeftAlone(ops, i, j, k)
    ensures Find(h[j].restarts, k) == Find(h[i].restarts, k)
    decreases j
  {
    if i < j {
      RestartLeft(h, ops, i, j - 1, k);
      RestartStep(h, ops, j - 1, k);
    }
  }

  /** The cleanup has ended, or the candidate's restart counts as complete for it. */
  ghost predicate StillRuns(t: Table, k: (Epoch, Domain), r: RestartRecord) {
    k in t.cleanups && (t.cleanups[k].stage == Authorized ==> CandidateRuns(t.cleanups[k], r))
  }

  lemma StillRunsStep(h: seq<Table>, ops: seq<Op>, m: nat, k: (Epoch, Domain), w: Provenance, r: RestartRecord)
    requires Run(h, ops) && m < |ops| && StillRuns(h[m], k, r)
    requires Find(h[m].restarts, (k.0, w)) == Some(r)
    requires RebindsKey(ops[m], k) ==> ops[m].rec.control.worker == w
    ensures StillRuns(h[m + 1], k, r)
  {
    Committed(h, ops, m);
    CleanupKept(h, ops, m, m + 1, k);
    if h[m].cleanups[k].stage == Authorized {
      if RebindsKey(ops[m], k) {
        CandidateShown(h[m].cleanups[k], r);
        RebindRecords(h, ops, m);
      } else if Ends(ops[m], k.0, k.1) {
        EndsIt(h, ops, m, k);
      } else {
        CleanupGrows(h[..m + 1], ops[m], h[m + 1], k);
        CandidateStays(h[m].cleanups[k], h[m + 1].cleanups[k], r);
      }
    }
  }

  lemma EndsIt(h: seq<Table>, ops: seq<Op>, m: nat, k: (Epoch, Domain))
    requires Run(h, ops) && m < |ops| && Ends(ops[m], k.0, k.1)
    ensures k in h[m + 1].cleanups && h[m + 1].cleanups[k].stage != Authorized
  {
    if ops[m].Abort? {
      AbortWrites(h, ops, m);
    } else {
      CompleteWrites(h, ops, m);
    }
  }

  /** Every abort and rebind of the cleanup from i up to j names the worker `w`. */
  ghost predicate SameWorker(ops: seq<Op>, i: nat, j: nat, k: (Epoch, Domain), w: Provenance)
    requires j <= |ops|
  {
    forall m :: i <= m < j && (ops[m].Abort? || ops[m].Rebind?) && KeyOf(ops[m].rec) == k ==> ops[m].rec.control.worker == w
  }

  lemma {:induction false} StillRunsUntil(
    h: seq<Table>, ops: seq<Op>, i: nat, j: nat, k: (Epoch, Domain), w: Provenance, r: RestartRecord)
    requires Run(h, ops) && i <= j < |h| && StillRuns(h[i], k, r) && Find(h[i].restarts, (k.0, w)) == Some(r)
    requires LeftAlone(ops, i, j, (k.0, w)) && SameWorker(ops, i, j, k, w)
    ensures StillRuns(h[j], k, r)
    decreases j
  {
    if i < j {
      var m := j - 1;
      StillRunsUntil(h, ops, i, m, k, w, r);
      RestartLeft(h, ops, i, m, (k.0, w));
      StillRunsStep(h, ops, m, k, w, r);
    }
  }

  /** Once a candidate's restart under a cleanup is complete, the cleanup is not aborted until another action
      is made on that restart record: neither rebinding it any number of times nor binding other plans makes
      the candidate pass for the worker of before. */
  lemma CandidateBlocksAbort(h: seq<Table>, ops: seq<Op>, i: nat, j: nat, k: (Epoch, Domain), w: Provenance)
    requires Run(h, ops) && i <= j < |ops| && k in h[i].cleanups && (k.0, w) in h[i].restarts
    requires CandidateRuns(h[i].cleanups[k], h[i].restarts[(k.0, w)])
    requires LeftAlone(ops, i, j, (k.0, w)) && SameWorker(ops, i, j + 1, k, w)
    ensures !(ops[j].Abort? && KeyOf(ops[j].rec) == k)
  {
    var r := h[i].restarts[(k.0, w)];
    StillRunsUntil(h, ops, i, j, k, w, r);
    RestartLeft(h, ops, i, j, (k.0, w));
    if ops[j].Abort? && KeyOf(ops[j].rec) == k {
      AbortNeedsBaseline(h, ops, j);
      CandidateShown(h[j].cleanups[k], r);
      assert false;
    }
  }
}
