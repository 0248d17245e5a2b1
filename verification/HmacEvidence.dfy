/** What the gate's decisions rest on, in every run: the signing keys of the two domains stay apart, a
    cleanup's proposal takes the expired key and nothing else, and a cleanup ends on a worker restart made
    after it was authorized. */
module HmacEvidence {
  import opened Optional
  import opened HmacKeyring
  import opened HmacTable
  import opened HmacRun
  import opened HmacInvariant
  import opened HmacRunGood
  import opened HmacWindow
  import opened HmacAtomic
  import opened HmacCleanup
  import opened HmacFresh

  // ---------------------------------------------------------------- the signing keys

  /** The keys are versions of two different secrets, none of them a Slack secret. */
  ghost predicate KeysSeparated(t: Table) {
    BothDomains(t) ==>
      && Resource(t.domains[MailAction].primary) != Resource(t.domains[ReportLink].primary)
      && !MentionsSlack(Resource(t.domains[MailAction].primary)) && '@' in t.domains[MailAction].primary
      && !MentionsSlack(Resource(t.domains[ReportLink].primary)) && '@' in t.domains[ReportLink].primary
  }

  lemma ManifestReviewed(h: History, op: Op, t': Table)
    requires op.Initialize? && NextInitialize(h, op) == Some(t')
    ensures TransitionAccepted(op.init.manifest, op.init.deployed, op.init.checkedAt)
  {
  }

  lemma OpensSeparated(t: Table, q: InitializeRequest, t': Table)
    requires Opens(t, q, t') && PrimariesSeparated(q.manifest) && VersionsNamed(q.manifest)
    ensures KeysSeparated(t')
  {
    var p := q.manifest.proposed;
    assert !MentionsSlack(Resource(p.At(MailAction).primary)) && !MentionsSlack(Resource(p.At(ReportLink).primary));
    assert t'.domains[MailAction].primary == p.mail.primary && t'.domains[ReportLink].primary == p.report.primary;
  }

  lemma SamePrimaries(h: seq<Table>, ops: seq<Op>, m: nat)
    requires Run(h, ops) && m < |ops| && !ops[m].Initialize? && BothDomains(h[m + 1])
    ensures BothDomains(h[m]) && h[m + 1].domains[MailAction].primary == h[m].domains[MailAction].primary
    ensures h[m + 1].domains[ReportLink].primary == h[m].domains[ReportLink].primary
  {
    assert ops[..m + 1][..m] == ops[..m];
    assert Epochs(ops[..m + 1]) == Epochs(ops[..m]);
    EpochAt(h, ops, m);
    EpochAt(h, ops, m + 1);
    StateGood(h, ops, m);
    StateGood(h, ops, m + 1);
    StateMoves(h, ops, m);
  }

  /** Over any run: through every rotation the two domains sign with versions of two different secrets. */
  lemma {:induction false} KeysStaySeparated(h: seq<Table>, ops: seq<Op>, i: nat)
    requires Run(h, ops) && i < |h|
    ensures KeysSeparated(h[i])
    decreases i
  {
    if i > 0 {
      var m := i - 1;
      if ops[m].Initialize? {
        Committed(h, ops, m);
        ManifestReviewed(h[..m + 1], ops[m], h[i]);
        InitializeOpens(h[..m + 1], ops[m], h[i]);
        OpensSeparated(h[m], ops[m].init, h[i]);
      } else if BothDomains(h[i]) {
        KeysStaySeparated(h, ops, m);
        SamePrimaries(h, ops, m);
      }
    }
  }

  // ---------------------------------------------------------------- what an authorization proposes

  lemma ManifestOf(h: History, op: Op, t': Table)
    requires op.Authorize? && NextAuthorize(h, op) == Some(t')
    ensures var q := op.auth;
            && q.deployed.At(q.domain).previous.Some?
            && q.manifest.proposed.At(q.domain) == Config(q.deployed.At(q.domain).primary, None, None)
            && q.manifest.proposed.At(Other(q.domain)) == q.deployed.At(Other(q.domain))
  {
  }

  /** The proposal on record: the target keeps its primary and nothing of its window, which had run out; the
      other domain is to stay as it is. */
  lemma AuthorizeProposes(h: seq<Table>, ops: seq<Op>, m: nat)
    requires Run(h, ops) && m < |ops| && ops[m].Authorize?
    ensures var q, k := ops[m].auth, AuthorizeKey(ops[m].auth);
            && q.domain in h[m].domains && Other(q.domain) in h[m].domains && k in h[m + 1].cleanups
            && var c, r := h[m + 1].cleanups[k], h[m].domains[q.domain];
               && r.previous.Some? && r.deadline.Some? && r.deadline.value <= q.now == c.authorizedAt
               && c.proposed.At(q.domain) == Config(r.primary, None, None)
               && c.proposed.At(Other(q.domain)) == ConfigOf(h[m].domains[Other(q.domain)])
  {
    Committed(h, ops, m);
    ManifestOf(h[..m + 1], ops[m], h[m + 1]);
    AuthorizeWrites(h, ops, m);
  }

  // ---------------------------------------------------------------- what a completion rests on

  /** What the commit of a completion had read. */
  lemma CompletionProof(h: History, op: Op, t': Table)
    requires op.Complete? && NextComplete(h, op) == Some(t')
    ensures var q, k := op.done, RestartKey(op.done.control, op.done.restartMode);
            && op.atCleanup < |h| && (q.control.epoch, q.domain) in h[op.atCleanup].cleanups
            && op.atRestart < |h| && k in h[op.atRestart].restarts
            && var c, r := h[op.atCleanup].cleanups[(q.control.epoch, q.domain)], h[op.atRestart].restarts[k];
               && ReplacementsBound(c.bound) && r.plan == q.plan && r.attempt == q.attempt && r.mode == q.restartMode
               && r.completedAt.Some? && r.completedAt.value > c.authorizedAt
               && r.completedAt.value > Max(r.requestedAt, r.afterCheckedAt)
  {
  }

  /** The three services have candidate task definitions bound, three different ones. */
  predicate Replaced(c: CleanupRecord) {
    && Mcp in c.bound.arns && ConnectWeb in c.bound.arns && MorningDigest in c.bound.arns
    && c.bound.arns[Mcp] != c.bound.arns[ConnectWeb] && c.bound.arns[Mcp] != c.bound.arns[MorningDigest]
    && c.bound.arns[ConnectWeb] != c.bound.arns[MorningDigest]
  }

  /** Actions p and s requested and completed a restart of the worker, after the time given. */
  ghost predicate RestartedAfter(ops: seq<Op>, j: nat, k: (Epoch, Provenance), after: int, p: nat, s: nat) {
    && p < s < j <= |ops| && IsRequest(ops[p], k) && IsCompletion(ops[s], k)
    && ops[s].restart.checkedAt > Max(after, Max(ops[p].restart.now, ops[p].restart.checkedAt))
  }

  lemma RestartBehind(h: seq<Table>, ops: seq<Op>, i: nat, j: nat, k: (Epoch, Provenance), after: int)
    requires Run(h, ops) && i <= j < |h| && k in h[i].restarts && h[i].restarts[k].completedAt.Some?
    requires var r := h[i].restarts[k]; r.completedAt.value > after && r.completedAt.value > Max(r.requestedAt, r.afterCheckedAt)
    ensures exists p: nat, s: nat :: RestartedAfter(ops, j, k, after, p, s)
  {
    RestartMade(h, ops, i, k);
    var p: nat, s: nat :| MadeBy(ops, i, k, h[i].restarts[k], p, s);
    assert RestartedAfter(ops, j, k, after, p, s);
  }

  /** Behind every completed cleanup there are a worker restart that was requested and completed before, and
      completed later than the cleanup was authorized, and candidate task definitions for all three services. */
  lemma CompletionFresh(h: seq<Table>, ops: seq<Op>, j: nat)
    requires Run(h, ops) && j < |ops| && ops[j].Complete?
    ensures var q, k := ops[j].done, (ops[j].done.control.epoch, ops[j].done.domain);
            && k in h[j].cleanups && Replaced(h[j].cleanups[k])
            && exists p: nat, s: nat ::
                 RestartedAfter(ops, j, RestartKey(q.control, q.restartMode), h[j].cleanups[k].authorizedAt, p, s)
  {
    var op, key := ops[j], (ops[j].done.control.epoch, ops[j].done.domain);
    var k := RestartKey(op.done.control, op.done.restartMode);
    Committed(h, ops, j);
    CompletionProof(h[..j + 1], op, h[j + 1]);
    CleanupKept(h, ops, op.atCleanup, j, key);
    RestartBehind(h, ops, op.atRestart, j, k, h[j].cleanups[key].authorizedAt);
  }

  // ---------------------------------------------------------------- what a restart rests on

  /** The plan and the attempt of the restart were bound, for the kind its mode stands for, in the one
      authorized cleanup of the epoch or, when there is none, in its ledger. */
  ghost predicate BoundIn(t: Table, x: Target, q: RestartRequest) {
    && Holder(t, x).Some?
    && IntentBound(Holder(t, x).value.bound, if q.mode == RollbackMode then RollbackKind else Candidate, Worker, q.plan, q.attempt)
  }

  predicate Authorizes(t: Table, e: Epoch, d: Domain) {
    (e, d) in t.cleanups && t.cleanups[(e, d)].stage == Authorized
  }

  /** What a requested restart rests on, in the tables it read the two cleanups and the bindings from: a
      cleanup's restart on a cleanup under way, a candidate's on none, and both on the bound plan and attempt. */
  ghost predicate RestartRests(q: RestartRequest, m: Table, r: Table, b: Table) {
    var e := q.control.epoch;
    var mail, report := Authorizes(m, e, MailAction), Authorizes(r, e, ReportLink);
    && !(mail && report)
    && (q.mode == CleanupMode ==> mail || report)
    && (q.mode == CandidateMode ==> !mail && !report)
    && BoundIn(b, if mail then OnCleanup(e, MailAction) else if report then OnCleanup(e, ReportLink) else OnLedger(e), q)
  }

  lemma RequestRests(h: History, op: Op, t': Table)
    requires op.PreRestart? && NextPreRestart(h, op) == Some(t')
    ensures op.atGuards.mail < |h| && op.atGuards.report < |h| && op.atBound < |h|
    ensures RestartRests(op.restart, h[op.atGuards.mail], h[op.atGuards.report], h[op.atBound])
  {
    var e := op.restart.control.epoch;
    assert IsAuthorized(CleanupAt(h, op.atGuards.mail, e, MailAction)) <==> Authorizes(h[op.atGuards.mail], e, MailAction);
    assert IsAuthorized(CleanupAt(h, op.atGuards.report, e, ReportLink)) <==> Authorizes(h[op.atGuards.report], e, ReportLink);
  }

  /** Every restart requested in a run rests on such reads, of states before it. */
  lemma EveryRestartRests(h: seq<Table>, ops: seq<Op>, m: nat)
    requires Run(h, ops) && m < |ops| && ops[m].PreRestart?
    ensures ops[m].atGuards.mail <= m && ops[m].atGuards.report <= m && ops[m].atBound <= m
    ensures RestartRests(ops[m].restart, h[ops[m].atGuards.mail], h[ops[m].atGuards.report], h[ops[m].atBound])
  {
    Committed(h, ops, m);
    RequestRests(h[..m + 1], ops[m], h[m + 1]);
  }

  // ---------------------------------------------------------------- what a stage move rests on

  /** The window the manifest proposes is still open for the domain at the clock reading of the check. */
  predicate WindowOpen(q: TransitionRequest, r: DomainRecord, d: Domain) {
    && r.epoch == q.control.epoch && ConfigOf(r) == q.manifest.proposed.At(d)
    && ((q.target != ConnectWebPreloaded || d == ReportLink) && r.t0.Some? ==> q.cutoverAt < r.t0.value + 900)
  }

  lemma MoveReread(h: History, op: Op, t': Table)
    requires op.Advance? && NextAdvance(h, Reread(op, |h| - 1)) == Some(t')
    ensures BothDomains(Last(h)) && Last(h).domains[MailAction].legacyWorker == op.move.manifest.legacyWorker
    ensures WindowOpen(op.move, Last(h).domains[MailAction], MailAction)
    ensures WindowOpen(op.move, Last(h).domains[ReportLink], ReportLink)
  {
  }

  lemma MoveNow(h: seq<Table>, ops: seq<Op>, op: Op, t': Table)
    requires Run(h, ops) && op.Advance? && Next(h, op) == Some(t')
    ensures BothDomains(Last(h)) && Last(h).domains[MailAction].legacyWorker == op.move.manifest.legacyWorker
    ensures WindowOpen(op.move, Last(h).domains[MailAction], MailAction)
    ensures WindowOpen(op.move, Last(h).domains[ReportLink], ReportLink)
  {
    AtomicRefinement(h, ops, op, t');
    MoveReread(h, op, t');
  }

  /** A ledger moves on only while both domains hold what the manifest proposes and, from the first stage that
      uses a domain's window on, within the rollout's overlap of its start; the records are those at the
      commit, whenever they were read. */
  lemma MovesInTime(h: seq<Table>, ops: seq<Op>, m: nat)
    requires Run(h, ops) && m < |ops| && ops[m].Advance?
    ensures BothDomains(h[m]) && h[m].domains[MailAction].legacyWorker == ops[m].move.manifest.legacyWorker
    ensures WindowOpen(ops[m].move, h[m].domains[MailAction], MailAction)
    ensures WindowOpen(ops[m].move, h[m].domains[ReportLink], ReportLink)
  {
    Committed(h, ops, m);
    RunPrefix(h, ops, m);
    MoveNow(h[..m + 1], ops[..m], ops[m], h[m + 1]);
  }

  // ---------------------------------------------------------------- who may sign from when on

  /** The runtime stage and the issuers a move to `target` leaves: none changes before the MCP cutover, which
      admits the MCP service and the worker, each with its rollback; the end adds the morning service for
      mail actions. */
  predicate Opened(c: Control, target: LedgerStage, d: Domain, before: DomainRecord, after: DomainRecord) {
    match target
    case McpStable => after.stage == Issuing && after.issuers == {c.mcp, c.mcpRollback, c.worker, c.workerRollback}
    case LedgerComplete =>
      && after.stage == RuntimeComplete
      && after.issuers == {c.mcp, c.mcpRollback, c.worker, c.workerRollback}
                          + if d == MailAction then {c.morning, c.morningRollback} else {}
    case _ => after.stage == Preload && after.issuers == before.issuers
  }

  lemma MoveWrites(h: History, op: Op, t': Table)
    requires op.Advance? && NextAdvance(h, op) == Some(t') && BothDomains(Last(h))
    ensures BothDomains(t')
    ensures Opened(op.move.control, op.move.target, MailAction, Last(h).domains[MailAction], t'.domains[MailAction])
    ensures Opened(op.move.control, op.move.target, ReportLink, Last(h).domains[ReportLink], t'.domains[ReportLink])
  {
  }

  /** Over any run: what every move of a ledger opens. */
  lemma MovesOpen(h: seq<Table>, ops: seq<Op>, m: nat)
    requires Run(h, ops) && m < |ops| && ops[m].Advance?
    ensures BothDomains(h[m]) && BothDomains(h[m + 1])
    ensures Opened(ops[m].move.control, ops[m].move.target, MailAction, h[m].domains[MailAction], h[m + 1].domains[MailAction])
    ensures Opened(ops[m].move.control, ops[m].move.target, ReportLink, h[m].domains[ReportLink], h[m + 1].domains[ReportLink])
  {
    MovesInTime(h, ops, m);
    Committed(h, ops, m);
    MoveWrites(h[..m + 1], ops[m], h[m + 1]);
  }

  /** A domain at the start of an epoch: it signs with the proposed key, nobody may issue, its window ends
      fifteen minutes and the longest lifetime after T0, and what was retired before stays so. */
  predicate Starts(q: InitializeRequest, d: Domain, before: Option<DomainRecord>, after: DomainRecord) {
    && after.epoch == q.epoch && ConfigOf(after) == q.manifest.proposed.At(d)
    && after.stage == Preload && after.issuers == {} && !after.previousRetired && !after.cleanupAuthorized
    && (after.deadline.Some? <==> after.t0.Some?)
    && (after.t0.Some? ==> after.deadline == Some(after.t0.value + 900 + MaxTtl(d)))
    && (before.Some? ==>
          && before.value.previousRetired && before.value.previous.None? && after.highWater == before.value.highWater
          && after.retiredGenerations == before.value.retiredGenerations
          && after.retiredProvenances == before.value.retiredProvenances)
  }

  lemma OpensStarts(t: Table, q: InitializeRequest, t': Table)
    requires Opens(t, q, t') && (BothDomains(t) || t.domains == map[])
    ensures BothDomains(t')
    ensures Starts(q, MailAction, Find(t.domains, MailAction), t'.domains[MailAction])
    ensures Starts(q, ReportLink, Find(t.domains, ReportLink), t'.domains[ReportLink])
  {
  }

  /** Over any run: how every epoch starts. */
  lemma EpochsStart(h: seq<Table>, ops: seq<Op>, m: nat)
    requires Run(h, ops) && m < |ops| && ops[m].Initialize?
    ensures BothDomains(h[m + 1])
    ensures Starts(ops[m].init, MailAction, Find(h[m].domains, MailAction), h[m + 1].domains[MailAction])
    ensures Starts(ops[m].init, ReportLink, Find(h[m].domains, ReportLink), h[m + 1].domains[ReportLink])
  {
    Committed(h, ops, m);
    EpochAt(h, ops, m);
    InitializeOpens(h[..m + 1], ops[m], h[m + 1]);
    OpensStarts(h[m], ops[m].init, h[m + 1]);
  }
}
