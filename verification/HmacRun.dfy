/** Interleaved runs of the rollout. A gate action reads records one at a time and commits later, so
    the records it decided on may come from any earlier states of the table; an action therefore
    carries, for every record it reads, the position in the history it read it at. Every interleaving
    of any number of gates and runtimes is a run of this kind. */
module HmacRun {
  import opened Optional
  import opened HmacKeyring
  import opened HmacTable

  // ------------------------------------------------- one action, given the snapshots it has read

  function TryInitialize(
    t: Table, q: InitializeRequest, seen: Both<Option<DomainRecord>>, prior: Option<LedgerRecord>): Option<Table>
  {
    if seen.mail.None? && seen.report.None? then
      if FirstEpochChecks(q) && FirstEpochHolds(t, q) then Some(FirstEpochEffect(t, q)) else None
    else if seen.mail.Some? && seen.report.Some? then
      var both := Both(seen.mail.value, seen.report.value);
      if NextEpochChecks(q, both, prior) && NextEpochHolds(t, q, both) then Some(NextEpochEffect(t, q, both)) else None
    else None
  }

  /** The MCP cutover additionally reads the ledger once before and one completed restart record. */
  datatype RestartProof = RestartProof(
    mode: RestartMode, plan: string, attempt: string, ledger: LedgerRecord, restart: RestartRecord)

  predicate RestartProven(q: TransitionRequest, proof: Option<RestartProof>) {
    q.target == McpStable ==>
      && proof.Some?
      && proof.value.ledger.stage == WorkerVerified
      && ProvesRestart(q.control, proof.value.mode, proof.value.restart, proof.value.plan, proof.value.attempt,
                       proof.value.ledger.updatedAt)
  }

  function TryTransition(
    t: Table, q: TransitionRequest, ledger: LedgerRecord, seen: Both<DomainRecord>, proof: Option<RestartProof>)
    : Option<Table>
  {
    if TransitionChecks(q, ledger, seen) && RestartProven(q, proof) && TransitionHolds(t, q, ledger) then
      Some(TransitionEffect(t, q))
    else None
  }

  function TryAuthorize(t: Table, q: AuthorizeRequest, seen: Both<DomainRecord>): Option<Table> {
    if AuthorizeChecks(q, seen) && AuthorizeHolds(t, q, seen) then Some(AuthorizeEffect(t, q, seen)) else None
  }

  function TryAbort(
    t: Table, q: ReconcileRequest, cleanup: CleanupRecord, restart: Option<RestartRecord>,
    intent: Option<IntentRecord>, seen: Both<DomainRecord>): Option<Table>
  {
    if AbortChecks(q, cleanup, restart, intent, seen) && AbortHolds(t, q, cleanup, restart, seen) then
      Some(AbortEffect(t, q, cleanup, restart))
    else None
  }

  function TryRebind(
    t: Table, q: ReconcileRequest, cleanup: CleanupRecord, restart: Option<RestartRecord>,
    intent: Option<IntentRecord>, successor: Option<IntentRecord>): Option<Table>
  {
    if RebindChecks(q, cleanup, restart, intent, successor) && RebindHolds(t, q, cleanup, restart) then
      Some(RebindEffect(t, q, cleanup, restart, ClassifyWorker(q.control, cleanup, restart).value))
    else None
  }

  function TryComplete(
    t: Table, q: CompleteRequest, ledger: LedgerRecord, cleanup: CleanupRecord, restart: RestartRecord,
    seen: Both<DomainRecord>): Option<Table>
  {
    if CompleteChecks(q, ledger, cleanup, restart, seen) && CompleteHolds(t, q, cleanup, seen) then
      Some(CompleteEffect(t, q, cleanup, seen.At(q.domain)))
    else None
  }

  function TryBind(t: Table, x: Target, b: Binding, seen: BindingHolder, before: BindingHolder): Option<Table> {
    if BindChecks(b, seen, before) && BindHolds(t, x, b, seen) then Some(BindEffect(t, x, b)) else None
  }

  function TryPreRestart(
    t: Table, q: RestartRequest, ledger: LedgerRecord, active: Both<Option<CleanupRecord>>, bound: Bindings,
    existing: Option<RestartRecord>): Option<Table>
  {
    if PreRestartChecks(q, ledger, active, bound, existing) && PreRestartHolds(t, q, existing) then
      Some(PreRestartEffect(t, q, existing))
    else None
  }

  function TryPostRestart(
    t: Table, q: RestartRequest, active: Both<Option<CleanupRecord>>, bound: Bindings, item: RestartRecord)
    : Option<Table>
  {
    if PostRestartChecks(q, active, bound, item) && PostRestartHolds(t, q, item) then Some(PostRestartEffect(t, q))
    else None
  }

  function TryReconcileRestart(t: Table, q: RestartRequest, item: RestartRecord): Option<Table> {
    if ReconcileRestartChecks(q, item) && ReconcileRestartHolds(t, q, item) then Some(ReconcileRestartEffect(t, q))
    else None
  }

  function TryCheckpoint(t: Table, d: Domain, x: Expectation, seen: DomainRecord, now: int): Option<Table> {
    if Matches(d, x, seen) && CheckpointHolds(t, d, seen) then Some(CheckpointEffect(t, d, x, seen, now)) else None
  }

  // ------------------------------------------------- actions and the history they read from

  type History = h: seq<Table> | |h| > 0 witness [EMPTY_TABLE]

  function Last(h: History): Table {
    h[|h| - 1]
  }

  datatype Op =
    | Initialize(init: InitializeRequest, at: Both<nat>, atLedger: nat)
    | Advance(move: TransitionRequest, atLedger: nat, at: Both<nat>, mode: RestartMode, plan: string, attempt: string,
              atFirst: nat, atRestart: nat)
    | Authorize(auth: AuthorizeRequest, atGuard: nat, atGuards: Both<nat>, atOther: nat, at: Both<nat>)
    | Abort(rec: ReconcileRequest, atCleanup: nat, atRestart: nat, atIntent: nat, at: Both<nat>)
    | Rebind(rec: ReconcileRequest, atCleanup: nat, atRestart: nat, atIntent: nat, atFresh: nat)
    | Complete(done: CompleteRequest, atLedger: nat, atCleanup: nat, atRestart: nat, at: Both<nat>)
    | Bind(target: Target, binding: Binding, atBefore: nat, atHolder: nat)
    | PreRestart(restart: RestartRequest, atLedger: nat, atGuards: Both<nat>, atBound: nat, atRestart: nat)
    | PostRestart(restart: RestartRequest, atGuards: Both<nat>, atBound: nat, atRestart: nat)
    | ReconcileRestart(restart: RestartRequest, atRestart: nat)
    | Checkpoint(domain: Domain, expected: Expectation, trustedNow: int, atDomain: nat)
    | IntentWrite(id: string, intent: IntentRecord)   // the image-deployment tooling's own table

  function DomainAt(h: History, k: nat, d: Domain): Option<DomainRecord> {
    if k < |h| then Find(h[k].domains, d) else None
  }

  function DomainsAt(h: History, at: Both<nat>): Option<Both<DomainRecord>> {
    var m, r := DomainAt(h, at.mail, MailAction), DomainAt(h, at.report, ReportLink);
    if m.Some? && r.Some? then Some(Both(m.value, r.value)) else None
  }

  function LedgerAt(h: History, k: nat, e: Epoch): Option<LedgerRecord> {
    if k < |h| then Find(h[k].ledgers, e) else None
  }

  function CleanupAt(h: History, k: nat, e: Epoch, d: Domain): Option<CleanupRecord> {
    if k < |h| then Find(h[k].cleanups, (e, d)) else None
  }

  function ActiveAt(h: History, at: Both<nat>, e: Epoch): Both<Option<CleanupRecord>> {
    Both(CleanupAt(h, at.mail, e, MailAction), CleanupAt(h, at.report, e, ReportLink))
  }

  function RestartAt(h: History, k: nat, key: (Epoch, Provenance)): Option<RestartRecord> {
    if k < |h| then Find(h[k].restarts, key) else None
  }

  function IntentAt(h: History, k: nat, id: string): Option<IntentRecord> {
    if k < |h| then Find(h[k].intents, id) else None
  }

  function HolderAt(h: History, k: nat, x: Target): Option<BindingHolder> {
    if k < |h| then Holder(h[k], x) else None
  }

  /** The record that holds the deployment intent: the one authorized cleanup, else the ledger. */
  function IntentHolder(e: Epoch, active: Both<Option<CleanupRecord>>): Target {
    if IsAuthorized(active.mail) then OnCleanup(e, MailAction)
    else if IsAuthorized(active.report) then OnCleanup(e, ReportLink)
    else OnLedger(e)
  }

  function RestartProofAt(h: History, op: Op): Option<RestartProof>
    requires op.Advance?
  {
    var l := LedgerAt(h, op.atFirst, op.move.control.epoch);
    var r := RestartAt(h, op.atRestart, RestartKey(op.move.control, op.mode));
    if l.Some? && r.Some? then Some(RestartProof(op.mode, op.plan, op.attempt, l.value, r.value)) else None
  }

  function NextInitialize(h: History, op: Op): Option<Table>
    requires op.Initialize?
  {
    var seen := Both(DomainAt(h, op.at.mail, MailAction), DomainAt(h, op.at.report, ReportLink));
    var prior := if seen.mail.Some? then LedgerAt(h, op.atLedger, seen.mail.value.epoch) else None;
    if op.at.mail < |h| && op.at.report < |h| then TryInitialize(Last(h), op.init, seen, prior) else None
  }

  function NextAdvance(h: History, op: Op): Option<Table>
    requires op.Advance?
  {
    var l, seen := LedgerAt(h, op.atLedger, op.move.control.epoch), DomainsAt(h, op.at);
    if l.Some? && seen.Some? then TryTransition(Last(h), op.move, l.value, seen.value, RestartProofAt(h, op)) else None
  }

  /** The guard and the manifest check that precede the retry loop, each on its own reads. */
  predicate GuardPassed(h: History, q: AuthorizeRequest, atGuard: nat, atGuards: Both<nat>) {
    var l := LedgerAt(h, atGuard, q.control.epoch);
    && atGuards.mail < |h| && atGuards.report < |h|
    && l.Some? && PrepareGuard(l.value, ActiveAt(h, atGuards, q.control.epoch))
  }

  predicate ManifestPassed(h: History, q: AuthorizeRequest, atOther: nat) {
    var o := DomainAt(h, atOther, Other(q.domain));
    o.Some? && CleanupManifestAccepted(q, o.value)
  }

  function NextAuthorize(h: History, op: Op): Option<Table>
    requires op.Authorize?
  {
    var seen := DomainsAt(h, op.at);
    if seen.Some? && GuardPassed(h, op.auth, op.atGuard, op.atGuards) && ManifestPassed(h, op.auth, op.atOther) then
      TryAuthorize(Last(h), op.auth, seen.value)
    else None
  }

  function NextAbort(h: History, op: Op): Option<Table>
    requires op.Abort?
  {
    var q := op.rec;
    var c, seen := CleanupAt(h, op.atCleanup, q.control.epoch, q.domain), DomainsAt(h, op.at);
    if c.Some? && seen.Some? && op.atRestart < |h| then
      TryAbort(Last(h), q, c.value, RestartAt(h, op.atRestart, RestartKey(q.control, CleanupMode)),
               IntentAt(h, op.atIntent, c.value.intent), seen.value)
    else None
  }

  function NextRebind(h: History, op: Op): Option<Table>
    requires op.Rebind?
  {
    var q := op.rec;
    var c := CleanupAt(h, op.atCleanup, q.control.epoch, q.domain);
    if c.Some? && op.atRestart < |h| then
      TryRebind(Last(h), q, c.value, RestartAt(h, op.atRestart, RestartKey(q.control, CleanupMode)),
                IntentAt(h, op.atIntent, c.value.intent), IntentAt(h, op.atFresh, q.freshIntent))
    else None
  }

  function NextComplete(h: History, op: Op): Option<Table>
    requires op.Complete?
  {
    var q := op.done;
    var l, c := LedgerAt(h, op.atLedger, q.control.epoch), CleanupAt(h, op.atCleanup, q.control.epoch, q.domain);
    var r, seen := RestartAt(h, op.atRestart, RestartKey(q.control, q.restartMode)), DomainsAt(h, op.at);
    if l.Some? && c.Some? && seen.Some? && r.Some? then
      TryComplete(Last(h), q, l.value, c.value, r.value, seen.value)
    else None
  }

  function NextBind(h: History, op: Op): Option<Table>
    requires op.Bind?
  {
    var s, p := HolderAt(h, op.atHolder, op.target), HolderAt(h, op.atBefore, op.target);
    if s.Some? && p.Some? then TryBind(Last(h), op.target, op.binding, s.value, p.value) else None
  }

  function NextPreRestart(h: History, op: Op): Option<Table>
    requires op.PreRestart?
  {
    var q := op.restart;
    var l, active := LedgerAt(h, op.atLedger, q.control.epoch), ActiveAt(h, op.atGuards, q.control.epoch);
    var b := HolderAt(h, op.atBound, IntentHolder(q.control.epoch, active));
    if l.Some? && b.Some? && op.atGuards.mail < |h| && op.atGuards.report < |h| && op.atRestart < |h| then
      TryPreRestart(Last(h), q, l.value, active, b.value.bound,
                    RestartAt(h, op.atRestart, RestartKey(q.control, q.mode)))
    else None
  }

  function NextPostRestart(h: History, op: Op): Option<Table>
    requires op.PostRestart?
  {
    var q := op.restart;
    var active := ActiveAt(h, op.atGuards, q.control.epoch);
    var b := HolderAt(h, op.atBound, IntentHolder(q.control.epoch, active));
    var r := RestartAt(h, op.atRestart, RestartKey(q.control, q.mode));
    if b.Some? && r.Some? && op.atGuards.mail < |h| && op.atGuards.report < |h| then
      TryPostRestart(Last(h), q, active, b.value.bound, r.value)
    else None
  }

  function NextReconcileRestart(h: History, op: Op): Option<Table>
    requires op.ReconcileRestart?
  {
    var r := RestartAt(h, op.atRestart, RestartKey(op.restart.control, op.restart.mode));
    if r.Some? then TryReconcileRestart(Last(h), op.restart, r.value) else None
  }

  function NextCheckpoint(h: History, op: Op): Option<Table>
    requires op.Checkpoint?
  {
    var r := DomainAt(h, op.atDomain, op.domain);
    if r.Some? then TryCheckpoint(Last(h), op.domain, op.expected, r.value, op.trustedNow) else None
  }

  function NextIntentWrite(h: History, op: Op): Option<Table>
    requires op.IntentWrite?
  {
    Some(Last(h).(intents := Last(h).intents[op.id := op.intent]))
  }

  /** The table after the action, or None when a check fails or the transaction is cancelled. */
  function Next(h: History, op: Op): Option<Table> {
    match op
    case Initialize(_, _, _) => NextInitialize(h, op)
    case Advance(_, _, _, _, _, _, _, _) => NextAdvance(h, op)
    case Authorize(_, _, _, _, _) => NextAuthorize(h, op)
    case Abort(_, _, _, _, _) => NextAbort(h, op)
    case Rebind(_, _, _, _, _) => NextRebind(h, op)
    case Complete(_, _, _, _, _) => NextComplete(h, op)
    case Bind(_, _, _, _) => NextBind(h, op)
    case PreRestart(_, _, _, _, _) => NextPreRestart(h, op)
    case PostRestart(_, _, _, _) => NextPostRestart(h, op)
    case ReconcileRestart(_, _) => NextReconcileRestart(h, op)
    case Checkpoint(_, _, _, _) => NextCheckpoint(h, op)
    case IntentWrite(_, _) => NextIntentWrite(h, op)
  }

  /** What initializing an epoch does to the table. */
  predicate Opens(t: Table, q: InitializeRequest, t': Table) {
    && q.epoch !in t.ledgers && q.epoch in t'.ledgers && t'.ledgers[q.epoch].stage == Initialized
    && t'.ledgers == t.ledgers[q.epoch := t'.ledgers[q.epoch]]
    && t'.cleanups == t.cleanups && t'.restarts == t.restarts && t'.retirements == t.retirements
    && (if MailAction in t.domains && ReportLink in t.domains then
          && t.domains[MailAction].epoch != q.epoch && t.domains[ReportLink].epoch != q.epoch
          && t.domains[MailAction].previousRetired && t.domains[MailAction].previous.None?
          && t.domains[ReportLink].previousRetired && t.domains[ReportLink].previous.None?
          && t'.domains == t.domains[MailAction := NextDomain(MailAction, q, t.domains[MailAction])]
                                    [ReportLink := NextDomain(ReportLink, q, t.domains[ReportLink])]
        else
          && MailAction !in t.domains && ReportLink !in t.domains
          && t'.domains == t.domains[MailAction := FirstDomain(MailAction, q)][ReportLink := FirstDomain(ReportLink, q)])
  }

  lemma TryInitializeOpens(
    t: Table, q: InitializeRequest, seen: Both<Option<DomainRecord>>, prior: Option<LedgerRecord>, t': Table)
    requires TryInitialize(t, q, seen, prior) == Some(t')
    ensures Opens(t, q, t')
  {
    if seen.mail.None? {
      assert FirstEpochHolds(t, q) && t' == FirstEpochEffect(t, q);
    } else {
      var both := Both(seen.mail.value, seen.report.value);
      assert NextEpochHolds(t, q, both) && t' == NextEpochEffect(t, q, both);
    }
  }

  lemma InitializeOpens(h: History, op: Op, t': Table)
    requires op.Initialize? && NextInitialize(h, op) == Some(t')
    ensures Opens(Last(h), op.init, t')
  {
    var seen := Both(DomainAt(h, op.at.mail, MailAction), DomainAt(h, op.at.report, ReportLink));
    var prior := if seen.mail.Some? then LedgerAt(h, op.atLedger, seen.mail.value.epoch) else None;
    TryInitializeOpens(Last(h), op.init, seen, prior, t');
  }

  predicate StepAt(h: seq<Table>, ops: seq<Op>, i: nat)
    requires |h| == |ops| + 1 && i < |ops|
  {
    Next(h[..i + 1], ops[i]) == Some(h[i + 1])
  }

  /** A run: the tables from the empty one on, and the committed actions between them. */
  predicate Run(h: seq<Table>, ops: seq<Op>) {
    && |h| == |ops| + 1
    && h[0] == EMPTY_TABLE
    && forall i :: 0 <= i < |ops| ==> StepAt(h, ops, i)
  }

  lemma RunPrefix(h: seq<Table>, ops: seq<Op>, i: nat)
    requires Run(h, ops) && i <= |ops|
    ensures Run(h[..i + 1], ops[..i]) && Last(h[..i + 1]) == h[i]
  {
    var h', ops' := h[..i + 1], ops[..i];
    forall k | 0 <= k < |ops'|
      ensures StepAt(h', ops', k)
    {
      assert StepAt(h, ops, k);
      assert h'[..k + 1] == h[..k + 1];
    }
  }

  lemma RunExtends(h: seq<Table>, ops: seq<Op>, op: Op, t: Table)
    requires Run(h, ops) && Next(h, op) == Some(t)
    ensures Run(h + [t], ops + [op])
  {
    var h', ops' := h + [t], ops + [op];
    forall k | 0 <= k < |ops'|
      ensures StepAt(h', ops', k)
    {
      if k < |ops| {
        assert StepAt(h, ops, k);
        assert h'[..k + 1] == h[..k + 1];
      } else {
        assert h'[..k + 1] == h;
      }
    }
  }
}
