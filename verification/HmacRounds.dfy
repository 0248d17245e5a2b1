/** A whole rotation epoch, from its initialization over the rollout to the cleanup of both domains, as
    a round that can be added to any run whose last epoch is closed. */
module HmacRounds {
  import opened Optional
  import opened HmacKeyring
  import opened HmacTable
  import opened HmacRun
  import opened HmacInvariant
  import opened HmacAtomic
  import opened HmacCleanup
  import opened HmacIssuers
  import opened HmacReach

  const LEGACY: Generation := "l@1"

  /** A control file whose provenances are the expected ones, of a candidate and a rollback artifact. */
  function ControlFor(e: Epoch, cfg: Both<Config>, a: string, b: string): Control {
    Control(e, ExpectedProvenance(Mcp, a, e, cfg, None), ExpectedProvenance(Mcp, b, e, cfg, None),
            ExpectedProvenance(ConnectWeb, a, e, cfg, None), ExpectedProvenance(ConnectWeb, b, e, cfg, None),
            ExpectedProvenance(MorningDigest, a, e, cfg, None), ExpectedProvenance(MorningDigest, b, e, cfg, None),
            ExpectedProvenance(Worker, a, e, cfg, None), ExpectedProvenance(Worker, b, e, cfg, None))
  }

  lemma ControlChecked(e: Epoch, cfg: Both<Config>, a: string, b: string)
    ensures Attested(ControlFor(e, cfg, a, b), cfg, None) && BindsEpoch(ControlFor(e, cfg, a, b))
    ensures forall d, p :: p in Issuers(ControlFor(e, cfg, a, b)).At(d) ==> p.epoch == e && p.artifact in {a, b}
  {
    AttestedBinds(ControlFor(e, cfg, a, b), cfg, None);
    var c := ControlFor(e, cfg, a, b);
    assert forall p <- SharedIssuers(c) :: p.artifact in {a, b};
    forall d, p | p in Issuers(c).At(d)
      ensures p.epoch == e && p.artifact in {a, b}
    {
      match d { case MailAction => case ReportLink => }
    }
  }

  /** Signing keys of two secrets, neither the legacy one nor a Slack secret. */
  predicate Named(g: Both<Generation>) {
    && GenerationIdentifier(g.mail) && GenerationIdentifier(g.report)
    && Resource(g.mail) == "m" && Resource(g.report) == "r" && '@' in g.mail && '@' in g.report
  }

  lemma LegacyResource()
    ensures Resource(LEGACY) == "l" && '@' in LEGACY && !MentionsSlack("m") && !MentionsSlack("r")
  {
    assert "l@1"[..2] == "l@" && "l@"[..1] == "l";
    assert "l@1"[1] == '@';
    assert forall i :: !SlackAt("m", i) && !SlackAt("r", i);
  }

  /** Where an epoch stands: its configurations, the generations retired so far, the stage, the artifacts
      of the control file in force, those whose provenances are retired, and those of restarted workers. */
  datatype Phase = Phase(
    e: Epoch, cfg: Both<Config>, used: Both<set<Generation>>, stage: LedgerStage, at: int, bound: Bindings,
    with: Both<Config>, a: string, b: string, gone: set<string>, made: set<string>)

  function ControlOf(x: Phase): Control {
    ControlFor(x.e, x.with, x.a, x.b)
  }

  function IssuersIn(x: Phase): Both<set<Provenance>> {
    if x.stage == McpStable then Both(SharedIssuers(ControlOf(x)), SharedIssuers(ControlOf(x)))
    else if x.stage == LedgerComplete then Issuers(ControlOf(x))
    else Both({}, {})
  }

  ghost predicate DomainIn(r: DomainRecord, d: Domain, x: Phase) {
    && r.epoch == x.e && ConfigOf(r) == x.cfg.At(d) && r.deadline == DeadlineOf(d, x.cfg.At(d)) && r.legacyWorker.None?
    && r.stage == RuntimeStageOf(x.stage) && r.issuers == IssuersIn(x).At(d) && !r.cleanupAuthorized
    && r.retiredGenerations <= x.used.At(d)
    && (r.previous.None? ==> r.previousRetired)
    && (forall p <- r.retiredProvenances :: p.epoch == x.e ==> p.artifact in x.gone)
  }

  ghost predicate DomainsIn(t: Table, x: Phase) {
    && BothDomains(t)
    && DomainIn(t.domains[MailAction], MailAction, x) && DomainIn(t.domains[ReportLink], ReportLink, x)
  }

  ghost predicate LedgerIn(t: Table, x: Phase) {
    && x.e in t.ledgers && t.ledgers[x.e].stage == x.stage && t.ledgers[x.e].bound == x.bound
    && (x.stage != Initialized ==> t.ledgers[x.e].updatedAt == x.at)
  }

  /** Cleanups of the epoch are finished, and its restarts are those of the artifacts named. */
  ghost predicate RecordsIn(t: Table, x: Phase) {
    && (forall d :: (x.e, d) in t.cleanups ==>
          t.cleanups[(x.e, d)].stage == CleanupComplete && x.cfg.At(d).previous.None?)
    && (forall p :: (x.e, p) in t.restarts ==> p.artifact in x.made)
  }

  ghost predicate In(t: Table, x: Phase) {
    DomainsIn(t, x) && LedgerIn(t, x) && RecordsIn(t, x)
  }

  // ---------------------------------------------------------------- opening an epoch

  function Rotated(p: Both<Generation>, g: Both<Generation>, now: int): Both<Config> {
    Both(Config(g.mail, Some(p.mail), Some(now)), Config(g.report, Some(p.report), Some(now)))
  }

  function Settled(p: Both<Generation>): Both<Config> {
    Both(Config(p.mail, None, None), Config(p.report, None, None))
  }

  function Opening(e: Epoch, p: Both<Generation>, g: Both<Generation>, now: int): InitializeRequest {
    InitializeRequest(e, Manifest(Settled(p), Rotated(p, g, now), LEGACY, None), Settled(p), now, now)
  }

  /** Clock readings that leave room for a whole round. */
  predicate Timely(now: int) {
    0 <= now <= MAX_UNIX_TIMESTAMP - 1_000_000
  }

  lemma Accepted(e: Epoch, p: Both<Generation>, g: Both<Generation>, now: int)
    requires Named(p) && Named(g) && p.mail != g.mail && p.report != g.report && Timely(now)
    ensures TransitionAccepted(Opening(e, p, g, now).manifest, Settled(p), now)
  {
    LegacyResource();
    var m := Opening(e, p, g, now).manifest;
    forall d: Domain
      ensures ValidateTransition(Settled(p).At(d), m.proposed.At(d), now, MaxTtl(d)) == Ok
      ensures Resource(m.proposed.At(d).primary) != Resource(LEGACY) && !MentionsSlack(Resource(m.proposed.At(d).primary))
    {
      TransitionContract(Settled(p).At(d), m.proposed.At(d), now, MaxTtl(d));
    }
    assert p.mail != LEGACY;
  }

  /** The phase an epoch opens with. */
  function Opened(e: Epoch, p: Both<Generation>, g: Both<Generation>, used: Both<set<Generation>>, now: int): Phase {
    Phase(e, Rotated(p, g, now), used, Initialized, now, NO_BINDINGS, Rotated(p, g, now), "b", "a", {}, {})
  }

  lemma FirstOpens(e: Epoch, p: Both<Generation>, g: Both<Generation>, now: int) returns (t: Table)
    requires Named(p) && Named(g) && p.mail != g.mail && p.report != g.report && Timely(now)
    ensures Reachable(t, [e]) && In(t, Opened(e, p, g, Both({}, {}), now))
  {
    var q := Opening(e, p, g, now);
    Accepted(e, p, g, now);
    t := FirstEpochEffect(EMPTY_TABLE, q);
    ReachEmpty();
    ReachInitialize(EMPTY_TABLE, [], q, None, t);
    assert [] + [e] == [e];
  }

  predicate Closed(x: Phase, p: Both<Generation>) {
    x.stage == LedgerComplete && x.cfg == Settled(p)
  }

  lemma DomainOpens(r: DomainRecord, d: Domain, x: Phase, q: InitializeRequest, y: Phase, known: set<Epoch>)
    requires DomainIn(r, d, x) && IssuerGood(r, known) && y.e !in known && q.epoch == y.e
    requires y.cfg == q.manifest.proposed && y.used == x.used && y.stage == Initialized && y.cfg.At(d).previous.Some?
    requires q.manifest.legacyWorker.None?
    ensures DomainIn(NextDomain(d, q, r), d, y)
  {
  }

  lemma DomainReady(r: DomainRecord, d: Domain, x: Phase, p: Both<Generation>, g: Both<Generation>, q: InitializeRequest)
    requires DomainIn(r, d, x) && Closed(x, p) && q.epoch != x.e && q.deployed == Settled(p)
    requires q.manifest.proposed.At(d).primary == g.At(d) && g.At(d) !in x.used.At(d)
    ensures ReadyForNextEpoch(d, q, r)
  {
  }

  lemma FreshRecords(t: Table, c: seq<Epoch>, e: Epoch)
    requires Good(t, c) && e !in c
    ensures e !in t.ledgers
    ensures forall d: Domain :: (e, d) !in t.cleanups
    ensures forall p: Provenance :: (e, p) !in t.restarts
  {
  }

  lemma NoHistory(t: Table, c: seq<Epoch>, d: Domain)
    requires Good(t, c) && c != []
    ensures d in t.domains && t.domains[d].epoch == c[|c| - 1] && (d, c[|c| - 1]) !in t.histories
  {
    match d { case MailAction => case ReportLink => }
  }

  ghost predicate Ready(t: Table, d: Domain, q: InitializeRequest) {
    d in t.domains && ReadyForNextEpoch(d, q, t.domains[d]) && NextEpochDomainHolds(t, d, q, t.domains[d])
  }

  lemma DomainHolds(
    t: Table, c: seq<Epoch>, d: Domain, x: Phase, q: InitializeRequest, p: Both<Generation>, g: Both<Generation>)
    requires Good(t, c) && c != [] && d in t.domains && DomainIn(t.domains[d], d, x) && Closed(x, p)
    requires q.epoch !in c && q.deployed == Settled(p)
    requires q.manifest.proposed.At(d).primary == g.At(d) && g.At(d) !in x.used.At(d)
    ensures Ready(t, d, q)
  {
    NoHistory(t, c, d);
    DomainReady(t.domains[d], d, x, p, g, q);
  }

  lemma NextTried(t: Table, q: InitializeRequest, x: Phase, seen: Both<DomainRecord>)
    requires BothDomains(t) && seen == Domains(t) && seen.mail.epoch == x.e && seen.report.epoch == x.e
    requires TransitionAccepted(q.manifest, q.deployed, q.checkedAt) && q.epoch !in t.ledgers
    requires x.e in t.ledgers && t.ledgers[x.e].stage == LedgerComplete
    requires Ready(t, MailAction, q) && Ready(t, ReportLink, q)
    ensures NextEpochHolds(t, q, seen)
    ensures TryInitialize(t, q, Both(Some(seen.mail), Some(seen.report)), Find(t.ledgers, x.e)) == Some(NextEpochEffect(t, q, seen))
  {
  }

  lemma NextIn(t: Table, x: Phase, q: InitializeRequest, y: Phase, seen: Both<DomainRecord>)
    requires In(t, x) && IssuersGood(t) && y.e !in t.ledgers && q.epoch == y.e && NextEpochHolds(t, q, seen)
    requires forall d: Domain :: (y.e, d) !in t.cleanups
    requires forall p: Provenance :: (y.e, p) !in t.restarts
    requires y.cfg == q.manifest.proposed && y.used == x.used && y.stage == Initialized && y.bound == NO_BINDINGS
    requires y.cfg.mail.previous.Some? && y.cfg.report.previous.Some? && q.manifest.legacyWorker.None?
    ensures In(NextEpochEffect(t, q, seen), y)
  {
    DomainOpens(t.domains[MailAction], MailAction, x, q, y, t.ledgers.Keys);
    DomainOpens(t.domains[ReportLink], ReportLink, x, q, y, t.ledgers.Keys);
  }

  lemma NextReady(t: Table, c: seq<Epoch>, x: Phase, q: InitializeRequest, p: Both<Generation>, g: Both<Generation>)
    requires Good(t, c) && In(t, x) && Closed(x, p) && q.epoch !in c && q.deployed == Settled(p)
    requires q.manifest.proposed.mail.primary == g.mail && q.manifest.proposed.report.primary == g.report
    requires g.mail !in x.used.mail && g.report !in x.used.report
    ensures q.epoch !in t.ledgers && Ready(t, MailAction, q) && Ready(t, ReportLink, q)
  {
    assert c != [];
    FreshRecords(t, c, q.epoch);
    DomainHolds(t, c, MailAction, x, q, p, g);
    DomainHolds(t, c, ReportLink, x, q, p, g);
  }

  lemma NextOpens(t: Table, c: seq<Epoch>, x: Phase, e: Epoch, p: Both<Generation>, g: Both<Generation>, now: int)
    returns (t': Table)
    requires Reachable(t, c) && In(t, x) && Closed(x, p) && e !in c && Timely(now)
    requires Named(p) && Named(g) && p.mail != g.mail && p.report != g.report
    requires g.mail !in x.used.mail && g.report !in x.used.report
    ensures Reachable(t', c + [e]) && In(t', Opened(e, p, g, x.used, now))
  {
    var q, seen := Opening(e, p, g, now), Domains(t);
    Accepted(e, p, g, now);
    ReachableGood(t, c);
    NextReady(t, c, x, q, p, g);
    NextTried(t, q, x, seen);
    t' := NextEpochEffect(t, q, seen);
    ReachInitialize(t, c, q, Find(t.ledgers, x.e), t');
    FreshRecords(t, c, e);
    NextIn(t, x, q, Opened(e, p, g, x.used, now), seen);
  }

  // ---------------------------------------------------------------- the rollout

  function Moved(x: Phase, target: LedgerStage, now: int): Phase {
    x.(stage := target, at := now)
  }

  function MoveTo(x: Phase, target: LedgerStage, now: int): TransitionRequest {
    TransitionRequest(ControlOf(x), target, Manifest(x.cfg, x.cfg, LEGACY, None), now, now)
  }

  /** The overlap both services cut over in is still open. */
  predicate OverlapOpen(x: Phase, now: int) {
    && (x.cfg.mail.t0.Some? ==> now < x.cfg.mail.t0.value + ROLLOUT_OVERLAP)
    && (x.cfg.report.t0.Some? ==> now < x.cfg.report.t0.value + ROLLOUT_OVERLAP)
  }

  lemma DomainMoves(r: DomainRecord, d: Domain, x: Phase, target: LedgerStage, now: int)
    requires DomainIn(r, d, x) && target != Initialized && x.stage == ExpectedStage(target)
    ensures DomainIn(StagedDomain(MoveTo(x, target, now), d, r), d, Moved(x, target, now))
  {
  }

  lemma MoveTried(t: Table, x: Phase, target: LedgerStage, now: int, proof: Option<RestartProof>)
    requires In(t, x) && target != Initialized && x.stage == ExpectedStage(target) && OverlapOpen(x, now)
    requires RestartProven(MoveTo(x, target, now), proof)
    ensures TryTransition(t, MoveTo(x, target, now), t.ledgers[x.e], Domains(t), proof)
            == Some(TransitionEffect(t, MoveTo(x, target, now)))
  {
  }

  lemma MoveIn(t: Table, x: Phase, target: LedgerStage, now: int)
    requires In(t, x) && target != Initialized && x.stage == ExpectedStage(target)
    ensures In(TransitionEffect(t, MoveTo(x, target, now)), Moved(x, target, now))
  {
    DomainMoves(t.domains[MailAction], MailAction, x, target, now);
    DomainMoves(t.domains[ReportLink], ReportLink, x, target, now);
  }

  /** The restart that the cutover asks for. */
  ghost predicate RestartDone(t: Table, x: Phase) {
    var k := RestartKey(ControlOf(x), CandidateMode);
    k in t.restarts && ProvesRestart(ControlOf(x), CandidateMode, t.restarts[k], "p", "1", x.at)
  }

  /** One stage of the ledger; the cutover needs a restart of the epoch's worker on record. */
  lemma Moves(t: Table, c: seq<Epoch>, x: Phase, target: LedgerStage, now: int) returns (t': Table)
    requires Reachable(t, c) && In(t, x) && target != Initialized && x.stage == ExpectedStage(target)
    requires OverlapOpen(x, now)
    requires target == McpStable ==> RestartDone(t, x)
    ensures Reachable(t', c) && In(t', Moved(x, target, now)) && t'.restarts == t.restarts
  {
    var q := MoveTo(x, target, now);
    ControlChecked(x.e, x.with, x.a, x.b);
    MoveTried(t, x, target, now, ProofNow(t, q, CandidateMode, "p", "1"));
    MoveIn(t, x, target, now);
    t' := TransitionEffect(t, q);
    ReachAdvance(t, c, q, CandidateMode, "p", "1", t');
  }

  // ---------------------------------------------------------------- restarting the worker

  function Request(x: Control, mode: RestartMode, artifact: string, plan: string, now: int): RestartRequest {
    RestartRequest(x, mode, artifact, artifact, "n", plan, "1", now, now)
  }

  /** The record of a restart requested at `now` and completed ten seconds later. */
  function Restarted(x: Control, mode: RestartMode, artifact: string, plan: string, now: int): RestartRecord {
    var k := RestartKey(x, mode);
    RestartRecord(mode, k.0, k.1, artifact, artifact, plan, "1", "n", Completed, 2, now, now, Some(now + 10), None)
  }

  lemma RequestTried(t: Table, x: Control, mode: RestartMode, artifact: string, plan: string, now: int, b: Bindings)
    requires x.epoch in t.ledgers && Rank(t.ledgers[x.epoch].stage) >= Rank(WorkerVerified)
    requires ActiveModeAllowed(mode, ActiveNow(t, x.epoch)) && IntentBound(b, KindOf(mode), Worker, plan, "1")
    requires RestartKey(x, mode) !in t.restarts
    ensures TryPreRestart(t, Request(x, mode, artifact, plan, now), t.ledgers[x.epoch], ActiveNow(t, x.epoch), b, None)
            == Some(PreRestartEffect(t, Request(x, mode, artifact, plan, now), None))
  {
  }

  lemma CompletionTried(t: Table, x: Control, mode: RestartMode, artifact: string, plan: string, now: int, b: Bindings)
    requires RestartKey(x, mode) in t.restarts && IntentBound(b, KindOf(mode), Worker, plan, "1")
    requires t.restarts[RestartKey(x, mode)]
             == Restarted(x, mode, artifact, plan, now).(stage := Requested, revision := 1, completedAt := None)
    requires ActiveModeAllowed(mode, ActiveNow(t, x.epoch))
    ensures TryPostRestart(t, Request(x, mode, artifact, plan, now + 10), ActiveNow(t, x.epoch), b,
                           t.restarts[RestartKey(x, mode)])
            == Some(t.(restarts := t.restarts[RestartKey(x, mode) := Restarted(x, mode, artifact, plan, now)]))
  {
  }

  function HolderNow(t: Table, e: Epoch): Option<BindingHolder> {
    Holder(t, IntentHolder(e, ActiveNow(t, e)))
  }

  /** A restart, requested and completed. */
  lemma Restarts(
    t: Table, c: seq<Epoch>, x: Control, mode: RestartMode, artifact: string, plan: string, now: int, b: Bindings)
    returns (t': Table)
    requires Reachable(t, c) && x.epoch in t.ledgers && Rank(t.ledgers[x.epoch].stage) >= Rank(WorkerVerified)
    requires ActiveModeAllowed(mode, ActiveNow(t, x.epoch)) && IntentBound(b, KindOf(mode), Worker, plan, "1")
    requires HolderNow(t, x.epoch).Some? && b == HolderNow(t, x.epoch).value.bound
    requires RestartKey(x, mode) !in t.restarts
    ensures Reachable(t', c)
    ensures t' == t.(restarts := t.restarts[RestartKey(x, mode) := Restarted(x, mode, artifact, plan, now)])
  {
    var k, q := RestartKey(x, mode), Request(x, mode, artifact, plan, now);
    var m := PreRestartEffect(t, q, None);
    RequestTried(t, x, mode, artifact, plan, now, b);
    ReachPreRestart(t, c, q, b, m);
    assert ActiveNow(m, x.epoch) == ActiveNow(t, x.epoch) && HolderNow(m, x.epoch) == HolderNow(t, x.epoch);
    CompletionTried(m, x, mode, artifact, plan, now, b);
    t' := m.(restarts := m.restarts[k := Restarted(x, mode, artifact, plan, now)]);
    ReachPostRestart(m, c, q.(checkedAt := now + 10, now := now + 10), b, t');
    assert t'.restarts == t.restarts[k := Restarted(x, mode, artifact, plan, now)];
  }

  const WORKER_INTENT := BindIntent(Candidate, Worker, "p", "1")

  lemma IntentBinds(t: Table, c: seq<Epoch>, x: Phase) returns (t': Table)
    requires Reachable(t, c) && In(t, x) && x.bound == NO_BINDINGS
    ensures Reachable(t', c) && In(t', x.(bound := WithBinding(WORKER_INTENT, NO_BINDINGS)))
  {
    t' := BindEffect(t, OnLedger(x.e), WORKER_INTENT);
    ReachBind(t, c, OnLedger(x.e), WORKER_INTENT, t');
  }

  /** No cleanup of the epoch is going on, so its ledger holds the intents. */
  lemma LedgerHolds(t: Table, x: Phase)
    requires In(t, x)
    ensures !IsAuthorized(ActiveNow(t, x.e).mail) && !IsAuthorized(ActiveNow(t, x.e).report)
    ensures HolderNow(t, x.e).Some? && HolderNow(t, x.e).value.bound == x.bound
  {
  }

  /** The phase at the end of the rollout. */
  function RolledOut(x: Phase, now: int): Phase {
    x.(stage := LedgerComplete, at := now + 40, bound := WithBinding(WORKER_INTENT, NO_BINDINGS), made := {x.a})
  }

  lemma WorkerRestarts(t: Table, c: seq<Epoch>, x: Phase, now: int) returns (t': Table)
    requires Reachable(t, c) && In(t, x) && x.stage == WorkerVerified && x.made == {} && x.at <= now
    requires x.bound == WithBinding(WORKER_INTENT, NO_BINDINGS)
    ensures Reachable(t', c) && In(t', x.(made := {x.a})) && RestartDone(t', x.(made := {x.a}))
  {
    LedgerHolds(t, x);
    t' := Restarts(t, c, ControlOf(x), CandidateMode, x.a, "p", now, x.bound);
  }

  function Verified(x: Phase, now: int): Phase {
    x.(stage := WorkerVerified, at := now, bound := WithBinding(WORKER_INTENT, NO_BINDINGS))
  }

  lemma Verifies(t: Table, c: seq<Epoch>, x: Phase, now: int) returns (t': Table)
    requires Reachable(t, c) && In(t, x) && x.stage == Initialized && x.bound == NO_BINDINGS && OverlapOpen(x, now)
    ensures Reachable(t', c) && In(t', Verified(x, now))
  {
    var x1 := Moved(x, ConnectWebPreloaded, now);
    var t1 := Moves(t, c, x, ConnectWebPreloaded, now);
    var t2 := Moves(t1, c, x1, WorkerVerified, now);
    t' := IntentBinds(t2, c, Moved(x1, WorkerVerified, now));
  }

  lemma CutsOver(t: Table, c: seq<Epoch>, x: Phase, now: int) returns (t': Table)
    requires Reachable(t, c) && In(t, x) && x.stage == WorkerVerified && OverlapOpen(x, now + 10) && RestartDone(t, x)
    ensures Reachable(t', c) && In(t', Moved(x, LedgerComplete, now + 10))
  {
    var m := Moves(t, c, x, McpStable, now);
    t' := Moves(m, c, Moved(x, McpStable, now), LedgerComplete, now + 10);
  }

  /** From an open epoch to a rolled-out one. */
  lemma RollsOut(t: Table, c: seq<Epoch>, x: Phase, now: int) returns (t': Table)
    requires Reachable(t, c) && In(t, x) && x.stage == Initialized && x.bound == NO_BINDINGS && x.made == {}
    requires OverlapOpen(x, now + 40)
    ensures Reachable(t', c) && In(t', RolledOut(x, now))
  {
    PhasesMeet(x, now);
    var t1 := Verifies(t, c, x, now);
    var x1 := Verified(x, now);
    var t2 := WorkerRestarts(t1, c, x1, now + 10);
    t' := CutsOver(t2, c, x1.(made := {x.a}), now + 30);
  }

  lemma PhasesMeet(x: Phase, now: int)
    ensures Moved(Verified(x, now).(made := {x.a}), LedgerComplete, now + 40) == RolledOut(x, now)
    ensures OverlapOpen(x, now + 40) ==> OverlapOpen(Verified(x, now).(made := {x.a}), now + 40) && OverlapOpen(x, now)
  {
  }
}
