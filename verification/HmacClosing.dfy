/** The cleanup of one domain at the end of a round: authorized, bound, the worker restarted, completed
    or aborted. */
module HmacClosing {
  import opened Optional
  import opened HmacKeyring
  import opened HmacTable
  import opened HmacRun
  import opened HmacInvariant
  import opened HmacAtomic
  import opened HmacCleanup
  import opened HmacIssuers
  import opened HmacReach
  import opened HmacRounds

  /** A cleanup of domain `d`, with a control file for new artifacts, authorized at `now`. */
  datatype Closing = Closing(x: Phase, d: Domain, a: string, b: string, now: int)

  function CleanConfig(x: Phase, d: Domain): Both<Config> {
    if d == MailAction then Both(Config(x.cfg.mail.primary, None, None), x.cfg.report)
    else Both(x.cfg.mail, Config(x.cfg.report.primary, None, None))
  }

  function NewControl(y: Closing): Control {
    ControlFor(y.x.e, CleanConfig(y.x, y.d), y.a, y.b)
  }

  function Digests(x: string): map<Workload, string> {
    map[Mcp := x, ConnectWeb := x, MorningDigest := x, Worker := x]
  }

  function RequestOf(y: Closing): AuthorizeRequest {
    AuthorizeRequest(NewControl(y), y.d, y.x.cfg, Manifest(y.x.cfg, CleanConfig(y.x, y.d), LEGACY, None),
                     Digests(y.a), Digests(y.b), "q", "i", y.now, y.now)
  }

  /** Each domain's configuration is the rotation from `p` to `g` begun at `t0`, or what remains of it. */
  predicate Rotating(x: Phase, p: Both<Generation>, g: Both<Generation>, t0: int) {
    && Named(p) && Named(g) && p.mail != g.mail && p.report != g.report && Timely(t0)
    && (x.cfg.mail == Rotated(p, g, t0).mail || x.cfg.mail == Settled(g).mail)
    && (x.cfg.report == Rotated(p, g, t0).report || x.cfg.report == Settled(g).report)
  }

  predicate Expired(y: Closing, p: Both<Generation>, g: Both<Generation>, t0: int) {
    && y.x.cfg.At(y.d) == Rotated(p, g, t0).At(y.d)
    && t0 + ROLLOUT_OVERLAP + MaxTtl(y.d) <= y.now <= MAX_UNIX_TIMESTAMP
  }

  /** The window of `d` has run out, the other domain's has not or is gone. */
  predicate Due(y: Closing, p: Both<Generation>, g: Both<Generation>, t0: int) {
    var o := Other(y.d);
    && Rotating(y.x, p, g, t0) && Expired(y, p, g, t0)
    && (y.x.cfg.At(o).previous.Some? ==> y.now < t0 + ROLLOUT_OVERLAP + MaxTtl(o))
  }

  lemma TargetAccepted(y: Closing, p: Both<Generation>, g: Both<Generation>, t0: int)
    requires Rotating(y.x, p, g, t0) && Expired(y, p, g, t0)
    ensures ValidateTransition(y.x.cfg.At(y.d), CleanConfig(y.x, y.d).At(y.d), y.now, MaxTtl(y.d)) == Ok
  {
    TransitionContract(y.x.cfg.At(y.d), CleanConfig(y.x, y.d).At(y.d), y.now, MaxTtl(y.d));
    match y.d { case MailAction => case ReportLink => }
  }

  lemma OtherAccepted(y: Closing, p: Both<Generation>, g: Both<Generation>, t0: int, o: Domain)
    requires Due(y, p, g, t0) && o == Other(y.d)
    ensures ValidateTransition(y.x.cfg.At(o), CleanConfig(y.x, y.d).At(o), y.now, MaxTtl(o)) == Ok
  {
    TransitionContract(y.x.cfg.At(o), CleanConfig(y.x, y.d).At(o), y.now, MaxTtl(o));
    match y.d { case MailAction => case ReportLink => }
  }

  lemma PrimariesFit(y: Closing, p: Both<Generation>, g: Both<Generation>, t0: int, d: Domain)
    requires Rotating(y.x, p, g, t0) && Expired(y, p, g, t0)
    ensures CleanConfig(y.x, y.d).At(d).primary == g.At(d)
    ensures y.d == d ==> y.x.cfg.At(d).previous.Some? && CleanConfig(y.x, y.d).At(d) == Settled(g).At(d)
    ensures y.d != d ==> CleanConfig(y.x, y.d).At(d) == y.x.cfg.At(d)
  {
    match d { case MailAction => case ReportLink => }
    match y.d { case MailAction => case ReportLink => }
  }

  lemma NotLegacy(y: Closing, p: Both<Generation>, g: Both<Generation>, t0: int)
    requires Rotating(y.x, p, g, t0)
    ensures CleanConfig(y.x, y.d).mail.previous != Some(LEGACY)
  {
    LegacyResource();
    match y.d { case MailAction => case ReportLink => }
  }

  lemma Separated(y: Closing, p: Both<Generation>, g: Both<Generation>, t0: int)
    requires Rotating(y.x, p, g, t0) && Expired(y, p, g, t0)
    ensures PrimariesSeparated(RequestOf(y).manifest)
    ensures forall d: Domain :: Resource(RequestOf(y).manifest.proposed.At(d).primary) != ""
  {
    LegacyResource();
    forall d: Domain
      ensures Resource(CleanConfig(y.x, y.d).At(d).primary) == (if d == MailAction then "m" else "r")
    {
      PrimariesFit(y, p, g, t0, d);
    }
  }

  /** The manifest check passes when the other domain's step does, or that domain's window is retired. */
  lemma ManifestAccepted(y: Closing, p: Both<Generation>, g: Both<Generation>, t0: int, o: Domain, durable: DomainRecord)
    requires Rotating(y.x, p, g, t0) && Expired(y, p, g, t0) && o == Other(y.d)
    requires var code := ValidateTransition(y.x.cfg.At(o), CleanConfig(y.x, y.d).At(o), y.now, MaxTtl(o));
             code == Ok || (code == ExpiredPreviousNotRemoved && durable.previousRetired && durable.deadline.Some?
                            && y.now >= durable.deadline.value && ConfigOf(durable) == y.x.cfg.At(o))
    ensures CleanupManifestAccepted(RequestOf(y), durable)
  {
    TargetAccepted(y, p, g, t0);
    PrimariesFit(y, p, g, t0, y.d);
    PrimariesFit(y, p, g, t0, o);
    NotLegacy(y, p, g, t0);
    Separated(y, p, g, t0);
  }

  lemma ManifestFits(y: Closing, p: Both<Generation>, g: Both<Generation>, t0: int, durable: DomainRecord)
    requires Due(y, p, g, t0)
    ensures CleanupManifestAccepted(RequestOf(y), durable)
  {
    OtherAccepted(y, p, g, t0, Other(y.d));
    ManifestAccepted(y, p, g, t0, Other(y.d), durable);
  }

  // ---------------------------------------------------------------- authorizing

  /** The artifacts are new to the epoch. */
  predicate NewArtifacts(y: Closing) {
    && y.a != y.b && y.x.a !in {y.a, y.b} && y.x.b !in {y.a, y.b}
    && y.a !in y.x.gone && y.b !in y.x.gone && y.a !in y.x.made
  }

  lemma DomainChecks(r: DomainRecord, d: Domain, y: Closing, known: set<Epoch>)
    requires DomainIn(r, d, y.x) && y.x.stage == LedgerComplete && IssuerGood(r, known) && NewArtifacts(y)
    ensures AuthorizeDomainChecks(RequestOf(y), d, r)
  {
    ControlChecked(y.x.e, CleanConfig(y.x, y.d), y.a, y.b);
    assert ControlOf(y.x).mcp in r.issuers;
  }

  lemma TasksCovered(x: string)
    ensures Digests(x).Keys == ALL_TASKS && forall task <- ALL_TASKS :: Digests(x)[task] == x
  {
  }

  lemma SomeDisplaced(y: Closing, d: Domain)
    requires NewArtifacts(y)
    ensures ControlOf(y.x).mcp in Issuers(ControlOf(y.x)).At(d)
    ensures ControlOf(y.x).mcp !in Issuers(NewControl(y)).At(d)
  {
    ControlChecked(y.x.e, CleanConfig(y.x, y.d), y.a, y.b);
    match d { case MailAction => case ReportLink => }
  }

  lemma TargetChecks(r: DomainRecord, y: Closing, p: Both<Generation>, g: Both<Generation>, t0: int)
    requires DomainIn(r, y.d, y.x) && y.x.stage == LedgerComplete && Due(y, p, g, t0) && NewArtifacts(y)
    ensures r.previous.Some? && r.t0.Some? && r.deadline.Some? && y.now >= r.deadline.value
    ensures r.issuers - Issuers(NewControl(y)).At(y.d) != {}
  {
    SomeDisplaced(y, y.d);
    assert ControlOf(y.x).mcp in r.issuers - Issuers(NewControl(y)).At(y.d);
    match y.d { case MailAction => case ReportLink => }
  }

  lemma ChecksPass(t: Table, y: Closing, p: Both<Generation>, g: Both<Generation>, t0: int)
    requires In(t, y.x) && y.x.stage == LedgerComplete && IssuersGood(t) && Due(y, p, g, t0) && NewArtifacts(y)
    ensures AuthorizeChecks(RequestOf(y), Domains(t))
  {
    TasksCovered(y.a);
    TasksCovered(y.b);
    DomainChecks(t.domains[MailAction], MailAction, y, t.ledgers.Keys);
    DomainChecks(t.domains[ReportLink], ReportLink, y, t.ledgers.Keys);
    match y.d {
      case MailAction => TargetChecks(t.domains[MailAction], y, p, g, t0);
      case ReportLink => TargetChecks(t.domains[ReportLink], y, p, g, t0);
    }
  }

  /** The generations retired once the window of `d` is. */
  function UsedAfter(y: Closing): Both<set<Generation>> {
    if y.d == MailAction then Both(y.x.used.mail + SetOf(y.x.cfg.mail.previous), y.x.used.report)
    else Both(y.x.used.mail, y.x.used.report + SetOf(y.x.cfg.report.previous))
  }

  ghost predicate CleaningDomain(r: DomainRecord, d: Domain, y: Closing) {
    && r.epoch == y.x.e && r.stage == RuntimeComplete && ConfigOf(r) == y.x.cfg.At(d)
    && r.deadline == DeadlineOf(d, y.x.cfg.At(d)) && r.legacyWorker.None?
    && r.issuers == Issuers(ControlOf(y.x)).At(d) + Issuers(NewControl(y)).At(d)
    && r.cleanupAuthorized == (d == y.d) && (d == y.d ==> r.previousRetired)
    && r.retiredGenerations <= UsedAfter(y).At(d)
    && (r.previous.None? ==> r.previousRetired)
    && (forall p <- r.retiredProvenances :: p.epoch == y.x.e ==> p.artifact in y.x.gone)
  }

  ghost predicate CleanupIn(r: CleanupRecord, y: Closing, b: Bindings) {
    var old_, new_ := Issuers(ControlOf(y.x)), Issuers(NewControl(y));
    && r.stage == Authorized && r.authorizedAt == y.now && r.plan == "q" && r.intent == "i"
    && r.proposed == CleanConfig(y.x, y.d) && r.bound == b && r.reconciledWorker.None?
    && r.newIssuers == new_ && r.oldIssuers == Both(old_.mail - new_.mail, old_.report - new_.report)
    && r.baselineIssuers == old_
  }

  /** The table while a cleanup is under way. */
  ghost predicate Cleaning(t: Table, y: Closing, b: Bindings, made: set<string>) {
    var e := y.x.e;
    && BothDomains(t)
    && CleaningDomain(t.domains[MailAction], MailAction, y) && CleaningDomain(t.domains[ReportLink], ReportLink, y)
    && LedgerIn(t, y.x) && y.x.stage == LedgerComplete
    && (e, y.d) in t.cleanups && CleanupIn(t.cleanups[(e, y.d)], y, b)
    && ((e, Other(y.d)) in t.cleanups ==>
          t.cleanups[(e, Other(y.d))].stage == CleanupComplete && y.x.cfg.At(Other(y.d)).previous.None?)
    && (forall p :: (e, p) in t.restarts ==> p.artifact in made)
  }

  lemma DomainWidens(r: DomainRecord, d: Domain, y: Closing)
    requires DomainIn(r, d, y.x) && y.x.stage == LedgerComplete
    ensures CleaningDomain(AuthorizedDomain(RequestOf(y), d, r, r), d, y)
  {
  }

  lemma AuthorizeIn(t: Table, y: Closing)
    requires In(t, y.x) && y.x.stage == LedgerComplete && y.x.cfg.At(y.d).previous.Some?
    ensures Cleaning(AuthorizeEffect(t, RequestOf(y), Domains(t)), y, NO_BINDINGS.(digests := Digests(y.a)), y.x.made)
  {
    DomainWidens(t.domains[MailAction], MailAction, y);
    DomainWidens(t.domains[ReportLink], ReportLink, y);
  }

  lemma AuthorizeTried(t: Table, y: Closing)
    requires In(t, y.x) && y.x.stage == LedgerComplete && AuthorizeChecks(RequestOf(y), Domains(t))
    requires y.x.cfg.At(y.d).previous.Some?
    ensures TryAuthorize(t, RequestOf(y), Domains(t)) == Some(AuthorizeEffect(t, RequestOf(y), Domains(t)))
  {
  }

  lemma AuthorizePrepared(t: Table, y: Closing, p: Both<Generation>, g: Both<Generation>, t0: int)
    requires In(t, y.x) && y.x.stage == LedgerComplete && Due(y, p, g, t0)
    ensures MayPrepare(t, t, RequestOf(y))
  {
    match y.d { case MailAction => case ReportLink => }
    ManifestFits(y, p, g, t0, t.domains[Other(y.d)]);
  }

  lemma Authorizes(t: Table, c: seq<Epoch>, y: Closing, p: Both<Generation>, g: Both<Generation>, t0: int)
    returns (t': Table)
    requires Reachable(t, c) && In(t, y.x) && y.x.stage == LedgerComplete && Due(y, p, g, t0) && NewArtifacts(y)
    ensures Reachable(t', c) && Cleaning(t', y, NO_BINDINGS.(digests := Digests(y.a)), y.x.made)
  {
    ReachableGood(t, c);
    ControlChecked(y.x.e, CleanConfig(y.x, y.d), y.a, y.b);
    PrimariesFit(y, p, g, t0, y.d);
    ChecksPass(t, y, p, g, t0);
    AuthorizeTried(t, y);
    AuthorizePrepared(t, y, p, g, t0);
    t' := AuthorizeEffect(t, RequestOf(y), Domains(t));
    ReachAuthorize(t, c, RequestOf(y), t');
    AuthorizeIn(t, y);
  }

  // ---------------------------------------------------------------- binding the replacements

  function BoundFirst(y: Closing): Bindings {
    NO_BINDINGS.(digests := Digests(y.a))
  }

  /** The binding is allowed on these bindings, read at the commit itself. */
  predicate Fits(b: Binding, o: Bindings) {
    match b
    case BindIntent(kind, task, plan, attempt) =>
      plan == "q" && kind == Candidate && (kind, task) !in o.plans && (kind, task) !in o.attempts
    case BindDigest(_, _) => false
    case BindArn(task, arn, digest, plan, attempt) =>
      IntentBound(o, Candidate, task, plan, attempt) && Find(o.digests, task) == Some(digest) && task !in o.arns
    case BindTarget(_, _, _, _) => false
  }

  lemma BindTried(t: Table, y: Closing, o: Bindings, made: set<string>, b: Binding)
    requires Cleaning(t, y, o, made) && Fits(b, o)
    ensures var x := OnCleanup(y.x.e, y.d);
            Holder(t, x).Some?
            && TryBind(t, x, b, Holder(t, x).value, Holder(t, x).value) == Some(BindEffect(t, x, b))
  {
  }

  lemma Binds(t: Table, c: seq<Epoch>, y: Closing, o: Bindings, made: set<string>, b: Binding) returns (t': Table)
    requires Reachable(t, c) && Cleaning(t, y, o, made) && Fits(b, o)
    ensures Reachable(t', c) && Cleaning(t', y, WithBinding(b, o), made)
  {
    var x := OnCleanup(y.x.e, y.d);
    BindTried(t, y, o, made, b);
    t' := BindEffect(t, x, b);
    ReachBind(t, c, x, b, t');
  }

  function Intend(task: Workload): Binding {
    BindIntent(Candidate, task, "q", "1")
  }

  function Register(y: Closing, task: Workload, arn: string): Binding {
    BindArn(task, arn, y.a, "q", "1")
  }

  function BoundIntents(y: Closing): Bindings {
    WithBinding(Intend(Worker), WithBinding(Intend(MorningDigest), WithBinding(Intend(ConnectWeb),
      WithBinding(Intend(Mcp), BoundFirst(y)))))
  }

  function BoundAll(y: Closing): Bindings {
    WithBinding(Register(y, MorningDigest, "3"), WithBinding(Register(y, ConnectWeb, "2"),
      WithBinding(Register(y, Mcp, "1"), BoundIntents(y))))
  }

  lemma IntentFits(task: Workload, o: Bindings)
    requires (Candidate, task) !in o.plans && (Candidate, task) !in o.attempts
    ensures Fits(Intend(task), o)
  {
  }

  lemma RegisterFits(y: Closing, task: Workload, arn: string, o: Bindings)
    requires IntentBound(o, Candidate, task, "q", "1") && o.digests == Digests(y.a) && task != Worker && task !in o.arns
    ensures Fits(Register(y, task, arn), o)
  {
  }

  lemma BindsIntents(t: Table, c: seq<Epoch>, y: Closing, made: set<string>) returns (t': Table)
    requires Reachable(t, c) && Cleaning(t, y, BoundFirst(y), made)
    ensures Reachable(t', c) && Cleaning(t', y, BoundIntents(y), made)
  {
    var b1 := WithBinding(Intend(Mcp), BoundFirst(y));
    var b2 := WithBinding(Intend(ConnectWeb), b1);
    var b3 := WithBinding(Intend(MorningDigest), b2);
    IntentFits(Mcp, BoundFirst(y));
    IntentFits(ConnectWeb, b1);
    IntentFits(MorningDigest, b2);
    IntentFits(Worker, b3);
    var t1 := Binds(t, c, y, BoundFirst(y), made, Intend(Mcp));
    var t2 := Binds(t1, c, y, b1, made, Intend(ConnectWeb));
    var t3 := Binds(t2, c, y, b2, made, Intend(MorningDigest));
    t' := Binds(t3, c, y, b3, made, Intend(Worker));
  }

  lemma IntentsBound(y: Closing, task: Workload)
    ensures IntentBound(BoundIntents(y), Candidate, task, "q", "1")
    ensures BoundIntents(y).digests == Digests(y.a) && BoundIntents(y).arns == map[]
  {
    match task { case Mcp => case ConnectWeb => case MorningDigest => case Worker => }
  }

  lemma ArnKeeps(y: Closing, o: Bindings, arn: string, task: Workload, other: Workload)
    requires IntentBound(o, Candidate, other, "q", "1") && o.digests == Digests(y.a)
    ensures IntentBound(WithBinding(Register(y, task, arn), o), Candidate, other, "q", "1")
    ensures WithBinding(Register(y, task, arn), o).digests == Digests(y.a)
    ensures WithBinding(Register(y, task, arn), o).arns == o.arns[task := arn]
  {
  }

  lemma BindsArtifacts(t: Table, c: seq<Epoch>, y: Closing, made: set<string>) returns (t': Table)
    requires Reachable(t, c) && Cleaning(t, y, BoundIntents(y), made)
    ensures Reachable(t', c) && Cleaning(t', y, BoundAll(y), made)
  {
    var b0 := BoundIntents(y);
    var b1 := WithBinding(Register(y, Mcp, "1"), b0);
    var b2 := WithBinding(Register(y, ConnectWeb, "2"), b1);
    ArtifactsFit(y, b0, b1, b2);
    var t1 := Binds(t, c, y, b0, made, Register(y, Mcp, "1"));
    var t2 := Binds(t1, c, y, b1, made, Register(y, ConnectWeb, "2"));
    t' := Binds(t2, c, y, b2, made, Register(y, MorningDigest, "3"));
  }

  lemma ArtifactsFit(y: Closing, b0: Bindings, b1: Bindings, b2: Bindings)
    requires b0 == BoundIntents(y) && b1 == WithBinding(Register(y, Mcp, "1"), b0)
    requires b2 == WithBinding(Register(y, ConnectWeb, "2"), b1)
    ensures Fits(Register(y, Mcp, "1"), b0) && Fits(Register(y, ConnectWeb, "2"), b1)
    ensures Fits(Register(y, MorningDigest, "3"), b2)
  {
    IntentsBound(y, Mcp);
    RegisterFits(y, Mcp, "1", b0);
    IntentsBound(y, ConnectWeb);
    ArnKeeps(y, b0, "1", Mcp, ConnectWeb);
    RegisterFits(y, ConnectWeb, "2", b1);
    IntentsBound(y, MorningDigest);
    ArnKeeps(y, b0, "1", Mcp, MorningDigest);
    ArnKeeps(y, b1, "2", ConnectWeb, MorningDigest);
    RegisterFits(y, MorningDigest, "3", b2);
  }

  lemma AllBound(y: Closing)
    ensures ReplacementsBound(BoundAll(y)) && IntentBound(BoundAll(y), Candidate, Worker, "q", "1")
  {
    var m := BoundAll(y).arns;
    assert m == map[Mcp := "1", ConnectWeb := "2", MorningDigest := "3"];
  }

  // ---------------------------------------------------------------- restarting and completing

  lemma CleanupHolds(t: Table, y: Closing, o: Bindings, made: set<string>)
    requires Cleaning(t, y, o, made)
    ensures ActiveModeAllowed(CleanupMode, ActiveNow(t, y.x.e))
    ensures HolderNow(t, y.x.e).Some? && HolderNow(t, y.x.e).value.bound == o
  {
    match y.d { case MailAction => case ReportLink => }
  }

  /** The restart that a completion asks for. */
  ghost predicate RestartOnRecord(t: Table, y: Closing) {
    var k := RestartKey(NewControl(y), CleanupMode);
    k in t.restarts && ProvesRestart(NewControl(y), CleanupMode, t.restarts[k], "q", "1", y.now)
  }

  lemma WorkerRestartsFor(t: Table, c: seq<Epoch>, y: Closing, o: Bindings, made: set<string>) returns (t': Table)
    requires Reachable(t, c) && Cleaning(t, y, o, made) && y.a !in made && IntentBound(o, Candidate, Worker, "q", "1")
    ensures Reachable(t', c) && Cleaning(t', y, o, made + {y.a}) && RestartOnRecord(t', y)
  {
    CleanupHolds(t, y, o, made);
    t' := Restarts(t, c, NewControl(y), CleanupMode, y.a, "q", y.now + 10, o);
    RestartRecorded(t, y, o, made);
  }

  lemma RestartRecorded(t: Table, y: Closing, o: Bindings, made: set<string>)
    requires Cleaning(t, y, o, made)
    ensures var k := RestartKey(NewControl(y), CleanupMode);
            var t' := t.(restarts := t.restarts[k := Restarted(NewControl(y), CleanupMode, y.a, "q", y.now + 10)]);
            Cleaning(t', y, o, made + {y.a}) && RestartOnRecord(t', y)
  {
  }

  /** The phase after the cleanup. */
  function Cleaned(y: Closing): Phase {
    y.x.(cfg := CleanConfig(y.x, y.d), with := CleanConfig(y.x, y.d), used := UsedAfter(y), a := y.a, b := y.b,
         gone := y.x.gone + {y.x.a, y.x.b}, made := y.x.made + {y.a})
  }

  function CompleteOf(y: Closing): CompleteRequest {
    CompleteRequest(NewControl(y), y.d, "q", "1", CleanupMode, y.now + 30)
  }

  lemma CompleteChecked(
    t: Table, y: Closing, made: set<string>, p: Both<Generation>, g: Both<Generation>, t0: int, seen: Both<DomainRecord>,
    r: CleanupRecord)
    requires Cleaning(t, y, BoundAll(y), made) && RestartOnRecord(t, y) && Due(y, p, g, t0)
    requires seen == Domains(t) && r == t.cleanups[(y.x.e, y.d)]
    ensures CompleteChecks(CompleteOf(y), t.ledgers[y.x.e], r, t.restarts[RestartKey(NewControl(y), CleanupMode)], seen)
  {
    AllBound(y);
    PrimariesFit(y, p, g, t0, y.d);
    match y.d { case MailAction => case ReportLink => }
  }

  lemma CompleteHeld(t: Table, y: Closing, o: Bindings, made: set<string>, seen: Both<DomainRecord>, r: CleanupRecord)
    requires Cleaning(t, y, o, made) && (y.d, y.x.e) !in t.retirements
    requires seen == Domains(t) && r == t.cleanups[(y.x.e, y.d)]
    ensures CompleteHolds(t, CompleteOf(y), r, seen)
  {
  }

  lemma CompleteTried(t: Table, y: Closing, made: set<string>, p: Both<Generation>, g: Both<Generation>, t0: int)
    requires Cleaning(t, y, BoundAll(y), made) && RestartOnRecord(t, y) && Due(y, p, g, t0)
    requires (y.d, y.x.e) !in t.retirements
    requires t.domains[y.d].previous.Some? && t.domains[y.d].t0.Some? && t.domains[y.d].deadline.Some?
    ensures TryComplete(t, CompleteOf(y), t.ledgers[y.x.e], t.cleanups[(y.x.e, y.d)],
                        t.restarts[RestartKey(NewControl(y), CleanupMode)], Domains(t))
            == Some(CompleteEffect(t, CompleteOf(y), t.cleanups[(y.x.e, y.d)], t.domains[y.d]))
  {
    CompleteChecked(t, y, made, p, g, t0, Domains(t), t.cleanups[(y.x.e, y.d)]);
    CompleteHeld(t, y, BoundAll(y), made, Domains(t), t.cleanups[(y.x.e, y.d)]);
    assert Domains(t).At(y.d) == t.domains[y.d];
  }

  lemma DomainNarrows(t: Table, y: Closing, made: set<string>, d: Domain)
    requires Cleaning(t, y, BoundAll(y), made) && y.x.cfg.At(y.d).previous.Some?
    requires d in t.domains
    ensures DomainIn(CleanedDomain(CompleteOf(y), d, t.cleanups[(y.x.e, y.d)], t.domains[d]), d, Cleaned(y))
  {
    ControlChecked(y.x.e, y.x.with, y.x.a, y.x.b);
    match d { case MailAction => case ReportLink => }
    match y.d { case MailAction => case ReportLink => }
  }

  lemma CompleteRecordsIn(t: Table, y: Closing, made: set<string>, t': Table)
    requires Cleaning(t, y, BoundAll(y), made) && made == y.x.made + {y.a}
    requires t'.restarts == t.restarts && t'.ledgers == t.ledgers && t'.cleanups.Keys == t.cleanups.Keys
    requires t'.cleanups == t.cleanups[(y.x.e, y.d) := t'.cleanups[(y.x.e, y.d)]]
    requires t'.cleanups[(y.x.e, y.d)].stage == CleanupComplete
    ensures LedgerIn(t', Cleaned(y)) && RecordsIn(t', Cleaned(y))
  {
    forall d | (y.x.e, d) in t'.cleanups
      ensures t'.cleanups[(y.x.e, d)].stage == CleanupComplete && CleanConfig(y.x, y.d).At(d).previous.None?
    {
      match d { case MailAction => case ReportLink => }
      match y.d { case MailAction => case ReportLink => }
    }
  }

  lemma CompleteDomainsIn(t: Table, y: Closing, made: set<string>, t': Table, r: CleanupRecord)
    requires Cleaning(t, y, BoundAll(y), made) && y.x.cfg.At(y.d).previous.Some? && r == t.cleanups[(y.x.e, y.d)]
    requires t'.domains == t.domains[MailAction := CleanedDomain(CompleteOf(y), MailAction, r, t.domains[MailAction])]
                                    [ReportLink := CleanedDomain(CompleteOf(y), ReportLink, r, t.domains[ReportLink])]
    ensures DomainsIn(t', Cleaned(y))
  {
    DomainNarrows(t, y, made, MailAction);
    DomainNarrows(t, y, made, ReportLink);
  }

  lemma CompleteIn(t: Table, y: Closing, made: set<string>, t': Table, r: CleanupRecord)
    requires Cleaning(t, y, BoundAll(y), made) && made == y.x.made + {y.a} && r == t.cleanups[(y.x.e, y.d)]
    requires y.x.cfg.At(y.d).previous.Some? && t.domains[y.d].previous.Some? && t.domains[y.d].t0.Some?
    requires t.domains[y.d].deadline.Some? && t' == CompleteEffect(t, CompleteOf(y), r, t.domains[y.d])
    ensures In(t', Cleaned(y))
  {
    CompleteDomainsIn(t, y, made, t', r);
    CompleteRecordsIn(t, y, made, t');
  }

  lemma WindowOpenOn(t: Table, y: Closing, made: set<string>, p: Both<Generation>, g: Both<Generation>, t0: int)
    requires Cleaning(t, y, BoundAll(y), made) && Due(y, p, g, t0)
    ensures y.d in t.domains && t.domains[y.d].previous.Some? && t.domains[y.d].t0.Some? && t.domains[y.d].deadline.Some?
    ensures y.x.cfg.At(y.d).previous.Some?
  {
    match y.d { case MailAction => case ReportLink => }
  }

  lemma NotRetired(t: Table, c: seq<Epoch>, y: Closing, o: Bindings, made: set<string>)
    requires Good(t, c) && Cleaning(t, y, o, made)
    ensures (y.d, y.x.e) !in t.retirements
  {
  }

  lemma CompletesNow(
    t: Table, c: seq<Epoch>, y: Closing, made: set<string>, p: Both<Generation>, g: Both<Generation>, t0: int)
    returns (t': Table)
    requires Reachable(t, c) && Cleaning(t, y, BoundAll(y), made) && made == y.x.made + {y.a}
    requires RestartOnRecord(t, y) && Due(y, p, g, t0)
    ensures Reachable(t', c) && In(t', Cleaned(y))
  {
    ReachableGood(t, c);
    NotRetired(t, c, y, BoundAll(y), made);
    WindowOpenOn(t, y, made, p, g, t0);
    CompleteTried(t, y, made, p, g, t0);
    t' := CompleteEffect(t, CompleteOf(y), t.cleanups[(y.x.e, y.d)], t.domains[y.d]);
    ReachComplete(t, c, CompleteOf(y), t');
    CompleteIn(t, y, made, t', t.cleanups[(y.x.e, y.d)]);
  }

  /** A domain's cleanup from its authorization to its completion. */
  lemma Closes(t: Table, c: seq<Epoch>, y: Closing, p: Both<Generation>, g: Both<Generation>, t0: int)
    returns (t': Table)
    requires Reachable(t, c) && In(t, y.x) && y.x.stage == LedgerComplete && Due(y, p, g, t0) && NewArtifacts(y)
    ensures Reachable(t', c) && In(t', Cleaned(y))
  {
    AllBound(y);
    var t1 := Authorizes(t, c, y, p, g, t0);
    var t2 := BindsIntents(t1, c, y, y.x.made);
    var t3 := BindsArtifacts(t2, c, y, y.x.made);
    var t4 := WorkerRestartsFor(t3, c, y, BoundAll(y), y.x.made);
    t' := CompletesNow(t4, c, y, y.x.made + {y.a}, p, g, t0);
  }

  // ---------------------------------------------------------------- aborting

  const PENDING := IntentRecord(Prepared, "q", MAX_UNIX_TIMESTAMP)

  function AbortOf(y: Closing): ReconcileRequest {
    ReconcileRequest(NewControl(y), y.d, y.now + 10, "", "", map[])
  }

  lemma BaselineWorkerRuns(t: Table, y: Closing)
    requires Cleaning(t, y, BoundFirst(y), y.x.made) && y.a !in y.x.made
    ensures RestartKey(NewControl(y), CleanupMode) !in t.restarts
    ensures ClassifyWorker(NewControl(y), t.cleanups[(y.x.e, y.d)], None) == Some(BaselineWorker)
  {
  }

  lemma AbortTried(t: Table, y: Closing)
    requires Cleaning(t, y, BoundFirst(y), y.x.made) && y.a !in y.x.made && Find(t.intents, "i") == Some(PENDING)
    ensures TryAbort(t, AbortOf(y), t.cleanups[(y.x.e, y.d)], None, Some(PENDING), Domains(t))
            == Some(AbortEffect(t, AbortOf(y), t.cleanups[(y.x.e, y.d)], None))
  {
    BaselineWorkerRuns(t, y);
  }

  lemma AbortsNow(t: Table, c: seq<Epoch>, y: Closing) returns (t': Table)
    requires Reachable(t, c) && Cleaning(t, y, BoundFirst(y), y.x.made) && y.a !in y.x.made
    requires Find(t.intents, "i") == Some(PENDING)
    ensures Reachable(t', c) && (y.x.e, y.d) in t'.cleanups && t'.cleanups[(y.x.e, y.d)].stage == Aborted
    ensures y.d in t'.domains && t'.domains[y.d].epoch == y.x.e
  {
    BaselineWorkerRuns(t, y);
    AbortTried(t, y);
    t' := AbortEffect(t, AbortOf(y), t.cleanups[(y.x.e, y.d)], None);
    ReachAbort(t, c, AbortOf(y), t');
  }

  /** A domain's cleanup, authorized and then aborted. */
  lemma Aborts(t: Table, c: seq<Epoch>, y: Closing, p: Both<Generation>, g: Both<Generation>, t0: int)
    returns (t': Table)
    requires Reachable(t, c) && In(t, y.x) && y.x.stage == LedgerComplete && Due(y, p, g, t0) && NewArtifacts(y)
    ensures Reachable(t', c) && (y.x.e, y.d) in t'.cleanups && t'.cleanups[(y.x.e, y.d)].stage == Aborted
    ensures y.d in t'.domains && t'.domains[y.d].epoch == y.x.e
  {
    var t1 := Authorizes(t, c, y, p, g, t0);
    ReachIntent(t1, c, "i", PENDING);
    t' := AbortsNow(t1.(intents := t1.intents["i" := PENDING]), c, y);
  }
}
