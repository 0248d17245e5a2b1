/** The preflight of a rotation: one secret-free manifest decides what every rendered ECS task definition
    may say about the signing keys. Codes and scopes are the only output. */
module Preflight {
  import opened Optional
  import opened HmacKeyring
  import opened HmacTable

  datatype Verdict =
    | Accepted
    | InvalidLegacyGeneration
    | LegacyPrimaryForbidden(domain: Domain)
    | TransitionRefused(code: Code, domain: Domain)
    | InvalidLegacyWorker
    | UnexpectedLegacyWorker
    | InvalidGenerationConfig
    | PurposeGenerationReuse
    | InvalidTasks
    | InvalidTaskDomains(task: Workload)
    | TaskGenerationDrift(task: Workload)
    | UnknownRenderedTask(task: Workload)
    | InvalidRenderedTask(task: Workload)
    | RenderedTaskDrift(task: Workload)
    | WorkerEnvDrift

  /** The first refusal of a list of checks. */
  function FirstRefusal(vs: seq<Verdict>): Verdict {
    if vs == [] then Accepted else if vs[0] != Accepted then vs[0] else FirstRefusal(vs[1..])
  }

  lemma {:induction false} NoRefusal(vs: seq<Verdict>)
    ensures FirstRefusal(vs) == Accepted <==> forall i :: 0 <= i < |vs| ==> vs[i] == Accepted
  {
    if vs != [] {
      NoRefusal(vs[1..]);
      assert forall i :: 0 < i < |vs| ==> vs[i] == vs[1..][i - 1];
    }
  }

  lemma {:induction false} FirstRefusalAt(vs: seq<Verdict>, k: nat)
    requires k < |vs| && vs[k] != Accepted && forall i :: 0 <= i < k ==> vs[i] == Accepted
    ensures FirstRefusal(vs) == vs[k]
    decreases k
  {
    if k > 0 {
      FirstRefusalAt(vs[1..], k - 1);
    }
  }

  // ---------------------------------------------------------------- splitting identifiers

  predicate MatchesAt(s: string, sep: string, i: int) {
    0 <= i <= |s| - |sep| && s[i..i + |sep|] == sep
  }

  /** The last place up to n where the separator starts; -1 when there is none. */
  function LastMatch(s: string, sep: string, n: int): (r: int)
    ensures r == -1 || (0 <= r <= n && MatchesAt(s, sep, r))
    ensures forall i :: r < i <= n ==> !MatchesAt(s, sep, i)
    decreases n + 1
  {
    if n < 0 then -1 else if MatchesAt(s, sep, n) then n else LastMatch(s, sep, n - 1)
  }

  datatype Parts = Whole | Parts(resource: string, version: string)

  /** Resource and version around the last separator. */
  function SplitLast(s: string, sep: string): (r: Parts)
    ensures r.Parts? ==> s == r.resource + sep + r.version
    ensures r.Whole? ==> forall i :: !MatchesAt(s, sep, i)
  {
    var i := LastMatch(s, sep, |s|);
    if i < 0 then Whole else Parts(s[..i], s[i + |sep|..])
  }

  /** The secret behind a generation "resource@version". */
  function GenerationResource(g: Generation): Option<string> {
    var p := SplitLast(g, "@");
    if GenerationIdentifier(g) && p.Parts? && p.resource != "" && p.version != "" then Some(p.resource) else None
  }

  predicate VersionChar(c: char) {
    'a' <= c <= 'z' || 'A' <= c <= 'Z' || '0' <= c <= '9' || c == '_' || c == '-'
  }

  predicate VersionId(v: string) {
    32 <= |v| <= 64 && forall i :: 0 <= i < |v| ==> VersionChar(v[i])
  }

  // ---------------------------------------------------------------- the manifest

  datatype Plan = Plan(
    now: int,
    legacyDatabase: Generation,
    legacyWorker: Option<Generation>,
    deployed: Both<Config>,
    proposed: Both<Config>,
    tasks: map<Workload, map<Domain, Config>>)

  const DOMAINS: seq<Domain> := [MailAction, ReportLink]
  const TASKS: seq<Workload> := [Mcp, MorningDigest, ConnectWeb, Worker]

  function TaskDomains(t: Workload): set<Domain> {
    match t
    case Mcp => {MailAction, ReportLink}
    case MorningDigest => {MailAction}
    case ConnectWeb => {ReportLink}
    case Worker => {MailAction, ReportLink}
  }

  predicate MailLegacy(m: Plan) {
    m.proposed.mail.previous == Some(m.legacyDatabase)
  }

  function DomainVerdict(m: Plan, d: Domain): Verdict {
    if GenerationResource(m.proposed.At(d).primary) == GenerationResource(m.legacyDatabase) then LegacyPrimaryForbidden(d)
    else
      var code := ValidateTransition(m.deployed.At(d), m.proposed.At(d), m.now, MaxTtl(d));
      if code != Ok then TransitionRefused(code, d) else Accepted
  }

  function LegacyVerdict(m: Plan): Verdict {
    if MailLegacy(m) then
      if m.legacyWorker.None? then InvalidLegacyWorker
      else
        var w := m.legacyWorker.value;
        var resource := GenerationResource(w);
        if resource.None? || !MentionsSlack(resource.value)
           || w in {m.legacyDatabase, m.proposed.mail.primary, m.proposed.report.primary} then InvalidLegacyWorker
        else Accepted
    else if m.legacyWorker.Some? then UnexpectedLegacyWorker
    else Accepted
  }

  function PurposeVerdict(m: Plan): Verdict {
    var mail, report := GenerationResource(m.proposed.mail.primary), GenerationResource(m.proposed.report.primary);
    if mail.None? || report.None? then InvalidGenerationConfig
    else if mail == report then PurposeGenerationReuse
    else if m.tasks.Keys != ALL_TASKS then InvalidTasks
    else Accepted
  }

  function TaskVerdict(m: Plan, t: Workload): Verdict
    requires t in m.tasks
  {
    if m.tasks[t].Keys != TaskDomains(t) then InvalidTaskDomains(t)
    else if exists d :: d in TaskDomains(t) && m.tasks[t][d] != m.proposed.At(d) then TaskGenerationDrift(t)
    else Accepted
  }

  function Else(first: Verdict, next: Verdict): Verdict {
    if first != Accepted then first else next
  }

  function TasksVerdict(m: Plan): Verdict
    requires m.tasks.Keys == ALL_TASKS
  {
    Else(TaskVerdict(m, Mcp), Else(TaskVerdict(m, MorningDigest), Else(TaskVerdict(m, ConnectWeb), TaskVerdict(m, Worker))))
  }

  function PlanVerdict(m: Plan): Verdict {
    if GenerationResource(m.legacyDatabase).None? then InvalidLegacyGeneration
    else if DomainsVerdict(m) != Accepted then DomainsVerdict(m)
    else if LegacyVerdict(m) != Accepted then LegacyVerdict(m)
    else if PurposeVerdict(m) != Accepted then PurposeVerdict(m)
    else TasksVerdict(m)
  }

  /** One domain: an allowed step of a well-formed rotation, on a secret other than the legacy database's. */
  predicate StepSound(m: Plan, d: Domain) {
    && Bounded(m.now)
    && WellFormed(m.deployed.At(d), MaxTtl(d)) && WellFormed(m.proposed.At(d), MaxTtl(d))
    && AllowedStep(m.deployed.At(d), m.proposed.At(d), m.now, MaxTtl(d))
    && GenerationResource(m.proposed.At(d).primary) != GenerationResource(m.legacyDatabase)
  }

  /** A legacy worker key is named exactly during the mail migration, it is a Slack secret, and it is
      neither the legacy database key nor a new primary. */
  predicate LegacySound(m: Plan) {
    && (m.legacyWorker.Some? <==> m.proposed.mail.previous == Some(m.legacyDatabase))
    && (m.legacyWorker.Some? ==>
          && GenerationResource(m.legacyWorker.value).Some?
          && MentionsSlack(GenerationResource(m.legacyWorker.value).value)
          && m.legacyWorker.value != m.legacyDatabase
          && m.legacyWorker.value != m.proposed.mail.primary && m.legacyWorker.value != m.proposed.report.primary)
  }

  predicate TaskSound(m: Plan, t: Workload) {
    t in m.tasks && m.tasks[t].Keys == TaskDomains(t)
    && forall d :: d in TaskDomains(t) ==> m.tasks[t][d] == m.proposed.At(d)
  }

  predicate SecretsSeparate(m: Plan) {
    && GenerationResource(m.proposed.mail.primary).Some? && GenerationResource(m.proposed.report.primary).Some?
    && GenerationResource(m.proposed.mail.primary) != GenerationResource(m.proposed.report.primary)
  }

  /** Every purpose takes an allowed step, the purposes share no secret, and every task carries exactly the
      proposed configuration of exactly its domains. */
  predicate PlanSound(m: Plan) {
    && StepSound(m, MailAction) && StepSound(m, ReportLink) && LegacySound(m)
    && GenerationResource(m.legacyDatabase).Some? && SecretsSeparate(m)
    && m.tasks.Keys == ALL_TASKS && forall t: Workload :: TaskSound(m, t)
  }

  lemma DomainAccepted(m: Plan, d: Domain)
    ensures DomainVerdict(m, d) == Accepted <==> StepSound(m, d)
  {
    TransitionContract(m.deployed.At(d), m.proposed.At(d), m.now, MaxTtl(d));
  }

  lemma TasksAccepted(m: Plan)
    requires m.tasks.Keys == ALL_TASKS
    ensures TasksVerdict(m) == Accepted <==> forall t: Workload :: TaskSound(m, t)
  {
    forall t: Workload ensures t in m.tasks && (TaskVerdict(m, t) == Accepted <==> TaskSound(m, t)) {
      match t case Mcp => case MorningDigest => case ConnectWeb => case Worker =>
      assert t in m.tasks.Keys;
    }
    if TasksVerdict(m) == Accepted {
      forall t: Workload ensures TaskSound(m, t) {
        match t case Mcp => case MorningDigest => case ConnectWeb => case Worker =>
      }
    } else {
      assert !TaskSound(m, Mcp) || !TaskSound(m, MorningDigest) || !TaskSound(m, ConnectWeb) || !TaskSound(m, Worker);
    }
  }

  lemma PurposeAccepted(m: Plan)
    ensures LegacyVerdict(m) == Accepted <==> LegacySound(m)
    ensures PurposeVerdict(m) == Accepted <==> SecretsSeparate(m) && m.tasks.Keys == ALL_TASKS
  {
  }

  lemma PlanAcceptedIff(m: Plan)
    ensures PlanVerdict(m) == Accepted <==> PlanSound(m)
  {
    DomainAccepted(m, MailAction);
    DomainAccepted(m, ReportLink);
    PurposeAccepted(m);
    assert DomainsVerdict(m) == Accepted <==> StepSound(m, MailAction) && StepSound(m, ReportLink);
    if m.tasks.Keys == ALL_TASKS {
      TasksAccepted(m);
    }
  }

  function DomainsVerdict(m: Plan): Verdict {
    Else(DomainVerdict(m, MailAction), DomainVerdict(m, ReportLink))
  }

  method ValidateDomains(m: Plan) returns (r: Verdict)
    ensures r == DomainsVerdict(m)
  {
    for i := 0 to |DOMAINS|
      invariant i > 0 ==> DomainVerdict(m, MailAction) == Accepted
      invariant i > 1 ==> DomainVerdict(m, ReportLink) == Accepted
    {
      r := DomainVerdict(m, DOMAINS[i]);
      if r != Accepted { return; }
    }
    r := Accepted;
  }

  method ValidateTasks(m: Plan) returns (r: Verdict)
    requires m.tasks.Keys == ALL_TASKS
    ensures r == TasksVerdict(m)
  {
    for i := 0 to |TASKS|
      invariant i > 0 ==> TaskVerdict(m, Mcp) == Accepted
      invariant i > 1 ==> TaskVerdict(m, MorningDigest) == Accepted
      invariant i > 2 ==> TaskVerdict(m, ConnectWeb) == Accepted
      invariant i > 3 ==> TaskVerdict(m, Worker) == Accepted
    {
      r := TaskVerdict(m, TASKS[i]);
      if r != Accepted { return; }
    }
    r := Accepted;
  }

  method ValidateManifest(m: Plan) returns (r: Verdict)
    ensures r == PlanVerdict(m)
    ensures r == Accepted <==> PlanSound(m)
  {
    PlanAcceptedIff(m);
    if GenerationResource(m.legacyDatabase).None? { return InvalidLegacyGeneration; }
    r := ValidateDomains(m);
    if r != Accepted { return; }
    r := Else(LegacyVerdict(m), PurposeVerdict(m));
    if r != Accepted { return; }
    r := ValidateTasks(m);
  }
}
