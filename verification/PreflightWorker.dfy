/** The worker's own environment file: its export lines, its checks against the manifest, and its parity
    with the rendered task definitions. */
module PreflightWorker {
  import opened Optional
  import opened HmacKeyring
  import opened HmacTable
  import opened Preflight
  import opened Decimals
  import opened PreflightTasks
  import BaseEnv

  // ---------------------------------------------------------------- names and lines

  datatype WorkerField =
    | SecretName | PrimaryVersion | WorkerPrimary | PreviousName | PreviousVersion | WorkerPrevious | WorkerT0
    | WorkerMarker | WorkerTtl

  function WorkerSuffix(f: WorkerField): string {
    match f
    case SecretName => "_HMAC_SECRET_NAME"
    case PrimaryVersion => "_HMAC_PRIMARY_VERSION_ID"
    case WorkerPrimary => "_HMAC_PRIMARY_GENERATION"
    case PreviousName => "_HMAC_PREVIOUS_SECRET_NAME"
    case PreviousVersion => "_HMAC_PREVIOUS_VERSION_ID"
    case WorkerPrevious => "_HMAC_PREVIOUS_GENERATION"
    case WorkerT0 => "_HMAC_PREVIOUS_ROTATION_STARTED_AT"
    case WorkerMarker => "_HMAC_PREVIOUS_IS_LEGACY"
    case WorkerTtl => "_TTL_S"
  }

  function WorkerName(d: Domain, f: WorkerField): string {
    Prefix(d) + WorkerSuffix(f)
  }

  const STATE_REQUIRED := "TEAMAGENT_HMAC_STATE_REQUIRED"
  const STATE_TABLE := "TEAMAGENT_HMAC_STATE_TABLE"
  const STATE_SCOPE := "TEAMAGENT_HMAC_STATE_SCOPE"
  const ROTATION_EPOCH := "TEAMAGENT_HMAC_ROTATION_EPOCH"
  const PROVENANCE := "TEAMAGENT_HMAC_PROVENANCE"
  const ARTIFACT := "TEAMAGENT_HMAC_ARTIFACT_SHA256"
  const WORKER_ID := "TEAMAGENT_HMAC_WORKER_ID"
  const LEGACY_SECRET_NAME := "MAIL_ACTION_HMAC_LEGACY_WORKER_SECRET_NAME"
  const LEGACY_VERSION := "MAIL_ACTION_HMAC_LEGACY_WORKER_VERSION_ID"
  const LEGACY_GENERATION := "MAIL_ACTION_HMAC_LEGACY_WORKER_GENERATION"

  function WorkerNames(): set<string> {
    (set d: Domain, f: WorkerField :: WorkerName(d, f))
    + {STATE_REQUIRED, STATE_TABLE, STATE_SCOPE, ROTATION_EPOCH, PROVENANCE, ARTIFACT, WORKER_ID}
    + {LEGACY_SECRET_NAME, LEGACY_VERSION, LEGACY_GENERATION}
  }

  type Env = map<string, string>

  /** A line "export NAME='value'" whose value holds no apostrophe. */
  function ExportOf(line: string): Option<(string, string)> {
    if !("export " <= line) then None
    else
      var s := line[7..];
      var e := BaseEnv.EqualsAt(s);
      if e == |s| || !EnvName(s[..e]) || |s| < e + 3 || s[e + 1] != '\'' || s[|s| - 1] != '\'' || '\'' in s[e + 2..|s| - 1] then None
      else Some((s[..e], s[e + 2..|s| - 1]))
  }

  predicate EnvName(n: string) {
    n != "" && BaseEnv.Upper(n[0])
    && forall i :: 0 <= i < |n| ==> BaseEnv.Upper(n[i]) || BaseEnv.Digit(n[i]) || n[i] == '_'
  }

  function ExportLine(name: string, value: string): string {
    "export " + (name + "='" + value + "'")
  }

  function ReadExports(lines: seq<string>): Option<Env> {
    if lines == [] then Some(map[])
    else
      var before, e := ReadExports(lines[..|lines| - 1]), ExportOf(lines[|lines| - 1]);
      if before.None? || e.None? || e.value.0 !in WorkerNames() || e.value.0 in before.value then None
      else Some(before.value[e.value.0 := e.value.1])
  }

  function WorkerEnv(text: string): Option<Env> {
    if |text| > 65_536 then None
    else
      var v := ReadExports(BaseEnv.SplitLines(text));
      if v.Some? && v.value.Keys == WorkerNames() then v else None
  }

  lemma {:induction false} ExportRefused(lines: seq<string>, k: nat)
    requires k <= |lines| && ReadExports(lines[..k]).None?
    ensures ReadExports(lines).None?
    decreases |lines|
  {
    if k == |lines| {
      assert lines[..k] == lines;
    } else {
      assert lines[..|lines| - 1][..k] == lines[..k];
      ExportRefused(lines[..|lines| - 1], k);
    }
  }

  method ParseWorkerEnv(text: string) returns (r: Option<Env>)
    ensures r == WorkerEnv(text)
  {
    if |text| > 65_536 { return None; }
    var lines := BaseEnv.SplitLines(text);
    var values: Env := map[];
    for k := 0 to |lines|
      invariant ReadExports(lines[..k]) == Some(values)
    {
      var e := ExportOf(lines[k]);
      assert lines[..k + 1][..k] == lines[..k];
      if e.None? || e.value.0 !in WorkerNames() || e.value.0 in values {
        ExportRefused(lines, k + 1);
        return None;
      }
      values := values[e.value.0 := e.value.1];
    }
    assert lines[..|lines|] == lines;
    r := if values.Keys == WorkerNames() then Some(values) else None;
  }

  lemma ExportReadsBack(name: string, value: string)
    requires EnvName(name) && '\'' !in value
    ensures ExportOf(ExportLine(name, value)) == Some((name, value))
  {
    var s := name + "='" + value + "'";
    var line := ExportLine(name, value);
    assert line[7..] == s && line[..7] == "export ";
    assert s[|name|] == '=' && forall i :: 0 <= i < |name| ==> s[i] == name[i] && name[i] != '=';
    assert BaseEnv.EqualsAt(s) == |name|;
    assert s[..|name|] == name && s[|name| + 2..|s| - 1] == value;
  }

  /** The pairs printed as export lines. */
  function ExportLines(pairs: seq<(string, string)>): seq<string> {
    seq(|pairs|, i requires 0 <= i < |pairs| => ExportLine(pairs[i].0, pairs[i].1))
  }

  function AsMap(pairs: seq<(string, string)>): Env {
    if pairs == [] then map[] else AsMap(pairs[..|pairs| - 1])[pairs[|pairs| - 1].0 := pairs[|pairs| - 1].1]
  }

  lemma {:induction false} AsMapKeys(pairs: seq<(string, string)>, n: string)
    ensures n in AsMap(pairs) <==> exists i :: 0 <= i < |pairs| && pairs[i].0 == n
    decreases |pairs|
  {
    if pairs != [] {
      var q := pairs[..|pairs| - 1];
      AsMapKeys(q, n);
      if n in AsMap(q) {
        var i :| 0 <= i < |q| && q[i].0 == n;
        assert pairs[i].0 == n;
      }
      if exists i :: 0 <= i < |pairs| && pairs[i].0 == n {
        var i :| 0 <= i < |pairs| && pairs[i].0 == n;
        if i < |q| { assert q[i].0 == n; }
      }
    }
  }

  predicate Exportable(p: (string, string)) {
    EnvName(p.0) && p.0 in WorkerNames() && '\'' !in p.1 && BaseEnv.OneLine(p.1)
  }

  lemma {:induction false} ExportsReadBack(pairs: seq<(string, string)>)
    requires forall i :: 0 <= i < |pairs| ==> Exportable(pairs[i])
    requires forall i, j :: 0 <= i < j < |pairs| ==> pairs[i].0 != pairs[j].0
    ensures ReadExports(ExportLines(pairs)) == Some(AsMap(pairs))
    decreases |pairs|
  {
    if pairs != [] {
      var q, last := pairs[..|pairs| - 1], pairs[|pairs| - 1];
      assert forall i :: 0 <= i < |q| ==> q[i] == pairs[i];
      ExportsReadBack(q);
      assert ExportLines(pairs)[..|pairs| - 1] == ExportLines(q);
      ExportReadsBack(last.0, last.1);
      AsMapKeys(q, last.0);
    }
  }

  /** Any file that exports every expected name once, in any order, is read back as what was exported. */
  lemma WorkerEnvReadsBack(pairs: seq<(string, string)>)
    requires forall i :: 0 <= i < |pairs| ==> Exportable(pairs[i])
    requires forall i, j :: 0 <= i < j < |pairs| ==> pairs[i].0 != pairs[j].0
    requires AsMap(pairs).Keys == WorkerNames()
    requires |BaseEnv.Joined(ExportLines(pairs))| <= 65_536
    ensures WorkerEnv(BaseEnv.Joined(ExportLines(pairs))) == Some(AsMap(pairs))
  {
    var lines := ExportLines(pairs);
    forall k | 0 <= k < |lines| ensures BaseEnv.OneLine(lines[k]) {
      ExportOnLine(pairs[k].0, pairs[k].1);
    }
    BaseEnv.SplitJoined(lines);
    ExportsReadBack(pairs);
  }

  lemma ExportOnLine(name: string, value: string)
    requires EnvName(name) && BaseEnv.OneLine(value)
    ensures BaseEnv.OneLine(ExportLine(name, value))
  {
    assert BaseEnv.OneLine(name);
    var tail := name + "='" + value + "'";
    assert BaseEnv.OneLine(tail);
    assert BaseEnv.OneLine("export ");
  }

  // ---------------------------------------------------------------- the checks

  /** What follows the first separator. */
  function AfterFirst(s: string, sep: string, from: nat): Option<string>
    requires from <= |s|
    decreases |s| - from
  {
    if MatchesAt(s, sep, from) then Some(s[from + |sep|..])
    else if from == |s| then None else AfterFirst(s, sep, from + 1)
  }

  predicate EndsWith(s: string, tail: string) {
    |tail| <= |s| && s[|s| - |tail|..] == tail
  }

  /** The secret name and version of the worker's file against a generation "arn:...:secret:name-suffix@version". */
  predicate RefMatches(name: string, version: string, g: Generation) {
    var p := SplitLast(g, "@");
    && p.Parts? && VersionId(version) && p.version == version
    && var secret := AfterFirst(p.resource, ":secret:", 0);
       secret.Some? && (secret.value == name || name + "-" <= secret.value)
  }

  predicate Chars(s: string, lo: nat, hi: nat, more: string) {
    lo <= |s| <= hi && forall i :: 0 <= i < |s| ==> VersionChar(s[i]) || s[i] in more
  }

  predicate StartsAlphanumeric(s: string) {
    s != "" && VersionChar(s[0]) && s[0] != '_' && s[0] != '-'
  }

  predicate Hex(s: string) {
    forall i :: 0 <= i < |s| ==> '0' <= s[i] <= '9' || 'a' <= s[i] <= 'f'
  }

  predicate RuntimeOk(v: Env)
    requires v.Keys == WorkerNames()
  {
    && v[STATE_REQUIRED] == "1"
    && Chars(v[STATE_TABLE], 3, 255, ".")
    && Chars(v[STATE_SCOPE], 1, 128, "./") && StartsAlphanumeric(v[STATE_SCOPE])
    && Chars(v[ROTATION_EPOCH], 1, 128, ".:") && StartsAlphanumeric(v[ROTATION_EPOCH])
    && |v[PROVENANCE]| == 64 && Hex(v[PROVENANCE]) && |v[ARTIFACT]| == 64 && Hex(v[ARTIFACT])
    && 10 <= |v[WORKER_ID]| <= 34 && v[WORKER_ID][..2] == "i-" && Hex(v[WORKER_ID][2..])
  }

  lemma Expected(d: Domain, f: WorkerField)
    ensures WorkerName(d, f) in WorkerNames()
  {
  }

  function Field(v: Env, d: Domain, f: WorkerField): string
    requires v.Keys == WorkerNames()
  {
    Expected(d, f);
    v[WorkerName(d, f)]
  }

  predicate PrimaryOk(m: Plan, d: Domain, v: Env)
    requires v.Keys == WorkerNames()
  {
    var name, ttl := Field(v, d, SecretName), Field(v, d, WorkerTtl);
    && name != "" && !EndsWith(name, "/database-url")
    && Field(v, d, WorkerPrimary) == m.proposed.At(d).primary
    && RefMatches(name, Field(v, d, PrimaryVersion), m.proposed.At(d).primary)
    && |ttl| <= (if d == MailAction then 5 else 6) && Digits(ttl) && 1 <= Number(ttl) <= MaxTtl(d)
  }

  predicate PreviousOk(m: Plan, d: Domain, v: Env)
    requires v.Keys == WorkerNames()
  {
    var c, name, version := m.proposed.At(d), Field(v, d, PreviousName), Field(v, d, PreviousVersion);
    var g, t0, marker := Field(v, d, WorkerPrevious), Field(v, d, WorkerT0), Field(v, d, WorkerMarker);
    if c.previous.None? then name == "" && version == "" && g == "" && t0 == "" && marker == ""
    else
      && name != "" && version != "" && g != "" && t0 != ""
      && g == c.previous.value
      && c.t0.Some? && c.t0.value >= 0 && t0 == Numeral(c.t0.value)
      && RefMatches(name, version, g)
      && marker == (if g == m.legacyDatabase then "1" else "")
      && ((marker == "1") <==> EndsWith(name, "/database-url"))
  }

  predicate LegacyOk(m: Plan, v: Env)
    requires v.Keys == WorkerNames()
  {
    var name, version, g := v[LEGACY_SECRET_NAME], v[LEGACY_VERSION], v[LEGACY_GENERATION];
    if m.legacyWorker.None? then name == "" && version == "" && g == ""
    else
      && name != "" && version != "" && g != ""
      && g == m.legacyWorker.value && MentionsSlack(name) && RefMatches(name, version, g)
  }

  predicate WorkerMatches(m: Plan, v: Env)
    requires v.Keys == WorkerNames()
  {
    && RuntimeOk(v)
    && PrimaryOk(m, MailAction, v) && PreviousOk(m, MailAction, v)
    && PrimaryOk(m, ReportLink, v) && PreviousOk(m, ReportLink, v)
    && Field(v, MailAction, SecretName) != Field(v, ReportLink, SecretName)
    && LegacyOk(m, v)
  }

  function WorkerVerdict(m: Plan, text: string): Verdict {
    var v := WorkerEnv(text);
    if PlanVerdict(m) != Accepted then PlanVerdict(m)
    else if v.None? || !WorkerMatches(m, v.value) then WorkerEnvDrift
    else Accepted
  }

  method ValidateWorkerEnv(m: Plan, text: string) returns (r: Verdict)
    ensures r == WorkerVerdict(m, text)
  {
    r := ValidateManifest(m);
    if r != Accepted { return; }
    var v := ParseWorkerEnv(text);
    if v.None? { return WorkerEnvDrift; }
    var ok := CheckWorkerEnv(m, v.value);
    r := if ok then Accepted else WorkerEnvDrift;
  }

  method CheckWorkerEnv(m: Plan, v: Env) returns (ok: bool)
    requires v.Keys == WorkerNames()
    ensures ok <==> WorkerMatches(m, v)
  {
    if !RuntimeOk(v) { return false; }
    var primaryNames: seq<string> := [];
    for i := 0 to |DOMAINS|
      invariant |primaryNames| == i
      invariant i > 0 ==> PrimaryOk(m, MailAction, v) && PreviousOk(m, MailAction, v) && primaryNames[0] == Field(v, MailAction, SecretName)
      invariant i > 1 ==> PrimaryOk(m, ReportLink, v) && PreviousOk(m, ReportLink, v) && primaryNames[1] == Field(v, ReportLink, SecretName)
    {
      var d := DOMAINS[i];
      if !PrimaryOk(m, d, v) { return false; }
      primaryNames := primaryNames + [Field(v, d, SecretName)];
      if !PreviousOk(m, d, v) { return false; }
    }
    ok := primaryNames[0] != primaryNames[1] && LegacyOk(m, v);
  }

  // ---------------------------------------------------------------- one triple per domain

  /** The configuration the worker's file declares for a domain. */
  function WorkerConfig(d: Domain, v: Env): Option<Config>
    requires v.Keys == WorkerNames()
  {
    var g, t0 := Field(v, d, WorkerPrevious), Field(v, d, WorkerT0);
    if g == "" && t0 == "" then Some(Config(Field(v, d, WorkerPrimary), None, None))
    else if !Digits(t0) then None
    else Some(Config(Field(v, d, WorkerPrimary), Some(g), Some(Number(t0))))
  }

  lemma WorkerDeclares(m: Plan, d: Domain, v: Env)
    requires v.Keys == WorkerNames() && PrimaryOk(m, d, v) && PreviousOk(m, d, v)
    requires m.proposed.At(d).previous.Some? == m.proposed.At(d).t0.Some?
    ensures WorkerConfig(d, v) == Some(m.proposed.At(d))
  {
    if m.proposed.At(d).t0.Some? {
      NumberOfNumeral(m.proposed.At(d).t0.value);
    }
  }

  lemma WorkerAccepted(m: Plan, text: string, d: Domain)
    requires WorkerVerdict(m, text) == Accepted
    ensures WorkerEnv(text).Some? && PlanSound(m)
    ensures PrimaryOk(m, d, WorkerEnv(text).value) && WorkerConfig(d, WorkerEnv(text).value) == Some(m.proposed.At(d))
  {
    PlanAcceptedIff(m);
    assert StepSound(m, d);
    WorkerDeclares(m, d, WorkerEnv(text).value);
  }

  lemma DefinitionAccepted(m: Plan, t: Workload, def: Definition, d: Domain)
    requires RenderedVerdict(m, t, def) == Accepted && d in TaskDomains(t)
    ensures var env, secrets := NamedValues(def.environment).value, NamedValues(def.secrets).value;
            DeclaredConfig(d, env, secrets, m.legacyDatabase) == Some(m.proposed.At(d))
  {
    assert PreflightTasks.DomainMatches(m, d, NamedValues(def.environment).value, NamedValues(def.secrets).value);
  }

  lemma DeclaredPins(d: Domain, env: Values, secrets: Values, legacyDatabase: Generation, c: Config)
    requires DeclaredConfig(d, env, secrets, legacyDatabase) == Some(c)
    ensures Pinned(Get(secrets, Name(d, PrimarySecret)), Text(c.primary))
    ensures c.t0.Some? ==>
              var t0 := Get(env, Name(d, RotationStartedAt)); T0Text(t0) && Number(t0.s) == c.t0.value
  {
  }

  /** An accepted definition and an accepted worker file decode to one triple per domain, the manifest's;
      T0 is spelled alike up to leading zeros, and the definition's secret reference pins the version the
      worker names. */
  lemma OneTriplePerDomain(m: Plan, t: Workload, def: Definition, text: string, d: Domain)
    requires RenderedVerdict(m, t, def) == Accepted && WorkerVerdict(m, text) == Accepted && d in TaskDomains(t)
    ensures var env, secrets, v := NamedValues(def.environment).value, NamedValues(def.secrets).value, WorkerEnv(text).value;
      && DeclaredConfig(d, env, secrets, m.legacyDatabase) == WorkerConfig(d, v) == Some(m.proposed.At(d))
      && SameReference(Get(secrets, Name(d, PrimarySecret)), Field(v, d, PrimaryVersion))
      && (m.proposed.At(d).t0.Some? ==> SameT0(Get(env, Name(d, RotationStartedAt)), Field(v, d, WorkerT0)))
  {
    var env, secrets, v := NamedValues(def.environment).value, NamedValues(def.secrets).value, WorkerEnv(text).value;
    WorkerAccepted(m, text, d);
    DefinitionAccepted(m, t, def, d);
    DeclaredPins(d, env, secrets, m.legacyDatabase, m.proposed.At(d));
    if m.proposed.At(d).t0.Some? {
      SameNumber(Get(env, Name(d, RotationStartedAt)).s, Field(v, d, WorkerT0));
    }
  }

  predicate SameReference(reference: Json, version: string) {
    reference.Text? && var p := SplitLast(reference.s, ":::"); p.Parts? && p.version == version
  }

  predicate SameT0(a: Json, b: string) {
    T0Text(a) && Digits(b) && Significant(a.s) == Significant(b)
  }

  /** So all accepted definitions, of whatever tasks, agree with each other. */
  lemma AllTasksAgree(m: Plan, t: Workload, a: Definition, u: Workload, b: Definition, d: Domain)
    requires RenderedVerdict(m, t, a) == Accepted && RenderedVerdict(m, u, b) == Accepted
    requires d in TaskDomains(t) && d in TaskDomains(u)
    ensures DeclaredConfig(d, NamedValues(a.environment).value, NamedValues(a.secrets).value, m.legacyDatabase)
         == DeclaredConfig(d, NamedValues(b.environment).value, NamedValues(b.secrets).value, m.legacyDatabase)
         == Some(m.proposed.At(d))
  {
    DefinitionAccepted(m, t, a, d);
    DefinitionAccepted(m, u, b, d);
  }

  /** The definition's entries and the worker's fields name one generation and pin one version of it, or
      there are none. */
  predicate OneLegacy(legacy: Option<Generation>, generation: Json, reference: Json, v: Env)
    requires v.Keys == WorkerNames()
  {
    if legacy.Some? then
      && generation == Text(v[LEGACY_GENERATION]) && v[LEGACY_GENERATION] == legacy.value
      && SameReference(reference, v[LEGACY_VERSION]) && MentionsSlack(v[LEGACY_SECRET_NAME])
    else
      && generation == Null && reference == Null
      && v[LEGACY_GENERATION] == "" && v[LEGACY_VERSION] == "" && v[LEGACY_SECRET_NAME] == ""
  }

  lemma LegacyPins(m: Plan, generation: Json, reference: Json, v: Env)
    requires v.Keys == WorkerNames() && LegacyOk(m, v)
    requires if m.legacyWorker.None? then generation == Null && reference == Null
             else generation == Text(m.legacyWorker.value) && Pinned(reference, generation)
    ensures OneLegacy(m.legacyWorker, generation, reference, v)
  {
  }

  lemma LegacyDeclared(m: Plan, t: Workload, def: Definition)
    requires RenderedVerdict(m, t, def) == Accepted && MailAction in TaskDomains(t)
    ensures LegacyMatches(m, MailAction, NamedValues(def.environment).value, NamedValues(def.secrets).value)
  {
    var env, secrets := NamedValues(def.environment).value, NamedValues(def.secrets).value;
    assert PreflightTasks.Matches(m, t, env, secrets);
    assert PreflightTasks.DomainMatches(m, MailAction, env, secrets);
  }

  lemma LegacyInFile(m: Plan, text: string)
    requires WorkerVerdict(m, text) == Accepted
    ensures WorkerEnv(text).Some? && LegacyOk(m, WorkerEnv(text).value)
  {
  }

  /** With a legacy worker, an accepted definition that signs mail actions and an accepted worker file name
      its one generation and pin its one version; without, neither of them mentions it. */
  lemma OneLegacyWorker(m: Plan, t: Workload, def: Definition, text: string)
    requires RenderedVerdict(m, t, def) == Accepted && WorkerVerdict(m, text) == Accepted && MailAction in TaskDomains(t)
    ensures OneLegacy(m.legacyWorker, Get(NamedValues(def.environment).value, Name(MailAction, LegacyWorkerGeneration)),
                      Get(NamedValues(def.secrets).value, Name(MailAction, LegacyWorkerSecret)), WorkerEnv(text).value)
  {
    LegacyDeclared(m, t, def);
    LegacyInFile(m, text);
    LegacyPins(m, Get(NamedValues(def.environment).value, Name(MailAction, LegacyWorkerGeneration)),
               Get(NamedValues(def.secrets).value, Name(MailAction, LegacyWorkerSecret)), WorkerEnv(text).value);
  }

  /** An accepted worker requires the durable state, says which 64-digit provenance and artifact it runs, and
      signs with two secrets, none of them the database's. */
  lemma AcceptedWorker(m: Plan, text: string)
    requires WorkerVerdict(m, text) == Accepted
    ensures var v := WorkerEnv(text).value;
            && v[STATE_REQUIRED] == "1" && |v[PROVENANCE]| == 64 && |v[ARTIFACT]| == 64
            && "i-" <= v[WORKER_ID] && v[STATE_TABLE] != "" && v[STATE_SCOPE] != "" && v[ROTATION_EPOCH] != ""
            && Field(v, MailAction, SecretName) != Field(v, ReportLink, SecretName)
            && !EndsWith(Field(v, MailAction, SecretName), "/database-url")
            && !EndsWith(Field(v, ReportLink, SecretName), "/database-url")
  {
    var v := WorkerEnv(text).value;
    assert WorkerMatches(m, v) && RuntimeOk(v);
  }
}
