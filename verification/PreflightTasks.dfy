/** Rendered ECS task definitions against an accepted manifest: which names a definition may carry and
    what every one of them has to say. */
module PreflightTasks {
  import opened Optional
  import opened HmacKeyring
  import opened HmacTable
  import opened Preflight
  import opened Decimals

  /** A value of a rendered definition; anything that is not text is `Other`. */
  datatype Json = Null | Text(s: string) | Other

  datatype Entry = Malformed | Entry(name: string, value: Json)

  /** One container's environment and secret references; `Unreadable` when the shape is wrong. */
  datatype Definition = Unreadable | Definition(environment: seq<Entry>, secrets: seq<Entry>)

  type Values = map<string, Json>

  // ---------------------------------------------------------------- named values

  function NamedValues(entries: seq<Entry>): Option<Values> {
    if entries == [] then Some(map[])
    else
      var before, e := NamedValues(entries[..|entries| - 1]), entries[|entries| - 1];
      if before.None? || e.Malformed? || e.name in before.value then None else Some(before.value[e.name := e.value])
  }

  predicate Named(entries: seq<Entry>, n: string) {
    exists i :: 0 <= i < |entries| && entries[i].Entry? && entries[i].name == n
  }

  predicate WellNamed(entries: seq<Entry>) {
    && (forall i :: 0 <= i < |entries| ==> entries[i].Entry?)
    && (forall i, j :: 0 <= i < j < |entries| ==> entries[i].name != entries[j].name)
  }

  lemma NamedNext(entries: seq<Entry>, n: string)
    requires entries != []
    ensures var last := entries[|entries| - 1];
            Named(entries, n) <==> Named(entries[..|entries| - 1], n) || (last.Entry? && last.name == n)
  {
    var before := entries[..|entries| - 1];
    if Named(before, n) {
      var i :| 0 <= i < |before| && before[i].Entry? && before[i].name == n;
      assert entries[i] == before[i];
    }
  }

  /** The names collected are the names of the entries, each with the value of an entry. */
  lemma {:induction false} NamedValuesHold(entries: seq<Entry>)
    requires NamedValues(entries).Some?
    ensures forall n :: n in NamedValues(entries).value <==> Named(entries, n)
    ensures WellNamed(entries)
    ensures forall i :: 0 <= i < |entries| ==>
              entries[i].name in NamedValues(entries).value && NamedValues(entries).value[entries[i].name] == entries[i].value
    decreases |entries|
  {
    if entries != [] {
      var before, e := entries[..|entries| - 1], entries[|entries| - 1];
      NamedValuesHold(before);
      forall n ensures n in NamedValues(entries).value <==> Named(entries, n) {
        NamedNext(entries, n);
      }
      forall i | 0 <= i < |before| ensures entries[i] == before[i] && entries[i].name != e.name {
        assert before[i].name in NamedValues(before).value;
      }
    }
  }

  /** Values exist exactly when every entry is well formed and no name repeats. */
  lemma {:induction false} NamedValuesIff(entries: seq<Entry>)
    ensures NamedValues(entries).Some? <==> WellNamed(entries)
    decreases |entries|
  {
    if NamedValues(entries).Some? {
      NamedValuesHold(entries);
    } else {
      var before, e := entries[..|entries| - 1], entries[|entries| - 1];
      NamedValuesIff(before);
      if NamedValues(before).Some? && e.Entry? {
        NamedValuesHold(before);
        var i :| 0 <= i < |before| && before[i].Entry? && before[i].name == e.name;
        assert entries[i].name == entries[|entries| - 1].name;
      }
    }
  }

  lemma {:induction false} RefusedStays(entries: seq<Entry>, k: nat)
    requires k <= |entries| && NamedValues(entries[..k]).None?
    ensures NamedValues(entries).None?
    decreases |entries|
  {
    if k == |entries| {
      assert entries[..k] == entries;
    } else {
      assert entries[..|entries| - 1][..k] == entries[..k];
      RefusedStays(entries[..|entries| - 1], k);
    }
  }

  method CollectNamedValues(entries: seq<Entry>) returns (r: Option<Values>)
    ensures r == NamedValues(entries)
  {
    var values: Values := map[];
    for k := 0 to |entries|
      invariant NamedValues(entries[..k]) == Some(values)
    {
      var e := entries[k];
      assert entries[..k + 1][..k] == entries[..k];
      if e.Malformed? || e.name in values {
        RefusedStays(entries, k + 1);
        return None;
      }
      values := values[e.name := e.value];
    }
    assert entries[..|entries|] == entries;
    r := Some(values);
  }

  // ---------------------------------------------------------------- names

  datatype Field =
    | PrimaryGeneration | PreviousGeneration | RotationStartedAt | LegacyMarker | LegacyWorkerGeneration | Ttl
    | PrimarySecret | PreviousSecret | LegacyWorkerSecret

  function Prefix(d: Domain): string {
    match d
    case MailAction => "MAIL_ACTION"
    case ReportLink => "REPORT_LINK"
  }

  function Suffix(f: Field): string {
    if f == Ttl then "_TTL_S" else "_HMAC_" + Rest(f)
  }

  function Rest(f: Field): string {
    match f
    case PrimaryGeneration => "PRIMARY_GENERATION"
    case PreviousGeneration => "PREVIOUS_GENERATION"
    case RotationStartedAt => "PREVIOUS_ROTATION_STARTED_AT"
    case LegacyMarker => "PREVIOUS_IS_LEGACY"
    case LegacyWorkerGeneration => "LEGACY_WORKER_GENERATION"
    case Ttl => ""
    case PrimarySecret => "SECRET"
    case PreviousSecret => "PREVIOUS_SECRET"
    case LegacyWorkerSecret => "LEGACY_WORKER_SECRET"
  }

  function Name(d: Domain, f: Field): string {
    Prefix(d) + Suffix(f)
  }

  predicate IsHmacName(n: string) {
    exists d: Domain :: Prefix(d) + "_HMAC_" <= n || n == Name(d, Ttl)
  }

  lemma NamesAreHmac(d: Domain, f: Field)
    ensures IsHmacName(Name(d, f))
  {
    if f != Ttl {
      HeadOf(Prefix(d), "_HMAC_", Rest(f));
      assert Prefix(d) + "_HMAC_" <= Name(d, f);
    }
  }

  lemma HeadOf(a: string, b: string, c: string)
    ensures a + b <= a + (b + c)
  {
    assert a + (b + c) == (a + b) + c;
  }

  lemma RestsDiffer(f: Field, g: Field)
    requires f != g && f != Ttl && g != Ttl
    ensures Rest(f) != Rest(g)
  {
    if |Rest(f)| == |Rest(g)| {
      assert Rest(f)[2] != Rest(g)[2];
    }
  }

  lemma SuffixesDiffer(f: Field, g: Field)
    requires f != g
    ensures Suffix(f) != Suffix(g)
  {
    if f == Ttl || g == Ttl {
      var h := if f == Ttl then g else f;
      assert |Suffix(h)| > 6;
    } else {
      RestsDiffer(f, g);
      assert Suffix(f)[6..] == Rest(f) && Suffix(g)[6..] == Rest(g);
    }
  }

  /** No two fields share a name. */
  lemma NamesDiffer(d: Domain, f: Field, e: Domain, g: Field)
    requires d != e || f != g
    ensures Name(d, f) != Name(e, g)
  {
    if d != e {
      assert Name(d, f)[0] == Prefix(d)[0] && Name(e, g)[0] == Prefix(e)[0];
      assert Prefix(MailAction)[0] == 'M' && Prefix(ReportLink)[0] == 'R';
    } else {
      SuffixesDiffer(f, g);
      assert Name(d, f)[11..] == Suffix(f) && Name(e, g)[11..] == Suffix(g);
    }
  }

  // ---------------------------------------------------------------- what a domain must show

  /** The fields a task's environment carries for a domain whose configuration is c. */
  function EnvironmentFields(m: Plan, d: Domain, c: Config): set<Field> {
    {PrimaryGeneration, Ttl}
    + (if c.previous.None? then {} else {PreviousGeneration, RotationStartedAt})
    + (if c.previous == Some(m.legacyDatabase) then {LegacyMarker} else {})
    + (if c.previous == Some(m.legacyDatabase) && d == MailAction && m.legacyWorker.Some? then {LegacyWorkerGeneration} else {})
  }

  function SecretFields(m: Plan, d: Domain, c: Config): set<Field> {
    {PrimarySecret}
    + (if c.previous.None? then {} else {PreviousSecret})
    + (if c.previous == Some(m.legacyDatabase) && d == MailAction && m.legacyWorker.Some? then {LegacyWorkerSecret} else {})
  }

  function Get(v: Values, n: string): Json {
    if n in v then v[n] else Null
  }

  /** A secret reference "resource:::version" pins the version of the generation "resource@version". */
  predicate Pinned(reference: Json, generation: Json) {
    && reference.Text? && generation.Text?
    && var a, b := SplitLast(reference.s, ":::"), SplitLast(generation.s, "@");
       a.Parts? && b.Parts? && a.resource != "" && VersionId(a.version) && a.version == b.version && a.resource == b.resource
  }

  predicate TtlText(d: Domain, v: Json) {
    && v.Text? && |v.s| <= (if d == MailAction then 5 else 6) && Digits(v.s)
    && 1 <= Number(v.s) <= MaxTtl(d)
  }

  predicate T0Text(v: Json) {
    v.Text? && |v.s| <= 10 && Digits(v.s)
  }

  /** The values of one domain in a definition. */
  datatype Slots = Slots(primary: Json, primarySecret: Json, previous: Json, previousSecret: Json, t0: Json, marker: Json, ttl: Json)

  function ColumnOf(d: Domain, v: Values): Field -> Json {
    f => Get(v, Name(d, f))
  }

  function SlotsOf(env: Field -> Json, secrets: Field -> Json): Slots {
    Slots(env(PrimaryGeneration), secrets(PrimarySecret), env(PreviousGeneration), secrets(PreviousSecret),
          env(RotationStartedAt), env(LegacyMarker), env(Ttl))
  }

  /** The configuration a definition declares for a domain; None when it contradicts itself or carries a
      secret in the clear. */
  function DeclaredConfig(d: Domain, env: Values, secrets: Values, legacyDatabase: Generation): Option<Config> {
    if Name(d, PrimarySecret) in env || Name(d, PreviousSecret) in env then None
    else Declared(d, SlotsOf(ColumnOf(d, env), ColumnOf(d, secrets)), legacyDatabase)
  }

  function Declared(d: Domain, v: Slots, legacyDatabase: Generation): Option<Config> {
    if !Pinned(v.primarySecret, v.primary) || !TtlText(d, v.ttl) then None
    else if v.previous == Null && v.previousSecret == Null && v.t0 == Null then
      if v.marker != Null then None else Some(Config(v.primary.s, None, None))
    else if v.previous == Null || v.previousSecret == Null || v.t0 == Null then None
    else if v.previous == Text(legacyDatabase) && v.marker != Text("1") then None
    else if v.previous != Text(legacyDatabase) && v.marker != Null then None
    else if !Pinned(v.previousSecret, v.previous) || !T0Text(v.t0) then None
    else Some(Config(v.primary.s, Some(v.previous.s), Some(Number(v.t0.s))))
  }

  predicate LegacyWorkerMatches(env: Values, secrets: Values, expected: Option<Generation>) {
    var generation, reference := Get(env, Name(MailAction, LegacyWorkerGeneration)), Get(secrets, Name(MailAction, LegacyWorkerSecret));
    if expected.None? then generation == Null && reference == Null
    else generation == Text(expected.value) && Pinned(reference, generation)
  }

  function ExpectedEnvironment(m: Plan, t: Workload): set<string> {
    set d: Domain, f: Field | d in TaskDomains(t) && f in EnvironmentFields(m, d, m.proposed.At(d)) :: Name(d, f)
  }

  function ExpectedSecrets(m: Plan, t: Workload): set<string> {
    set d: Domain, f: Field | d in TaskDomains(t) && f in SecretFields(m, d, m.proposed.At(d)) :: Name(d, f)
  }

  function HmacNames(v: Values): set<string> {
    set n | n in v && IsHmacName(n)
  }

  /** The verdict on one definition; the manifest is accepted, so its tasks carry the proposed configurations. */
  function RenderedVerdict(m: Plan, t: Workload, def: Definition): Verdict {
    if t == Worker then UnknownRenderedTask(t)
    else if def.Unreadable? then InvalidRenderedTask(t)
    else
      var env, secrets := NamedValues(def.environment), NamedValues(def.secrets);
      if env.None? || secrets.None? then InvalidRenderedTask(t)
      else if !Matches(m, t, env.value, secrets.value) then RenderedTaskDrift(t)
      else Accepted
  }

  predicate Matches(m: Plan, t: Workload, env: Values, secrets: Values) {
    && HmacNames(env) == ExpectedEnvironment(m, t)
    && HmacNames(secrets) == ExpectedSecrets(m, t)
    && forall d :: d in TaskDomains(t) ==> DomainMatches(m, d, env, secrets)
  }

  predicate DomainMatches(m: Plan, d: Domain, env: Values, secrets: Values) {
    && DeclaredConfig(d, env, secrets, m.legacyDatabase) == Some(m.proposed.At(d))
    && LegacyMatches(m, d, env, secrets)
  }

  // ---------------------------------------------------------------- what an accepted definition says

  /** What the manifest makes of one field: everything but the lifetime and the spelling of T0 is decided. */
  predicate Shows(m: Plan, d: Domain, f: Field, v: Json) {
    var c := m.proposed.At(d);
    match f
    case PrimaryGeneration => v == Text(c.primary)
    case PreviousGeneration => c.previous.Some? && v == Text(c.previous.value)
    case RotationStartedAt => c.t0.Some? && T0Text(v) && Number(v.s) == c.t0.value
    case LegacyMarker => v == Text("1")
    case LegacyWorkerGeneration => m.legacyWorker.Some? && v == Text(m.legacyWorker.value)
    case Ttl => TtlText(d, v)
    case PrimarySecret => Pinned(v, Text(c.primary))
    case PreviousSecret => c.previous.Some? && Pinned(v, Text(c.previous.value))
    case LegacyWorkerSecret => m.legacyWorker.Some? && Pinned(v, Text(m.legacyWorker.value))
  }

  predicate ShowsAll(m: Plan, d: Domain, fields: set<Field>, v: Field -> Json) {
    forall f: Field :: f in fields ==> Shows(m, d, f, v(f))
  }

  /** The signing names are exactly the expected ones, and each says what the manifest says. */
  predicate RenderedSound(m: Plan, t: Workload, env: Values, secrets: Values) {
    && HmacNames(env) == ExpectedEnvironment(m, t)
    && HmacNames(secrets) == ExpectedSecrets(m, t)
    && forall d :: d in TaskDomains(t) ==> DomainShows(m, d, env, secrets)
  }

  lemma EnvironmentPresent(m: Plan, t: Workload, env: Values, d: Domain, f: Field)
    requires HmacNames(env) == ExpectedEnvironment(m, t) && d in TaskDomains(t)
    ensures Name(d, f) in env <==> f in EnvironmentFields(m, d, m.proposed.At(d))
  {
    NamesAreHmac(d, f);
    assert Name(d, f) in env <==> Name(d, f) in HmacNames(env);
    if Name(d, f) in ExpectedEnvironment(m, t) {
      var e, g :| e in TaskDomains(t) && g in EnvironmentFields(m, e, m.proposed.At(e)) && Name(e, g) == Name(d, f);
      if e != d || g != f { NamesDiffer(e, g, d, f); }
    }
  }

  lemma SecretPresent(m: Plan, t: Workload, secrets: Values, d: Domain, f: Field)
    requires HmacNames(secrets) == ExpectedSecrets(m, t) && d in TaskDomains(t)
    ensures Name(d, f) in secrets <==> f in SecretFields(m, d, m.proposed.At(d))
  {
    NamesAreHmac(d, f);
    assert Name(d, f) in secrets <==> Name(d, f) in HmacNames(secrets);
    if Name(d, f) in ExpectedSecrets(m, t) {
      var e, g :| e in TaskDomains(t) && g in SecretFields(m, e, m.proposed.At(e)) && Name(e, g) == Name(d, f);
      if e != d || g != f { NamesDiffer(e, g, d, f); }
    }
  }

  /** The fields of a domain that a map holds are exactly the given ones. */
  predicate Holds(v: Values, d: Domain, fields: set<Field>) {
    forall f: Field :: Name(d, f) in v <==> f in fields
  }

  /** What the slots must hold for a given configuration. */
  predicate SlotsShow(d: Domain, v: Slots, c: Config, legacyDatabase: Generation) {
    && v.primary == Text(c.primary) && Pinned(v.primarySecret, v.primary) && TtlText(d, v.ttl)
    && match c.previous
       case None => v.previous == Null && v.previousSecret == Null && v.t0 == Null && v.marker == Null
       case Some(g) =>
         && v.previous == Text(g) && Pinned(v.previousSecret, v.previous)
         && T0Text(v.t0) && c.t0 == Some(Number(v.t0.s))
         && v.marker == (if g == legacyDatabase then Text("1") else Null)
  }

  lemma SlotsDeclare(d: Domain, v: Slots, c: Config, legacyDatabase: Generation)
    requires c.previous.Some? == c.t0.Some?
    ensures Declared(d, v, legacyDatabase) == Some(c) <==> SlotsShow(d, v, c, legacyDatabase)
  {
  }

  predicate ShowsCore(m: Plan, d: Domain, env: Field -> Json, secrets: Field -> Json) {
    && ShowsAll(m, d, EnvironmentFields(m, d, m.proposed.At(d)) - {LegacyWorkerGeneration}, env)
    && ShowsAll(m, d, SecretFields(m, d, m.proposed.At(d)) - {LegacyWorkerSecret}, secrets)
  }

  predicate NullOutside(v: Field -> Json, fields: set<Field>) {
    forall f: Field :: f !in fields ==> v(f) == Null
  }

  lemma EnvironmentSlots(m: Plan, d: Domain, env: Field -> Json)
    requires m.proposed.At(d).previous.Some? == m.proposed.At(d).t0.Some?
    requires NullOutside(env, EnvironmentFields(m, d, m.proposed.At(d)))
    ensures var c := m.proposed.At(d);
            ShowsAll(m, d, EnvironmentFields(m, d, c) - {LegacyWorkerGeneration}, env) <==>
            && env(PrimaryGeneration) == Text(c.primary) && TtlText(d, env(Ttl))
            && match c.previous
               case None => env(PreviousGeneration) == Null && env(RotationStartedAt) == Null && env(LegacyMarker) == Null
               case Some(g) =>
                 && env(PreviousGeneration) == Text(g) && T0Text(env(RotationStartedAt))
                 && c.t0 == Some(Number(env(RotationStartedAt).s))
                 && env(LegacyMarker) == (if g == m.legacyDatabase then Text("1") else Null)
  {
    var c := m.proposed.At(d);
    var ef := EnvironmentFields(m, d, c) - {LegacyWorkerGeneration};
    assert ShowsAll(m, d, ef, env) <==>
      && Shows(m, d, PrimaryGeneration, env(PrimaryGeneration)) && Shows(m, d, Ttl, env(Ttl))
      && (c.previous.Some? ==>
            Shows(m, d, PreviousGeneration, env(PreviousGeneration)) && Shows(m, d, RotationStartedAt, env(RotationStartedAt)))
      && (c.previous == Some(m.legacyDatabase) ==> Shows(m, d, LegacyMarker, env(LegacyMarker)));
  }

  lemma SecretSlots(m: Plan, d: Domain, secrets: Field -> Json)
    requires NullOutside(secrets, SecretFields(m, d, m.proposed.At(d)))
    ensures var c := m.proposed.At(d);
            ShowsAll(m, d, SecretFields(m, d, c) - {LegacyWorkerSecret}, secrets) <==>
            && Pinned(secrets(PrimarySecret), Text(c.primary))
            && (if c.previous.Some? then Pinned(secrets(PreviousSecret), Text(c.previous.value)) else secrets(PreviousSecret) == Null)
  {
    var c := m.proposed.At(d);
    assert ShowsAll(m, d, SecretFields(m, d, c) - {LegacyWorkerSecret}, secrets) <==>
      && Shows(m, d, PrimarySecret, secrets(PrimarySecret))
      && (c.previous.Some? ==> Shows(m, d, PreviousSecret, secrets(PreviousSecret)));
  }

  lemma CoreSlots(m: Plan, d: Domain, env: Field -> Json, secrets: Field -> Json)
    requires m.proposed.At(d).previous.Some? == m.proposed.At(d).t0.Some?
    requires NullOutside(env, EnvironmentFields(m, d, m.proposed.At(d)))
    requires NullOutside(secrets, SecretFields(m, d, m.proposed.At(d)))
    ensures ShowsCore(m, d, env, secrets) <==> SlotsShow(d, SlotsOf(env, secrets), m.proposed.At(d), m.legacyDatabase)
  {
    EnvironmentSlots(m, d, env);
    SecretSlots(m, d, secrets);
  }

  lemma SlotsIff(m: Plan, d: Domain, env: Field -> Json, secrets: Field -> Json)
    requires m.proposed.At(d).previous.Some? == m.proposed.At(d).t0.Some?
    requires NullOutside(env, EnvironmentFields(m, d, m.proposed.At(d)))
    requires NullOutside(secrets, SecretFields(m, d, m.proposed.At(d)))
    ensures Declared(d, SlotsOf(env, secrets), m.legacyDatabase) == Some(m.proposed.At(d)) <==> ShowsCore(m, d, env, secrets)
  {
    CoreSlots(m, d, env, secrets);
    SlotsDeclare(d, SlotsOf(env, secrets), m.proposed.At(d), m.legacyDatabase);
  }

  lemma NothingInTheClear(m: Plan, d: Domain, env: Values, secrets: Values)
    requires Holds(env, d, EnvironmentFields(m, d, m.proposed.At(d)))
    ensures DeclaredConfig(d, env, secrets, m.legacyDatabase)
            == Declared(d, SlotsOf(ColumnOf(d, env), ColumnOf(d, secrets)), m.legacyDatabase)
  {
    assert PrimarySecret !in EnvironmentFields(m, d, m.proposed.At(d));
    assert PreviousSecret !in EnvironmentFields(m, d, m.proposed.At(d));
  }

  lemma ColumnNull(d: Domain, v: Values, fields: set<Field>)
    requires Holds(v, d, fields)
    ensures NullOutside(ColumnOf(d, v), fields)
  {
  }

  lemma DeclaredIff(m: Plan, d: Domain, env: Values, secrets: Values)
    requires m.proposed.At(d).previous.Some? == m.proposed.At(d).t0.Some?
    requires Holds(env, d, EnvironmentFields(m, d, m.proposed.At(d)))
    requires Holds(secrets, d, SecretFields(m, d, m.proposed.At(d)))
    ensures DeclaredConfig(d, env, secrets, m.legacyDatabase) == Some(m.proposed.At(d)) <==>
            ShowsCore(m, d, ColumnOf(d, env), ColumnOf(d, secrets))
  {
    var e, s, c := ColumnOf(d, env), ColumnOf(d, secrets), m.proposed.At(d);
    ColumnNull(d, env, EnvironmentFields(m, d, c));
    ColumnNull(d, secrets, SecretFields(m, d, c));
    NothingInTheClear(m, d, env, secrets);
    SlotsIff(m, d, e, s);
  }

  predicate LegacyShows(m: Plan, d: Domain, env: Field -> Json, secrets: Field -> Json) {
    && (LegacyWorkerGeneration in EnvironmentFields(m, d, m.proposed.At(d)) ==>
          Shows(m, d, LegacyWorkerGeneration, env(LegacyWorkerGeneration)))
    && (LegacyWorkerSecret in SecretFields(m, d, m.proposed.At(d)) ==>
          Shows(m, d, LegacyWorkerSecret, secrets(LegacyWorkerSecret)))
  }

  predicate LegacyMatches(m: Plan, d: Domain, env: Values, secrets: Values) {
    d == MailAction ==> LegacyWorkerMatches(env, secrets, m.legacyWorker)
  }

  lemma LegacyFields(m: Plan, d: Domain)
    requires LegacySound(m)
    ensures LegacyWorkerGeneration in EnvironmentFields(m, d, m.proposed.At(d)) <==> d == MailAction && m.legacyWorker.Some?
    ensures LegacyWorkerSecret in SecretFields(m, d, m.proposed.At(d)) <==> d == MailAction && m.legacyWorker.Some?
  {
  }

  lemma LegacyHeld(m: Plan, d: Domain, env: Values, secrets: Values)
    requires LegacySound(m)
    requires Holds(env, d, EnvironmentFields(m, d, m.proposed.At(d)))
    requires Holds(secrets, d, SecretFields(m, d, m.proposed.At(d)))
    ensures Name(d, LegacyWorkerGeneration) in env <==> d == MailAction && m.legacyWorker.Some?
    ensures Name(d, LegacyWorkerSecret) in secrets <==> d == MailAction && m.legacyWorker.Some?
  {
    LegacyFields(m, d);
  }

  lemma LegacyIff(m: Plan, d: Domain, env: Values, secrets: Values)
    requires LegacySound(m)
    requires Holds(env, d, EnvironmentFields(m, d, m.proposed.At(d)))
    requires Holds(secrets, d, SecretFields(m, d, m.proposed.At(d)))
    ensures LegacyMatches(m, d, env, secrets) <==> LegacyShows(m, d, ColumnOf(d, env), ColumnOf(d, secrets))
  {
    LegacyFields(m, d);
    LegacyHeld(m, d, env, secrets);
    if d == MailAction {
      LegacyMailIff(m, env, secrets);
    }
  }

  lemma LegacyMailIff(m: Plan, env: Values, secrets: Values)
    requires LegacySound(m)
    requires Name(MailAction, LegacyWorkerGeneration) in env <==> m.legacyWorker.Some?
    requires Name(MailAction, LegacyWorkerSecret) in secrets <==> m.legacyWorker.Some?
    ensures LegacyWorkerMatches(env, secrets, m.legacyWorker) <==>
              LegacyShows(m, MailAction, ColumnOf(MailAction, env), ColumnOf(MailAction, secrets))
  {
    LegacyFields(m, MailAction);
  }

  /** Fields of a task's domains are in a definition exactly when they are expected there. */
  lemma FieldsHeld(m: Plan, t: Workload, env: Values, secrets: Values, d: Domain)
    requires HmacNames(env) == ExpectedEnvironment(m, t) && HmacNames(secrets) == ExpectedSecrets(m, t)
    requires d in TaskDomains(t)
    ensures Holds(env, d, EnvironmentFields(m, d, m.proposed.At(d)))
    ensures Holds(secrets, d, SecretFields(m, d, m.proposed.At(d)))
  {
    forall f: Field ensures Name(d, f) in env <==> f in EnvironmentFields(m, d, m.proposed.At(d)) {
      EnvironmentPresent(m, t, env, d, f);
    }
    forall f: Field ensures Name(d, f) in secrets <==> f in SecretFields(m, d, m.proposed.At(d)) {
      SecretPresent(m, t, secrets, d, f);
    }
  }

  predicate DomainShows(m: Plan, d: Domain, env: Values, secrets: Values) {
    && ShowsAll(m, d, EnvironmentFields(m, d, m.proposed.At(d)), ColumnOf(d, env))
    && ShowsAll(m, d, SecretFields(m, d, m.proposed.At(d)), ColumnOf(d, secrets))
  }

  lemma ShowsJoin(m: Plan, d: Domain, env: Values, secrets: Values)
    ensures var e, s := ColumnOf(d, env), ColumnOf(d, secrets);
            DomainShows(m, d, env, secrets) <==>
            ShowsCore(m, d, e, s) && LegacyShows(m, d, e, s)
  {
    var c := m.proposed.At(d);
    Add(m, d, EnvironmentFields(m, d, c), LegacyWorkerGeneration, ColumnOf(d, env));
    Add(m, d, SecretFields(m, d, c), LegacyWorkerSecret, ColumnOf(d, secrets));
  }

  lemma DomainIff(m: Plan, t: Workload, env: Values, secrets: Values, d: Domain)
    requires PlanSound(m) && d in TaskDomains(t)
    requires HmacNames(env) == ExpectedEnvironment(m, t) && HmacNames(secrets) == ExpectedSecrets(m, t)
    ensures DomainMatches(m, d, env, secrets) <==> DomainShows(m, d, env, secrets)
  {
    assert StepSound(m, d);
    FieldsHeld(m, t, env, secrets, d);
    HeldIff(m, d, env, secrets);
  }

  lemma HeldIff(m: Plan, d: Domain, env: Values, secrets: Values)
    requires m.proposed.At(d).previous.Some? == m.proposed.At(d).t0.Some? && LegacySound(m)
    requires Holds(env, d, EnvironmentFields(m, d, m.proposed.At(d)))
    requires Holds(secrets, d, SecretFields(m, d, m.proposed.At(d)))
    ensures DomainMatches(m, d, env, secrets) <==> DomainShows(m, d, env, secrets)
  {
    DeclaredIff(m, d, env, secrets);
    LegacyIff(m, d, env, secrets);
    ShowsJoin(m, d, env, secrets);
  }

  lemma Add(m: Plan, d: Domain, fields: set<Field>, f: Field, v: Field -> Json)
    ensures ShowsAll(m, d, fields, v) <==> ShowsAll(m, d, fields - {f}, v) && (f in fields ==> Shows(m, d, f, v(f)))
  {
  }

  /** A definition passes exactly when its signing names are the expected ones and each shows what the
      manifest makes of it. */
  lemma MatchesIff(m: Plan, t: Workload, env: Values, secrets: Values)
    requires PlanSound(m)
    ensures Matches(m, t, env, secrets) <==> RenderedSound(m, t, env, secrets)
  {
    if HmacNames(env) == ExpectedEnvironment(m, t) && HmacNames(secrets) == ExpectedSecrets(m, t) {
      forall d | d in TaskDomains(t) ensures DomainMatches(m, d, env, secrets) <==> DomainShows(m, d, env, secrets) {
        DomainIff(m, t, env, secrets, d);
      }
    }
  }
}
