/** Parity across what one manifest accepts: any two rendered definitions of a task say the same. */
module PreflightParity {
  import opened Optional
  import opened HmacKeyring
  import opened HmacTable
  import opened Preflight
  import opened Decimals
  import opened PreflightTasks

  // ---------------------------------------------------------------- two definitions of one task

  /** The same up to what the manifest leaves open: the lifetime, and leading zeros in T0. */
  predicate SameField(d: Domain, f: Field, a: Json, b: Json) {
    match f
    case Ttl => TtlText(d, a) && TtlText(d, b)
    case RotationStartedAt => T0Text(a) && T0Text(b) && Significant(a.s) == Significant(b.s)
    case _ => a == b
  }

  /** A generation has one pinned reference. */
  lemma ReferenceDetermined(a: Json, b: Json, generation: Json)
    requires Pinned(a, generation) && Pinned(b, generation)
    ensures a == b
  {
    var p, q := SplitLast(a.s, ":::"), SplitLast(b.s, ":::");
    assert a.s == p.resource + ":::" + p.version && b.s == q.resource + ":::" + q.version;
  }

  lemma ShownSame(m: Plan, d: Domain, f: Field, a: Json, b: Json)
    requires Shows(m, d, f, a) && Shows(m, d, f, b)
    ensures SameField(d, f, a, b)
  {
    var c := m.proposed.At(d);
    match f
    case RotationStartedAt => SameNumber(a.s, b.s);
    case PrimarySecret => ReferenceDetermined(a, b, Text(c.primary));
    case PreviousSecret => ReferenceDetermined(a, b, Text(c.previous.value));
    case LegacyWorkerSecret => ReferenceDetermined(a, b, Text(m.legacyWorker.value));
    case _ =>
  }

  /** Equal signing names, equal values up to the open part. */
  ghost predicate SameSigning(t: Workload, a: Values, b: Values) {
    && (forall n :: IsHmacName(n) ==> (n in a <==> n in b))
    && (forall d: Domain, f: Field :: d in TaskDomains(t) && Name(d, f) in a && Name(d, f) in b ==>
          SameField(d, f, a[Name(d, f)], b[Name(d, f)]))
    && (forall n :: IsHmacName(n) && n in a ==> exists d: Domain, f: Field :: d in TaskDomains(t) && n == Name(d, f))
  }

  lemma EnvironmentsAgree(m: Plan, t: Workload, a: Values, b: Values, sa: Values, sb: Values)
    requires RenderedSound(m, t, a, sa) && RenderedSound(m, t, b, sb)
    ensures SameSigning(t, a, b)
  {
    assert forall n :: IsHmacName(n) ==> (n in a <==> n in HmacNames(a)) && (n in b <==> n in HmacNames(b));
    forall d: Domain, f: Field | d in TaskDomains(t) && Name(d, f) in a && Name(d, f) in b
      ensures SameField(d, f, a[Name(d, f)], b[Name(d, f)])
    {
      EnvironmentPresent(m, t, a, d, f);
      assert DomainShows(m, d, a, sa) && DomainShows(m, d, b, sb);
      assert Shows(m, d, f, ColumnOf(d, a)(f)) && Shows(m, d, f, ColumnOf(d, b)(f));
      ShownSame(m, d, f, a[Name(d, f)], b[Name(d, f)]);
    }
  }

  lemma SecretAgrees(m: Plan, t: Workload, sa: Values, sb: Values, d: Domain, f: Field)
    requires HmacNames(sa) == ExpectedSecrets(m, t) == HmacNames(sb) && d in TaskDomains(t)
    requires f in SecretFields(m, d, m.proposed.At(d))
    requires Shows(m, d, f, ColumnOf(d, sa)(f)) && Shows(m, d, f, ColumnOf(d, sb)(f))
    ensures Name(d, f) in sa && Name(d, f) in sb && sa[Name(d, f)] == sb[Name(d, f)]
  {
    SecretPresent(m, t, sa, d, f);
    SecretPresent(m, t, sb, d, f);
    ShownSame(m, d, f, sa[Name(d, f)], sb[Name(d, f)]);
  }

  lemma SecretShown(m: Plan, t: Workload, a: Values, sa: Values, d: Domain, f: Field)
    requires RenderedSound(m, t, a, sa) && d in TaskDomains(t) && f in SecretFields(m, d, m.proposed.At(d))
    ensures Shows(m, d, f, ColumnOf(d, sa)(f))
  {
    assert DomainShows(m, d, a, sa);
  }

  lemma ExpectedSecretField(m: Plan, t: Workload, n: string) returns (d: Domain, f: Field)
    requires n in ExpectedSecrets(m, t)
    ensures d in TaskDomains(t) && f in SecretFields(m, d, m.proposed.At(d)) && n == Name(d, f)
  {
    d, f :| d in TaskDomains(t) && f in SecretFields(m, d, m.proposed.At(d)) && Name(d, f) == n;
  }

  lemma SecretsAgree(m: Plan, t: Workload, a: Values, b: Values, sa: Values, sb: Values, n: string)
    requires RenderedSound(m, t, a, sa) && RenderedSound(m, t, b, sb)
    requires IsHmacName(n)
    ensures n in sa <==> n in sb
    ensures n in sa ==> sa[n] == sb[n]
  {
    assert n in sa <==> n in HmacNames(sa);
    assert n in sb <==> n in HmacNames(sb);
    if n in sa {
      var d, f := ExpectedSecretField(m, t, n);
      SecretShown(m, t, a, sa, d, f);
      SecretShown(m, t, b, sb, d, f);
      SecretAgrees(m, t, sa, sb, d, f);
    }
  }

  function EnvironmentOf(def: Definition): Values
    requires def.Definition? && NamedValues(def.environment).Some?
  {
    NamedValues(def.environment).value
  }

  function SecretsOf(def: Definition): Values
    requires def.Definition? && NamedValues(def.secrets).Some?
  {
    NamedValues(def.secrets).value
  }

  /** Any two definitions accepted for one task and one manifest agree on every signing name: same names,
      same secret references, same values up to the lifetime and leading zeros in T0. */
  lemma AcceptedDefinitionsAgree(m: Plan, t: Workload, a: Definition, b: Definition)
    requires PlanVerdict(m) == Accepted
    requires RenderedVerdict(m, t, a) == Accepted && RenderedVerdict(m, t, b) == Accepted
    ensures SameSigning(t, EnvironmentOf(a), EnvironmentOf(b))
    ensures forall n :: IsHmacName(n) ==> (n in SecretsOf(a) <==> n in SecretsOf(b))
    ensures forall n :: IsHmacName(n) && n in SecretsOf(a) ==> SecretsOf(a)[n] == SecretsOf(b)[n]
  {
    PlanAcceptedIff(m);
    MatchesIff(m, t, EnvironmentOf(a), SecretsOf(a));
    MatchesIff(m, t, EnvironmentOf(b), SecretsOf(b));
    EnvironmentsAgree(m, t, EnvironmentOf(a), EnvironmentOf(b), SecretsOf(a), SecretsOf(b));
    var sa, sb := SecretsOf(a), SecretsOf(b);
    forall n | IsHmacName(n) ensures (n in sa <==> n in sb) && (n in sa ==> sa[n] == sb[n]) {
      SecretsAgree(m, t, EnvironmentOf(a), EnvironmentOf(b), sa, sb, n);
    }
  }

  // ---------------------------------------------------------------- validating the selected tasks

  function RenderedVerdicts(m: Plan, rendered: seq<(Workload, Definition)>): seq<Verdict> {
    seq(|rendered|, i requires 0 <= i < |rendered| => RenderedVerdict(m, rendered[i].0, rendered[i].1))
  }

  /** The verdict on a manifest with the selected definitions. */
  function SelectionVerdict(m: Plan, rendered: seq<(Workload, Definition)>): Verdict {
    Else(PlanVerdict(m), FirstRefusal(RenderedVerdicts(m, rendered)))
  }

  predicate AllAccepted(vs: seq<Verdict>) {
    forall i :: 0 <= i < |vs| ==> vs[i] == Accepted
  }

  lemma SelectionAcceptedIff(m: Plan, rendered: seq<(Workload, Definition)>)
    ensures SelectionVerdict(m, rendered) == Accepted <==>
            PlanVerdict(m) == Accepted && AllAccepted(RenderedVerdicts(m, rendered))
  {
    NoRefusal(RenderedVerdicts(m, rendered));
  }

  method ValidateRenderedTasks(m: Plan, rendered: seq<(Workload, Definition)>) returns (r: Verdict)
    ensures r == SelectionVerdict(m, rendered)
  {
    r := ValidateManifest(m);
    if r != Accepted { return; }
    r := ValidateDefinitions(m, rendered);
  }

  method ValidateDefinitions(m: Plan, rendered: seq<(Workload, Definition)>) returns (r: Verdict)
    ensures r == FirstRefusal(RenderedVerdicts(m, rendered))
  {
    ghost var vs := RenderedVerdicts(m, rendered);
    NoRefusal(vs);
    for k := 0 to |rendered|
      invariant forall i :: 0 <= i < k ==> vs[i] == Accepted
    {
      var t, def := rendered[k].0, rendered[k].1;
      r := ValidateDefinition(m, t, def);
      assert vs[k] == r;
      if r != Accepted {
        FirstRefusalAt(vs, k);
        return;
      }
    }
    r := Accepted;
  }

  method ValidateDefinition(m: Plan, t: Workload, def: Definition) returns (r: Verdict)
    ensures r == RenderedVerdict(m, t, def)
  {
    if t == Worker { return UnknownRenderedTask(t); }
    if def.Unreadable? { return InvalidRenderedTask(t); }
    var env := CollectNamedValues(def.environment);
    var secrets := CollectNamedValues(def.secrets);
    if env.None? || secrets.None? { return InvalidRenderedTask(t); }
    r := if PreflightTasks.Matches(m, t, env.value, secrets.value) then Accepted else RenderedTaskDrift(t);
  }
}
