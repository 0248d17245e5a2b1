/** The rotation contract shared by the rollout gate and the preflight: which (primary, previous, T0)
    triples may follow which, as decided from the deployed state, a trusted clock and the purpose's
    maximum token lifetime. */
module HmacKeyring {
  import opened Optional

  datatype Domain = MailAction | ReportLink

  /** One value per signing domain. */
  datatype Both<T> = Both(mail: T, report: T) {
    function At(d: Domain): T {
      match d
      case MailAction => mail
      case ReportLink => report
    }
  }

  /** A stable, non-secret generation identifier such as "secret ARN@VersionId". */
  type Generation = string

  /** The configuration of one domain. */
  datatype Config = Config(primary: Generation, previous: Option<Generation>, t0: Option<int>)

  const MAX_UNIX_TIMESTAMP: int := 9_999_999_999
  const ROLLOUT_OVERLAP: int := 900
  const MAX_FUTURE_T0_SKEW: int := 300
  const MAIL_ACTION_MAX_TTL: int := 86_400
  const REPORT_LINK_MAX_TTL: int := 604_800

  function MaxTtl(d: Domain): int {
    match d
    case MailAction => MAIL_ACTION_MAX_TTL
    case ReportLink => REPORT_LINK_MAX_TTL
  }

  /** Non-empty, at most 2048 characters, all of them visible ASCII. */
  predicate GenerationIdentifier(g: Generation) {
    0 < |g| <= 2048 && forall i :: 0 <= i < |g| ==> '!' <= g[i] <= '~'
  }

  predicate Bounded(t: int) {
    0 <= t <= MAX_UNIX_TIMESTAMP
  }

  /** The exclusive deadline of the previous key; None when the window leaves the timestamp range. */
  function PreviousKeyDeadline(t0: int, ttl: int): Option<int>
  {
    if !Bounded(t0) || !(1 <= ttl <= REPORT_LINK_MAX_TTL) then None
    else if t0 > MAX_UNIX_TIMESTAMP - (ROLLOUT_OVERLAP + ttl) then None
    else Some(t0 + ROLLOUT_OVERLAP + ttl)
  }

  datatype Code =
    | Ok
    | InvalidNow
    | InvalidMaxTokenTtl
    | InvalidDeployedPrimary
    | InvalidProposedPrimary
    | InvalidDeployedPrevious
    | InvalidProposedPrevious
    | DeployedPairMismatch
    | ProposedPairMismatch
    | DeployedGenerationReuse
    | ProposedGenerationReuse
    | InvalidDeployedT0
    | InvalidProposedT0
    | PrimaryGenerationChanged
    | PreviousGenerationChanged
    | T0Changed
    | PrimaryChangedWithoutPrevious
    | PreviousGenerationMismatch
    | PreviousWithoutPrimaryChange
    | RemovalBeforeDeadline
    | FutureT0
    | ExpiredPreviousNotRemoved

  function ValidateTransition(deployed: Config, proposed: Config, now: int, ttl: int): Code {
    if !Bounded(now) then InvalidNow
    else if ttl != MAIL_ACTION_MAX_TTL && ttl != REPORT_LINK_MAX_TTL then InvalidMaxTokenTtl
    else if !GenerationIdentifier(deployed.primary) then InvalidDeployedPrimary
    else if !GenerationIdentifier(proposed.primary) then InvalidProposedPrimary
    else if deployed.previous.Some? && !GenerationIdentifier(deployed.previous.value) then InvalidDeployedPrevious
    else if proposed.previous.Some? && !GenerationIdentifier(proposed.previous.value) then InvalidProposedPrevious
    else if deployed.previous.Some? != deployed.t0.Some? then DeployedPairMismatch
    else if proposed.previous.Some? != proposed.t0.Some? then ProposedPairMismatch
    else if deployed.previous == Some(deployed.primary) then DeployedGenerationReuse
    else if proposed.previous == Some(proposed.primary) then ProposedGenerationReuse
    else if deployed.previous.Some? && PreviousKeyDeadline(deployed.t0.value, ttl).None? then InvalidDeployedT0
    else if proposed.previous.Some? && PreviousKeyDeadline(proposed.t0.value, ttl).None? then InvalidProposedT0
    else ValidateSteps(deployed, proposed, now, ttl)
  }

  /** The part of the contract that compares two individually well-formed configurations. */
  function ValidateSteps(deployed: Config, proposed: Config, now: int, ttl: int): Code
    requires deployed.previous.Some? == deployed.t0.Some? && proposed.previous.Some? == proposed.t0.Some?
    requires deployed.t0.Some? ==> PreviousKeyDeadline(deployed.t0.value, ttl).Some?
    requires proposed.t0.Some? ==> PreviousKeyDeadline(proposed.t0.value, ttl).Some?
  {
    if deployed.previous.Some? && proposed.primary != deployed.primary then PrimaryGenerationChanged
    else if deployed.previous.Some? && proposed.previous.Some? && proposed.previous != deployed.previous then
      PreviousGenerationChanged
    else if deployed.previous.Some? && proposed.previous.Some? && proposed.t0 != deployed.t0 then T0Changed
    else if deployed.previous.None? && proposed.primary != deployed.primary && proposed.previous.None? then
      PrimaryChangedWithoutPrevious
    else if deployed.previous.None? && proposed.primary != deployed.primary
         && proposed.previous != Some(deployed.primary) then PreviousGenerationMismatch
    else if deployed.previous.None? && proposed.primary == deployed.primary && proposed.previous.Some? then
      PreviousWithoutPrimaryChange
    else if deployed.previous.Some? && proposed.previous.None? then
      if now < PreviousKeyDeadline(deployed.t0.value, ttl).value then RemovalBeforeDeadline else Ok
    else if proposed.previous.Some? then
      if proposed.t0.value - now > MAX_FUTURE_T0_SKEW then FutureT0
      else if now >= PreviousKeyDeadline(proposed.t0.value, ttl).value then ExpiredPreviousNotRemoved
      else Ok
    else Ok
  }

  /** A configuration that can stand on its own: a pair of previous generation and T0, or neither. */
  predicate WellFormed(c: Config, ttl: int) {
    && GenerationIdentifier(c.primary)
    && (c.previous.Some? == c.t0.Some?)
    && (c.previous.Some? ==>
          && GenerationIdentifier(c.previous.value)
          && c.previous.value != c.primary
          && PreviousKeyDeadline(c.t0.value, ttl).Some?)
  }

  /** The overlap window of a rotation is open: T0 is not too far ahead and the deadline not reached. */
  predicate WindowOpen(t0: int, now: int, ttl: int) {
    t0 - now <= MAX_FUTURE_T0_SKEW && now < t0 + ROLLOUT_OVERLAP + ttl
  }

  /** Only four kinds of step pass the contract: nothing rotates, a rotation starts by carrying the
      deployed primary forward, a running rotation is restated unchanged, an expired one is removed. */
  predicate AllowedStep(deployed: Config, proposed: Config, now: int, ttl: int) {
    || (deployed.previous.None? && proposed == deployed)
    || (deployed.previous.None? && proposed.previous == Some(deployed.primary) && proposed.t0.Some?
        && WindowOpen(proposed.t0.value, now, ttl))
    || (deployed.previous.Some? && proposed == deployed && proposed.t0.Some?
        && WindowOpen(proposed.t0.value, now, ttl))
    || (deployed.previous.Some? && deployed.t0.Some? && proposed == Config(deployed.primary, None, None)
        && now >= deployed.t0.value + ROLLOUT_OVERLAP + ttl)
  }

  lemma TransitionContract(deployed: Config, proposed: Config, now: int, ttl: int)
    ensures ValidateTransition(deployed, proposed, now, ttl) == Ok <==>
            && Bounded(now) && (ttl == MAIL_ACTION_MAX_TTL || ttl == REPORT_LINK_MAX_TTL)
            && WellFormed(deployed, ttl) && WellFormed(proposed, ttl)
            && AllowedStep(deployed, proposed, now, ttl)
  {
    if deployed.previous.None? && deployed.t0.None? && proposed.previous.None? && proposed.t0.None? {
      assert proposed == deployed <==> proposed.primary == deployed.primary;
    }
  }

  /** A sequence of configurations in which every step was accepted at its own clock reading. */
  predicate Chain(configs: seq<Config>, nows: seq<int>, ttl: int) {
    && |configs| == |nows| + 1
    && (forall i :: 0 <= i < |nows| ==> ValidateTransition(configs[i], configs[i + 1], nows[i], ttl) == Ok)
  }

  predicate Verifies(c: Config, g: Generation) {
    g == c.primary || Some(g) == c.previous
  }

  /** A key that was ever primary stays verifiable, as primary or as previous, in every later
      configuration of the chain, unless its own deadline was reached at some step before. */
  lemma {:induction false} OldPrimaryVerifiesUntilDeadline(
    configs: seq<Config>, nows: seq<int>, ttl: int, i: nat, j: nat)
    requires Chain(configs, nows, ttl) && i <= j < |configs|
    ensures Verifies(configs[j], configs[i].primary)
            || exists k, t0 :: i < k < j && configs[k].previous == Some(configs[i].primary)
                 && configs[k].t0 == Some(t0) && nows[k] >= t0 + ROLLOUT_OVERLAP + ttl
    decreases j
  {
    if i < j {
      OldPrimaryVerifiesUntilDeadline(configs, nows, ttl, i, j - 1);
      var g := configs[i].primary;
      var a, b, now := configs[j - 1], configs[j], nows[j - 1];
      assert ValidateTransition(a, b, now, ttl) == Ok;
      TransitionContract(a, b, now, ttl);
      if Verifies(a, g) && !Verifies(b, g) {
        assert a.previous == Some(g) && b == Config(a.primary, None, None);
        assert j - 1 != i;
        assert i < j - 1 < j && configs[j - 1].t0 == Some(a.t0.value);
      }
    }
  }
}
