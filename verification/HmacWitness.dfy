/** Runs that exist: any number of finished epochs, an aborted cleanup, and the race of two preparations.
    They are the inputs of the theorems about all runs. */
module HmacWitness {
  import opened Optional
  import opened HmacKeyring
  import opened HmacTable
  import opened HmacRun
  import opened HmacInvariant
  import opened HmacRunGood
  import opened HmacAtomic
  import opened HmacCleanup
  import opened HmacEpochs
  import opened HmacIssuers
  import opened HmacGuard
  import opened HmacDeadlock
  import opened HmacHandover
  import opened HmacReach
  import opened HmacRounds
  import opened HmacClosing

  // ---------------------------------------------------------------- names

  function Ones(k: nat): (s: string)
    ensures |s| == k && forall i :: 0 <= i < k ==> s[i] == '1'
  {
    if k == 0 then "" else Ones(k - 1) + "1"
  }

  function Version(secret: char, k: nat): Generation {
    [secret, '@'] + Ones(k)
  }

  /** The primaries of epoch `k`, counted from 1; those of 0 are deployed before the first epoch. */
  function Primaries(k: nat): Both<Generation> {
    Both(Version('m', k), Version('r', k))
  }

  function EpochName(k: nat): Epoch {
    Ones(k)
  }

  function EpochNames(n: nat): (s: seq<Epoch>)
    ensures |s| == n && forall k :: 0 <= k < n ==> s[k] == EpochName(k)
  {
    if n == 0 then [] else EpochNames(n - 1) + [EpochName(n - 1)]
  }

  /** The rounds that generation identifiers of this form have names for. */
  const ROUNDS: nat := 2000

  lemma {:induction false} VersionResource(secret: char, k: nat)
    requires secret != '@'
    ensures Resource(Version(secret, k)) == [secret]
    decreases k
  {
    var v := Version(secret, k);
    if k == 0 {
      assert v[..1] == [secret];
    } else {
      assert v[|v| - 1] == '1' && v[..|v| - 1] == Version(secret, k - 1);
      VersionResource(secret, k - 1);
    }
  }

  lemma PrimariesNamed(k: nat)
    requires k <= ROUNDS
    ensures Named(Primaries(k))
  {
    VersionResource('m', k);
    VersionResource('r', k);
    assert Version('m', k)[1] == '@' && Version('r', k)[1] == '@';
  }

  lemma VersionsDiffer(secret: char, i: nat, j: nat)
    requires i != j
    ensures Version(secret, i) != Version(secret, j)
  {
    assert |Version(secret, i)| == i + 2 && |Version(secret, j)| == j + 2;
  }

  // ---------------------------------------------------------------- rounds

  /** The phase at the end of the rollout of an epoch opened at `now`. */
  function RolledAt(e: Epoch, p: Both<Generation>, g: Both<Generation>, used: Both<set<Generation>>, now: int): Phase {
    RolledOut(Opened(e, p, g, used, now), now + 10)
  }

  function MailClosing(x: Phase, now: int): Closing {
    Closing(x, MailAction, "c", "d", now + 100_000)
  }

  function ReportClosing(x: Phase, now: int): Closing {
    Closing(x, ReportLink, "f", "g", now + 700_000)
  }

  function BothClosed(x: Phase, now: int): Phase {
    Cleaned(ReportClosing(Cleaned(MailClosing(x, now)), now))
  }

  lemma MailDue(x: Phase, e: Epoch, p: Both<Generation>, g: Both<Generation>, used: Both<set<Generation>>, now: int)
    requires Named(p) && Named(g) && p.mail != g.mail && p.report != g.report && Timely(now)
    requires x == RolledAt(e, p, g, used, now)
    ensures Due(MailClosing(x, now), p, g, now) && NewArtifacts(MailClosing(x, now)) && x.stage == LedgerComplete
  {
  }

  lemma ReportDue(x: Phase, e: Epoch, p: Both<Generation>, g: Both<Generation>, used: Both<set<Generation>>, now: int, x': Phase)
    requires Named(p) && Named(g) && p.mail != g.mail && p.report != g.report && Timely(now)
    requires x == RolledAt(e, p, g, used, now) && x' == Cleaned(MailClosing(x, now))
    ensures Due(ReportClosing(x', now), p, g, now) && NewArtifacts(ReportClosing(x', now)) && x'.stage == LedgerComplete
  {
  }

  lemma RoundClosed(e: Epoch, p: Both<Generation>, g: Both<Generation>, used: Both<set<Generation>>, now: int, x: Phase)
    requires x == BothClosed(RolledAt(e, p, g, used, now), now)
    ensures Closed(x, g) && x.e == e && x.used == Both(used.mail + {p.mail}, used.report + {p.report})
  {
  }

  /** The rest of a round: from an open epoch to one whose windows are both removed. */
  lemma RoundEnds(t: Table, c: seq<Epoch>, e: Epoch, p: Both<Generation>, g: Both<Generation>,
                  used: Both<set<Generation>>, now: int) returns (t': Table)
    requires Reachable(t, c) && In(t, Opened(e, p, g, used, now)) && Timely(now)
    requires Named(p) && Named(g) && p.mail != g.mail && p.report != g.report
    ensures Reachable(t', c) && In(t', BothClosed(RolledAt(e, p, g, used, now), now))
  {
    var x := RolledAt(e, p, g, used, now);
    var t1 := RollsOut(t, c, Opened(e, p, g, used, now), now + 10);
    MailDue(x, e, p, g, used, now);
    var t2 := Closes(t1, c, MailClosing(x, now), p, g, now);
    ReportDue(x, e, p, g, used, now, Cleaned(MailClosing(x, now)));
    t' := Closes(t2, c, ReportClosing(Cleaned(MailClosing(x, now)), now), p, g, now);
  }

  /** Only primaries of earlier epochs are retired. */
  ghost predicate UsedBelow(used: Both<set<Generation>>, n: nat) {
    forall k: nat :: k >= n ==> Version('m', k) !in used.mail && Version('r', k) !in used.report
  }

  /** The table after `n` rounds. */
  ghost predicate Rounds(t: Table, x: Phase, n: nat) {
    Reachable(t, EpochNames(n)) && In(t, x) && Closed(x, Primaries(n)) && UsedBelow(x.used, n)
  }

  lemma RoundUsed(used: Both<set<Generation>>, n: nat)
    requires UsedBelow(used, n)
    ensures UsedBelow(Both(used.mail + {Primaries(n).mail}, used.report + {Primaries(n).report}), n + 1)
  {
    forall k: nat | k >= n + 1
      ensures Version('m', k) != Version('m', n) && Version('r', k) != Version('r', n)
    {
      VersionsDiffer('m', k, n);
      VersionsDiffer('r', k, n);
    }
  }

  lemma NewName(n: nat)
    ensures EpochName(n) !in EpochNames(n)
  {
  }

  lemma RoundOpens(t: Table, x: Phase, n: nat) returns (t': Table)
    requires n < ROUNDS && if n == 0 then t == EMPTY_TABLE && x.used == Both({}, {}) else Rounds(t, x, n)
    ensures Reachable(t', EpochNames(n + 1))
    ensures In(t', Opened(EpochName(n), Primaries(n), Primaries(n + 1), x.used, n * 1_000_000))
  {
    PrimariesNamed(n);
    PrimariesNamed(n + 1);
    VersionsDiffer('m', n, n + 1);
    VersionsDiffer('r', n, n + 1);
    if n == 0 {
      t' := FirstOpens(EpochName(0), Primaries(0), Primaries(1), 0);
      assert EpochNames(1) == [EpochName(0)];
    } else {
      NewName(n);
      t' := NextOpens(t, EpochNames(n), x, EpochName(n), Primaries(n), Primaries(n + 1), n * 1_000_000);
    }
  }

  lemma OneRound(t: Table, x: Phase, n: nat) returns (t': Table, x': Phase)
    requires n < ROUNDS && if n == 0 then t == EMPTY_TABLE && x.used == Both({}, {}) else Rounds(t, x, n)
    ensures Rounds(t', x', n + 1)
  {
    var e, p, g, now := EpochName(n), Primaries(n), Primaries(n + 1), n * 1_000_000;
    var t1 := RoundOpens(t, x, n);
    PrimariesNamed(n);
    PrimariesNamed(n + 1);
    VersionsDiffer('m', n, n + 1);
    VersionsDiffer('r', n, n + 1);
    t' := RoundEnds(t1, EpochNames(n + 1), e, p, g, x.used, now);
    x' := BothClosed(RolledAt(e, p, g, x.used, now), now);
    RoundClosed(e, p, g, x.used, now, x');
    assert UsedBelow(x.used, n);
    RoundUsed(x.used, n);
  }

  lemma {:induction false} ManyRounds(n: nat) returns (t: Table, x: Phase)
    requires 1 <= n <= ROUNDS
    ensures Rounds(t, x, n)
    decreases n
  {
    if n == 1 {
      var x0 := Opened(EpochName(0), Primaries(0), Primaries(1), Both({}, {}), 0);
      t, x := OneRound(EMPTY_TABLE, x0, 0);
    } else {
      var t1, x1 := ManyRounds(n - 1);
      t, x := OneRound(t1, x1, n - 1);
    }
  }

  /** Both domains of every one of these epochs have retired their window. */
  ghost predicate AllRetired(t: Table, c: seq<Epoch>) {
    forall k, d: Domain :: 0 <= k < |c| ==> (d, c[k]) in t.retirements
  }

  lemma RoundsRetired(t: Table, x: Phase, n: nat)
    requires 1 <= n && Rounds(t, x, n)
    ensures AllRetired(t, EpochNames(n))
  {
    var c := EpochNames(n);
    ReachableGood(t, c);
    forall k, d: Domain | 0 <= k < |c|
      ensures (d, c[k]) in t.retirements
    {
      if k < |c| - 1 {
        assert Recorded(t.retirements, c[k]);
      } else {
        LastRetired(t, c, x, d);
      }
      match d { case MailAction => case ReportLink => }
    }
  }

  lemma LastRetired(t: Table, c: seq<Epoch>, x: Phase, d: Domain)
    requires Good(t, c) && In(t, x) && Closed(x, Primaries(|c|)) && c != []
    ensures (d, c[|c| - 1]) in t.retirements
  {
    match d { case MailAction => case ReportLink => }
    assert t.domains[d].previousRetired && t.domains[d].previous.None?;
  }

  /** The rotation is live: for every number of epochs there is a run that opens them one after the
      other and finishes each of them, in both domains. */
  lemma EpochsReachable(n: nat)
    requires 1 <= n <= ROUNDS
    ensures exists h, ops, t :: RunTo(h, ops, t, EpochNames(n)) && AllRetired(t, EpochNames(n))
  {
    var t, x := ManyRounds(n);
    RoundsRetired(t, x, n);
    var h, ops :| RunTo(h, ops, t, EpochNames(n));
  }

  ghost predicate Finished(ops: seq<Op>, c: seq<Epoch>, k: nat, d: Domain)
    requires k < |c|
  {
    exists a: nat, b: nat :: FinishedBy(ops, |ops|, c[k], d, a, b)
  }

  /** The pairs of actions `AuthorizeThenComplete` speaks of occur in these runs for every epoch and domain. */
  lemma FinishedReached(n: nat)
    requires 1 <= n <= ROUNDS
    ensures exists h, ops, t :: RunTo(h, ops, t, EpochNames(n)) && forall k: nat, d :: k < n ==> Finished(ops, EpochNames(n), k, d)
  {
    var t, x := ManyRounds(n);
    var c := EpochNames(n);
    RoundsRetired(t, x, n);
    var h, ops :| RunTo(h, ops, t, c);
    forall k: nat, d | k < n
      ensures Finished(ops, c, k, d)
    {
      assert (d, c[k]) in t.retirements;
      CleanupDecidesRetirement(h, ops, |ops|, d, c[k]);
      CleanupFinishedBy(h, ops, |ops|, c[k], d);
    }
  }

  /** The `i`-th epoch retired for `d` the generation that the one before it closed with. */
  ghost predicate HandedOver(t: Table, c: seq<Epoch>, d: Domain, i: nat)
    requires 0 < i < |c|
  {
    && (d, c[i]) in t.retirements && (d, c[i - 1]) in t.histories
    && t.retirements[(d, c[i])].previous == t.histories[(d, c[i - 1])].primary
  }

  /** Key continuity has such runs behind it, of three epochs and of any larger number. */
  lemma ContinuityReached(n: nat)
    requires 3 <= n <= ROUNDS
    ensures exists h, ops, t :: RunTo(h, ops, t, EpochNames(n))
              && forall d, i: nat :: 0 < i < n - 1 ==> HandedOver(t, EpochNames(n), d, i)
  {
    var t, x := ManyRounds(n);
    var c := EpochNames(n);
    var h, ops :| RunTo(h, ops, t, c);
    forall d, i: nat | 0 < i < n - 1
      ensures HandedOver(t, c, d, i)
    {
      ContinuityAt(h, ops, t, c, x, d, i);
    }
  }

  lemma ContinuityAt(h: seq<Table>, ops: seq<Op>, t: Table, c: seq<Epoch>, x: Phase, d: Domain, i: nat)
    requires RunTo(h, ops, t, c) && In(t, x) && 0 < i < |c| - 1
    ensures HandedOver(t, c, d, i)
  {
    assert ops[..|ops|] == ops;
    match d { case MailAction => case ReportLink => }
    KeyContinuity(h, ops, |ops|, d, i - 1, i);
  }

  // ---------------------------------------------------------------- one rolled-out epoch

  const E0: Epoch := EpochName(0)
  const ROLLED := RolledAt(E0, Primaries(0), Primaries(1), Both({}, {}), 0)

  lemma OneRolledOut() returns (t: Table)
    ensures Reachable(t, [E0]) && In(t, ROLLED)
    ensures Named(Primaries(0)) && Named(Primaries(1))
    ensures Primaries(0).mail != Primaries(1).mail && Primaries(0).report != Primaries(1).report
  {
    PrimariesNamed(0);
    PrimariesNamed(1);
    VersionsDiffer('m', 0, 1);
    VersionsDiffer('r', 0, 1);
    var t0 := FirstOpens(E0, Primaries(0), Primaries(1), 0);
    t := RollsOut(t0, [E0], Opened(E0, Primaries(0), Primaries(1), Both({}, {}), 0), 10);
  }

  /** The dead end of an abort is reached: after this run no authorization of the aborted cleanup's
      domain holds, whoever attempts it with whatever reads. */
  lemma AbortReached()
    ensures exists h, ops, t :: RunTo(h, ops, t, [E0]) && MailAction in t.domains && t.domains[MailAction].epoch == E0
              && (E0, MailAction) in t.cleanups && t.cleanups[(E0, MailAction)].stage == Aborted
              && forall q, seen :: AuthorizeKey(q) == (E0, MailAction) ==> !AuthorizeHolds(t, q, seen)
  {
    var t1 := OneRolledOut();
    MailDue(ROLLED, E0, Primaries(0), Primaries(1), Both({}, {}), 0);
    var t := Aborts(t1, [E0], MailClosing(ROLLED, 0), Primaries(0), Primaries(1), 0);
    var h, ops :| RunTo(h, ops, t, [E0]);
  }

  // ---------------------------------------------------------------- the race

  const FIRST := MailClosing(ROLLED, 0)
  const SECOND := ReportClosing(ROLLED, 0)

  /** The second preparation's manifest check: the mail window has expired, but the clock retired it. */
  lemma SecondManifest(durable: DomainRecord)
    requires Named(Primaries(0)) && Named(Primaries(1))
    requires durable.previousRetired && durable.deadline == Some(87_300) && ConfigOf(durable) == ROLLED.cfg.mail
    ensures CleanupManifestAccepted(RequestOf(SECOND), durable)
  {
    var p, g := Primaries(0), Primaries(1);
    VersionsDiffer('r', 0, 1);
    VersionsDiffer('m', 0, 1);
    StillExpired(ROLLED.cfg.mail, p.mail, g.mail);
    ManifestAccepted(SECOND, p, g, 0, MailAction, durable);
  }

  lemma StillExpired(x: Config, p: Generation, g: Generation)
    requires x == Config(g, Some(p), Some(0)) && p != g && GenerationIdentifier(p) && GenerationIdentifier(g)
    ensures ValidateTransition(x, x, 700_000, MaxTtl(MailAction)) == ExpiredPreviousNotRemoved
  {
  }

  lemma SecondDomain(r: DomainRecord, d: Domain, known: set<Epoch>)
    requires CleaningDomain(r, d, FIRST) && IssuerGood(r, known)
    ensures AuthorizeDomainChecks(RequestOf(SECOND), d, r)
    ensures r.issuers - Issuers(NewControl(SECOND)).At(d) != {}
  {
    ControlChecked(E0, CleanConfig(ROLLED, ReportLink), "f", "g");
    SomeDisplaced(SECOND, d);
    var p := ControlOf(ROLLED).mcp;
    assert p in r.issuers && p in r.issuers - Issuers(NewControl(SECOND)).At(d);
  }

  lemma SecondChecks(t: Table)
    requires Cleaning(t, FIRST, BoundFirst(FIRST), ROLLED.made) && IssuersGood(t)
    ensures AuthorizeChecks(RequestOf(SECOND), Domains(t))
  {
    TasksCovered("f");
    TasksCovered("g");
    SecondDomain(t.domains[MailAction], MailAction, t.ledgers.Keys);
    SecondDomain(t.domains[ReportLink], ReportLink, t.ledgers.Keys);
  }

  lemma SecondTried(t: Table)
    requires Cleaning(t, FIRST, BoundFirst(FIRST), ROLLED.made) && AuthorizeChecks(RequestOf(SECOND), Domains(t))
    requires (E0, ReportLink) !in t.cleanups
    ensures TryAuthorize(t, RequestOf(SECOND), Domains(t)) == Some(AuthorizeEffect(t, RequestOf(SECOND), Domains(t)))
  {
  }

  /** The second gate evaluated its guard on `guard`, before the first cleanup was authorized. */
  lemma SecondMayPrepare(guard: Table, t: Table)
    requires In(guard, ROLLED) && Cleaning(t, FIRST, BoundFirst(FIRST), ROLLED.made)
    requires Named(Primaries(0)) && Named(Primaries(1))
    ensures MayPrepare(guard, t, RequestOf(SECOND))
  {
    SecondManifest(t.domains[MailAction]);
  }

  /** Two gates that both read their guard before either committed. */
  lemma BothAuthorized(guard: Table, t: Table, t': Table)
    requires In(guard, ROLLED) && t == AuthorizeEffect(guard, RequestOf(FIRST), Domains(guard))
    requires BothDomains(t) && t' == AuthorizeEffect(t, RequestOf(SECOND), Domains(t))
    ensures AuthorizedIn(t', E0, MailAction) && AuthorizedIn(t', E0, ReportLink)
  {
  }

  lemma AuthorizeRun(h: seq<Table>, ops: seq<Op>, t: Table, c: seq<Epoch>, q: AuthorizeRequest, k: nat, t': Table)
    returns (op: Op)
    requires RunTo(h, ops, t, c) && k < |h| && MayPrepare(h[k], t, q) && BindsEpoch(q.control) && BothDomains(t)
    requires TryAuthorize(t, q, Domains(t)) == Some(t')
    ensures op.Authorize? && RunTo(h + [t'], ops + [op], t', c)
  {
    var n := |ops|;
    op := Authorize(q, k, Both(k, k), n, Both(n, n));
    AuthorizesNow(h, op, k, t, q, t');
    ExtendRun(h, ops, t, c, op, t');
  }

  lemma FirstAuthorizes(guard: Table)
    requires In(guard, ROLLED) && IssuersGood(guard) && Named(Primaries(0)) && Named(Primaries(1))
    requires Primaries(0).mail != Primaries(1).mail && Primaries(0).report != Primaries(1).report
    ensures MayPrepare(guard, guard, RequestOf(FIRST)) && BindsEpoch(RequestOf(FIRST).control)
    ensures TryAuthorize(guard, RequestOf(FIRST), Domains(guard)) == Some(AuthorizeEffect(guard, RequestOf(FIRST), Domains(guard)))
    ensures Cleaning(AuthorizeEffect(guard, RequestOf(FIRST), Domains(guard)), FIRST, BoundFirst(FIRST), ROLLED.made)
  {
    var p, g := Primaries(0), Primaries(1);
    MailDue(ROLLED, E0, p, g, Both({}, {}), 0);
    ControlChecked(E0, CleanConfig(ROLLED, MailAction), "c", "d");
    PrimariesFit(FIRST, p, g, 0, MailAction);
    ChecksPass(guard, FIRST, p, g, 0);
    AuthorizeTried(guard, FIRST);
    AuthorizePrepared(guard, FIRST, p, g, 0);
    AuthorizeIn(guard, FIRST);
  }

  lemma SecondAuthorizes(guard: Table, t: Table)
    requires In(guard, ROLLED) && t == AuthorizeEffect(guard, RequestOf(FIRST), Domains(guard))
    requires Cleaning(t, FIRST, BoundFirst(FIRST), ROLLED.made) && IssuersGood(t)
    requires Named(Primaries(0)) && Named(Primaries(1))
    ensures MayPrepare(guard, t, RequestOf(SECOND)) && BindsEpoch(RequestOf(SECOND).control)
    ensures TryAuthorize(t, RequestOf(SECOND), Domains(t)) == Some(AuthorizeEffect(t, RequestOf(SECOND), Domains(t)))
  {
    ControlChecked(E0, CleanConfig(ROLLED, ReportLink), "f", "g");
    SecondMayPrepare(guard, t);
    SecondChecks(t);
    assert (E0, ReportLink) !in t.cleanups by { NoSecondYet(guard); }
    SecondTried(t);
  }

  lemma NoSecondYet(guard: Table)
    requires In(guard, ROLLED)
    ensures (E0, ReportLink) !in AuthorizeEffect(guard, RequestOf(FIRST), Domains(guard)).cleanups
  {
  }

  /** The first gate commits. */
  lemma FirstCommits(h: seq<Table>, ops: seq<Op>, guard: Table) returns (h': seq<Table>, ops': seq<Op>, t: Table)
    requires RunTo(h, ops, guard, [E0]) && In(guard, ROLLED) && IssuersGood(guard)
    requires Named(Primaries(0)) && Named(Primaries(1))
    requires Primaries(0).mail != Primaries(1).mail && Primaries(0).report != Primaries(1).report
    ensures RunTo(h', ops', t, [E0]) && |ops| < |h'| && h'[|ops|] == guard
    ensures t == AuthorizeEffect(guard, RequestOf(FIRST), Domains(guard))
    ensures Cleaning(t, FIRST, BoundFirst(FIRST), ROLLED.made)
  {
    FirstAuthorizes(guard);
    t := AuthorizeEffect(guard, RequestOf(FIRST), Domains(guard));
    var op := AuthorizeRun(h, ops, guard, [E0], RequestOf(FIRST), |ops|, t);
    h', ops' := h + [t], ops + [op];
  }

  /** The second gate, whose guard was read at position `k`, commits after it. */
  lemma SecondCommits(h: seq<Table>, ops: seq<Op>, k: nat, guard: Table, t: Table)
    returns (h': seq<Table>, ops': seq<Op>, t': Table)
    requires RunTo(h, ops, t, [E0]) && k < |h| && h[k] == guard && In(guard, ROLLED) && IssuersGood(t)
    requires t == AuthorizeEffect(guard, RequestOf(FIRST), Domains(guard))
    requires Cleaning(t, FIRST, BoundFirst(FIRST), ROLLED.made)
    requires Named(Primaries(0)) && Named(Primaries(1))
    ensures RunTo(h', ops', t', [E0]) && AuthorizedIn(t', E0, MailAction) && AuthorizedIn(t', E0, ReportLink)
  {
    SecondAuthorizes(guard, t);
    t' := AuthorizeEffect(t, RequestOf(SECOND), Domains(t));
    var op := AuthorizeRun(h, ops, t, [E0], RequestOf(SECOND), k, t');
    h', ops' := h + [t'], ops + [op];
    BothAuthorized(guard, t, t');
  }

  lemma IssuersAt(h: seq<Table>, ops: seq<Op>, t: Table, c: seq<Epoch>)
    requires RunTo(h, ops, t, c)
    ensures IssuersGood(t)
  {
    IssuerSafety(h, ops, |ops|);
  }

  /** The race: a run of committed actions, all with checked control files, after which both domains'
      cleanups are authorized. */
  lemma GuardRace()
    ensures exists h, ops, t :: RunTo(h, ops, t, [E0]) && AuthorizedIn(t, E0, MailAction) && AuthorizedIn(t, E0, ReportLink)
  {
    var guard := OneRolledOut();
    var h, ops :| RunTo(h, ops, guard, [E0]);
    IssuersAt(h, ops, guard, [E0]);
    var h1, ops1, t := FirstCommits(h, ops, guard);
    IssuersAt(h1, ops1, t, [E0]);
    var h2, ops2, t' := SecondCommits(h1, ops1, |ops|, guard, t);
  }
}
