/** How the generations of one domain hand over from epoch to epoch: each finished epoch retires
    exactly the primary of the epoch before, and no generation is primary in two finished epochs. */
module HmacHandover {
  import opened Optional
  import opened HmacKeyring
  import opened HmacTable
  import opened HmacRun
  import opened HmacInvariant
  import opened HmacRunGood
  import opened HmacWindow
  import opened HmacAtomic
  import opened HmacCleanup

  /** The retirement record of epoch `c[i]`, when there is one, continues the chain. */
  ghost predicate Continues(
    d: Domain, histories: map<(Domain, Epoch), HistoryRecord>, retirements: map<(Domain, Epoch), RetirementRecord>,
    retired: set<Generation>, c: seq<Epoch>, i: nat)
    requires i < |c|
  {
    (d, c[i]) in retirements ==>
      var x := retirements[(d, c[i])];
      && x.previous in retired
      && x.previous != x.primary
      && (i > 0 && (d, c[i - 1]) in histories ==> x.previous == histories[(d, c[i - 1])].primary)
  }

  ghost predicate RetirementsChained(
    d: Domain, histories: map<(Domain, Epoch), HistoryRecord>, retirements: map<(Domain, Epoch), RetirementRecord>,
    retired: set<Generation>, c: seq<Epoch>)
  {
    forall i: nat :: i < |c| ==> Continues(d, histories, retirements, retired, c, i)
  }

  /** A closed epoch has both records, and they name the same primary. */
  ghost predicate ClosedPrimaries(
    d: Domain, histories: map<(Domain, Epoch), HistoryRecord>, retirements: map<(Domain, Epoch), RetirementRecord>,
    c: seq<Epoch>)
  {
    forall i :: 0 <= i < |c| - 1 ==>
      && (d, c[i]) in histories && (d, c[i]) in retirements
      && histories[(d, c[i])].primary == retirements[(d, c[i])].primary
  }

  ghost predicate PrimariesDistinct(d: Domain, histories: map<(Domain, Epoch), HistoryRecord>, c: seq<Epoch>) {
    forall i, j :: 0 <= i < j < |c| - 1 && (d, c[i]) in histories && (d, c[j]) in histories ==>
      histories[(d, c[i])].primary != histories[(d, c[j])].primary
  }

  /** The current record continues the chain. */
  ghost predicate CurrentChained(
    d: Domain, r: DomainRecord, histories: map<(Domain, Epoch), HistoryRecord>,
    retirements: map<(Domain, Epoch), RetirementRecord>, c: seq<Epoch>)
  {
    && c != []
    && ((d, c[|c| - 1]) in retirements ==> retirements[(d, c[|c| - 1])].primary == r.primary)
    && (|c| > 1 && (d, c[|c| - 2]) in histories && r.previous.Some? ==>
          r.previous.value == histories[(d, c[|c| - 2])].primary)
    && (forall i :: 0 <= i < |c| - 2 && (d, c[i]) in histories ==> histories[(d, c[i])].primary != r.primary)
  }

  ghost predicate HandoverGood(
    d: Domain, r: DomainRecord, histories: map<(Domain, Epoch), HistoryRecord>,
    retirements: map<(Domain, Epoch), RetirementRecord>, c: seq<Epoch>)
  {
    && ClosedPrimaries(d, histories, retirements, c)
    && RetirementsChained(d, histories, retirements, r.retiredGenerations, c)
    && PrimariesDistinct(d, histories, c)
    && CurrentChained(d, r, histories, retirements, c)
  }

  ghost predicate HandoversGood(t: Table, c: seq<Epoch>) {
    forall d <- t.domains :: HandoverGood(d, t.domains[d], t.histories, t.retirements, c)
  }

  // ---------------------------------------------------------------- what each action does to it

  /** Most actions keep the generations of a domain and only ever add to its retired ones. */
  ghost predicate SameGenerations(a: DomainRecord, b: DomainRecord) {
    b.primary == a.primary && b.previous == a.previous && a.retiredGenerations <= b.retiredGenerations
  }

  lemma HandoverKept(
    d: Domain, a: DomainRecord, b: DomainRecord, histories: map<(Domain, Epoch), HistoryRecord>,
    retirements: map<(Domain, Epoch), RetirementRecord>, c: seq<Epoch>)
    requires HandoverGood(d, a, histories, retirements, c) && SameGenerations(a, b)
    ensures HandoverGood(d, b, histories, retirements, c)
  {
    forall i: nat | i < |c|
      ensures Continues(d, histories, retirements, b.retiredGenerations, c, i)
    {
      assert Continues(d, histories, retirements, a.retiredGenerations, c, i);
    }
  }

  lemma HandoversKept(t: Table, t': Table, c: seq<Epoch>)
    requires HandoversGood(t, c) && t'.histories == t.histories && t'.retirements == t.retirements
    requires t'.domains.Keys == t.domains.Keys
    requires forall d <- t.domains :: SameGenerations(t.domains[d], t'.domains[d])
    ensures HandoversGood(t', c)
  {
    forall d <- t'.domains
      ensures HandoverGood(d, t'.domains[d], t'.histories, t'.retirements, c)
    {
      HandoverKept(d, t.domains[d], t'.domains[d], t.histories, t.retirements, c);
    }
  }

  lemma FirstHandover(d: Domain, r: DomainRecord, e: Epoch)
    requires r.retiredGenerations == {}
    ensures HandoverGood(d, r, map[], map[], [e])
  {
  }

  /** A finished cleanup puts the window's previous generation on record, which the epoch before had
      as its primary. */
  lemma CompletedHandover(
    d: Domain, a: DomainRecord, b: DomainRecord, histories: map<(Domain, Epoch), HistoryRecord>,
    retirements: map<(Domain, Epoch), RetirementRecord>, x: RetirementRecord, c: seq<Epoch>)
    requires HandoverGood(d, a, histories, retirements, c) && (d, c[|c| - 1]) !in retirements
    requires forall i, j :: 0 <= i < j < |c| ==> c[i] != c[j]
    requires a.previous == Some(x.previous) && x.previous in b.retiredGenerations
    requires x.primary == a.primary == b.primary && a.previous != Some(a.primary)
    requires b.previous.None? && a.retiredGenerations <= b.retiredGenerations
    ensures HandoverGood(d, b, histories, retirements[(d, c[|c| - 1]) := x], c)
  {
    var r' := retirements[(d, c[|c| - 1]) := x];
    forall i | 0 <= i < |c| - 1
      ensures c[i] != c[|c| - 1] && (d, c[i]) in histories && (d, c[i]) in r' && r'[(d, c[i])] == retirements[(d, c[i])]
    {
    }
    forall i: nat | i < |c|
      ensures Continues(d, histories, r', b.retiredGenerations, c, i)
    {
      assert Continues(d, histories, retirements, a.retiredGenerations, c, i);
    }
  }

  /** The other domain's records are not in the way. */
  lemma OtherHandover(
    d: Domain, a: DomainRecord, b: DomainRecord, histories: map<(Domain, Epoch), HistoryRecord>,
    retirements: map<(Domain, Epoch), RetirementRecord>, k: (Domain, Epoch), x: RetirementRecord, c: seq<Epoch>)
    requires HandoverGood(d, a, histories, retirements, c) && k.0 != d && SameGenerations(a, b)
    ensures HandoverGood(d, b, histories, retirements[k := x], c)
  {
    var r' := retirements[k := x];
    assert forall e: Epoch :: (d, e) in r' <==> (d, e) in retirements;
    assert forall e: Epoch :: (d, e) in retirements ==> r'[(d, e)] == retirements[(d, e)];
    HandoverKept(d, a, b, histories, retirements, c);
    forall i: nat | i < |c|
      ensures Continues(d, histories, r', b.retiredGenerations, c, i)
    {
      assert Continues(d, histories, retirements, b.retiredGenerations, c, i);
    }
  }

  /** Opening the next epoch: its window, when there is one, carries the closing primary, and its
      primary is none of those retired. */
  lemma NextHandover(
    d: Domain, q: InitializeRequest, a: DomainRecord, b: DomainRecord, histories: map<(Domain, Epoch), HistoryRecord>,
    histories': map<(Domain, Epoch), HistoryRecord>, retirements: map<(Domain, Epoch), RetirementRecord>,
    c: seq<Epoch>, e: Epoch)
    requires HandoverGood(d, a, histories, retirements, c) && b == NextDomain(d, q, a)
    requires (d, c[|c| - 1]) in retirements && (d, e) !in retirements
    requires (d, c[|c| - 1]) in histories' && histories'[(d, c[|c| - 1])].primary == a.primary
    requires forall i :: 0 <= i < |c| - 1 ==> (d, c[i]) in histories' && histories'[(d, c[i])] == histories[(d, c[i])]
    requires b.primary !in a.retiredGenerations
    requires b.previous.Some? ==> b.previous.value == a.primary
    ensures HandoverGood(d, b, histories', retirements, c + [e])
  {
    var c', n := c + [e], |c|;
    assert forall i :: 0 <= i < n ==> c'[i] == c[i];
    assert forall i :: 0 <= i < n - 1 ==> (d, c[i]) in histories;
    forall i: nat | i < n
      ensures Continues(d, histories', retirements, b.retiredGenerations, c', i)
      ensures i > 0 ==> retirements[(d, c[i])].previous == histories'[(d, c[i - 1])].primary
      ensures retirements[(d, c[i])].previous in a.retiredGenerations
    {
      assert Continues(d, histories, retirements, a.retiredGenerations, c, i);
    }
    forall i, j | 0 <= i < j < n
      ensures histories'[(d, c'[i])].primary != histories'[(d, c'[j])].primary
    {
      if j == n - 1 && i == n - 2 {
        assert Continues(d, histories, retirements, a.retiredGenerations, c, j);
      }
    }
    forall i | 0 <= i < n - 1
      ensures histories'[(d, c'[i])].primary != b.primary
    {
      assert Continues(d, histories, retirements, a.retiredGenerations, c, i + 1);
    }
  }

  lemma AdvanceHandover(h: History, op: Op, t': Table, c: seq<Epoch>)
    requires op.Advance? && NextAdvance(h, op) == Some(t') && HandoversGood(Last(h), c)
    ensures HandoversGood(t', c)
  {
    HandoversKept(Last(h), t', c);
  }

  lemma AuthorizeHandover(h: History, op: Op, t': Table, c: seq<Epoch>)
    requires op.Authorize? && NextAuthorize(h, op) == Some(t') && HandoversGood(Last(h), c)
    ensures HandoversGood(t', c)
  {
    var seen := DomainsAt(h, op.at).value;
    AuthorizeCommits(h, op, seen);
    AuthorizedHandover(Last(h), op.auth, seen, t', c);
  }

  lemma AuthorizedHandover(t: Table, q: AuthorizeRequest, seen: Both<DomainRecord>, t': Table, c: seq<Epoch>)
    requires TryAuthorize(t, q, seen) == Some(t') && HandoversGood(t, c)
    ensures HandoversGood(t', c)
  {
    HandoversKept(t, t', c);
  }

  lemma AbortHandover(h: History, op: Op, t': Table, c: seq<Epoch>)
    requires op.Abort? && NextAbort(h, op) == Some(t') && HandoversGood(Last(h), c)
    ensures HandoversGood(t', c)
  {
    HandoversKept(Last(h), t', c);
  }

  lemma CheckpointHandover(h: History, op: Op, t': Table, c: seq<Epoch>)
    requires op.Checkpoint? && NextCheckpoint(h, op) == Some(t') && HandoversGood(Last(h), c)
    ensures HandoversGood(t', c)
  {
    HandoversKept(Last(h), t', c);
  }

  lemma HistoryUntouched(h: History, op: Op, t': Table)
    requires !TouchesDomains(op) && Next(h, op) == Some(t')
    ensures t'.histories == Last(h).histories && t'.retirements == Last(h).retirements
  {
    if op.Rebind? {
      RebindHistoryUntouched(h, op, t');
    } else if op.Bind? {
      BindHistoryUntouched(h, op, t');
    } else {
      RestartHistoryUntouched(h, op, t');
    }
  }

  lemma RebindHistoryUntouched(h: History, op: Op, t': Table)
    requires op.Rebind? && NextRebind(h, op) == Some(t')
    ensures t'.histories == Last(h).histories && t'.retirements == Last(h).retirements
  {
  }

  lemma BindHistoryUntouched(h: History, op: Op, t': Table)
    requires op.Bind? && NextBind(h, op) == Some(t')
    ensures t'.histories == Last(h).histories && t'.retirements == Last(h).retirements
  {
  }

  lemma RestartHistoryUntouched(h: History, op: Op, t': Table)
    requires op.PreRestart? || op.PostRestart? || op.ReconcileRestart? || op.IntentWrite?
    requires Next(h, op) == Some(t')
    ensures t'.histories == Last(h).histories && t'.retirements == Last(h).retirements
  {
    match op
    case PreRestart(_, _, _, _, _) => assert NextPreRestart(h, op) == Some(t');
    case PostRestart(_, _, _, _) => assert NextPostRestart(h, op) == Some(t');
    case ReconcileRestart(_, _) => assert NextReconcileRestart(h, op) == Some(t');
    case IntentWrite(_, _) => assert NextIntentWrite(h, op) == Some(t');
  }

  lemma FinishedHandover(t: Table, q: CompleteRequest, t': Table, c: seq<Epoch>, d: Domain)
    requires HandoversGood(t, c) && CompleteWrote(q, t, t') && c != [] && c[|c| - 1] == q.control.epoch
    requires forall i, j :: 0 <= i < j < |c| ==> c[i] != c[j]
    requires WindowsGood(t.domains)
    ensures d in t'.domains && HandoverGood(d, t'.domains[d], t'.histories, t'.retirements, c)
  {
    match d { case MailAction => case ReportLink => }
    var k := (q.domain, q.control.epoch);
    assert WindowGood(q.domain, t.domains[q.domain]);
    assert HandoverGood(d, t.domains[d], t.histories, t.retirements, c);
    if d == q.domain {
      CompletedHandover(d, t.domains[d], t'.domains[d], t.histories, t.retirements, t'.retirements[k], c);
    } else {
      OtherHandover(d, t.domains[d], t'.domains[d], t.histories, t.retirements, k, t'.retirements[k], c);
    }
  }

  lemma CompleteHandover(h: History, op: Op, t': Table, c: seq<Epoch>)
    requires op.Complete? && Reaches(h) && NextComplete(h, op) == Some(t') && HandoversGood(Last(h), c)
    requires c != [] && Lockstep(Last(h).domains, Last(h).ledgers, c[|c| - 1]) && WindowsGood(Last(h).domains)
    requires forall i, j :: 0 <= i < j < |c| ==> c[i] != c[j]
    ensures HandoversGood(t', c)
  {
    CompleteWritesNow(h, op, t');
    FinishedHandover(Last(h), op.done, t', c, MailAction);
    FinishedHandover(Last(h), op.done, t', c, ReportLink);
    BothEnough(t', c);
  }

  lemma BothEnough(t: Table, c: seq<Epoch>)
    requires MailAction in t.domains && HandoverGood(MailAction, t.domains[MailAction], t.histories, t.retirements, c)
    requires ReportLink in t.domains && HandoverGood(ReportLink, t.domains[ReportLink], t.histories, t.retirements, c)
    ensures HandoversGood(t, c)
  {
    forall d <- t.domains
      ensures HandoverGood(d, t.domains[d], t.histories, t.retirements, c)
    {
      match d { case MailAction => case ReportLink => }
    }
  }

  lemma OpenedHandover(
    t: Table, q: InitializeRequest, seen: Both<DomainRecord>, prior: Option<LedgerRecord>, t': Table, c: seq<Epoch>,
    d: Domain)
    requires HandoversGood(t, c) && SeenBefore(t, seen) && NextEpochChecks(q, seen, prior) && NextEpochHolds(t, q, seen)
    requires t' == NextEpochEffect(t, q, seen) && c != [] && seen.mail.epoch == c[|c| - 1]
    requires (d, c[|c| - 1]) in t.retirements && (d, q.epoch) !in t.retirements
    requires forall i, j :: 0 <= i < j < |c| ==> c[i] != c[j]
    ensures d in t'.domains && HandoverGood(d, t'.domains[d], t'.histories, t'.retirements, c + [q.epoch])
  {
    match d { case MailAction => case ReportLink => }
    assert HandoverGood(d, t.domains[d], t.histories, t.retirements, c);
    ReadyStays(d, q, seen.At(d), t.domains[d]);
    TransitionContract(q.deployed.At(d), q.manifest.proposed.At(d), q.checkedAt, MaxTtl(d));
    NextHandover(d, q, t.domains[d], t'.domains[d], t.histories, t'.histories, t.retirements, c, q.epoch);
  }

  lemma NextEpochHandover(
    t: Table, q: InitializeRequest, seen: Both<DomainRecord>, prior: Option<LedgerRecord>, t': Table, c: seq<Epoch>)
    requires HandoversGood(t, c) && SeenBefore(t, seen) && NextEpochChecks(q, seen, prior) && NextEpochHolds(t, q, seen)
    requires t' == NextEpochEffect(t, q, seen) && c != [] && Lockstep(t.domains, t.ledgers, c[|c| - 1])
    requires ClosedGood(t.domains, t.retirements) && RetirementsGood(t.cleanups, t.retirements)
    requires CleanupsLate(t.cleanups, t.ledgers) && forall i, j :: 0 <= i < j < |c| ==> c[i] != c[j]
    ensures HandoversGood(t', c + [q.epoch])
  {
    ReadyStays(MailAction, q, seen.mail, t.domains[MailAction]);
    ReadyStays(ReportLink, q, seen.report, t.domains[ReportLink]);
    OpenedHandover(t, q, seen, prior, t', c, MailAction);
    OpenedHandover(t, q, seen, prior, t', c, ReportLink);
    BothEnough(t', c + [q.epoch]);
  }

  lemma InitializeHandover(h: History, op: Op, t': Table, c: seq<Epoch>)
    requires op.Initialize? && Reaches(h) && NextInitialize(h, op) == Some(t') && HandoversGood(Last(h), c)
    requires c == [] ==> Blank(Last(h))
    requires c != [] ==> Lockstep(Last(h).domains, Last(h).ledgers, c[|c| - 1])
    requires ClosedGood(Last(h).domains, Last(h).retirements) && RetirementsGood(Last(h).cleanups, Last(h).retirements)
    requires CleanupsLate(Last(h).cleanups, Last(h).ledgers) && forall i, j :: 0 <= i < j < |c| ==> c[i] != c[j]
    ensures HandoversGood(t', c + [op.init.epoch])
  {
    var q := op.init;
    var mail, report := DomainAt(h, op.at.mail, MailAction), DomainAt(h, op.at.report, ReportLink);
    if mail.None? || report.None? {
      assert c == [] && c + [q.epoch] == [q.epoch];
      FirstHandover(MailAction, FirstDomain(MailAction, q), q.epoch);
      FirstHandover(ReportLink, FirstDomain(ReportLink, q), q.epoch);
      BothEnough(t', [q.epoch]);
    } else {
      DomainsSeen(h, op.at);
      NextEpochHandover(Last(h), q, Both(mail.value, report.value), LedgerAt(h, op.atLedger, mail.value.epoch), t', c);
    }
  }

  lemma UntouchedHandover(h: History, op: Op, t': Table, c: seq<Epoch>)
    requires Reaches(h) && HandoversGood(Last(h), c) && Next(h, op) == Some(t')
    requires !TouchesDomains(op)
    ensures HandoversGood(t', EpochsAfter(c, op))
  {
    DomainsUntouched(h, op, t');
    HistoryUntouched(h, op, t');
    HandoversKept(Last(h), t', c);
  }

  lemma CleanupStepHandover(h: History, op: Op, t': Table, c: seq<Epoch>)
    requires HandoversGood(Last(h), c) && Next(h, op) == Some(t') && (op.Authorize? || op.Abort?)
    ensures HandoversGood(t', c)
  {
    if op.Authorize? {
      AuthorizeHandover(h, op, t', c);
    } else {
      AbortHandover(h, op, t', c);
    }
  }

  lemma StageStepHandover(h: History, op: Op, t': Table, c: seq<Epoch>)
    requires HandoversGood(Last(h), c) && Next(h, op) == Some(t') && (op.Advance? || op.Checkpoint?)
    ensures HandoversGood(t', c)
  {
    if op.Advance? {
      AdvanceHandover(h, op, t', c);
    } else {
      CheckpointHandover(h, op, t', c);
    }
  }

  lemma InitializeHandoverNow(h: History, op: Op, t': Table, c: seq<Epoch>)
    requires op.Initialize? && Reaches(h) && Good(Last(h), c) && HandoversGood(Last(h), c) && Next(h, op) == Some(t')
    ensures HandoversGood(t', c + [op.init.epoch])
  {
    InitializeHandover(h, op, t', c);
  }

  lemma CompleteHandoverNow(h: History, op: Op, t': Table, c: seq<Epoch>)
    requires op.Complete? && Reaches(h) && Good(Last(h), c) && HandoversGood(Last(h), c) && Next(h, op) == Some(t')
    ensures HandoversGood(t', c)
  {
    CompleteHandover(h, op, t', c);
  }

  lemma StepHandover(h: History, op: Op, t': Table, c: seq<Epoch>)
    requires Reaches(h) && Good(Last(h), c) && HandoversGood(Last(h), c) && Next(h, op) == Some(t')
    ensures HandoversGood(t', EpochsAfter(c, op))
  {
    if op.Initialize? {
      InitializeHandoverNow(h, op, t', c);
    } else if op.Complete? {
      CompleteHandoverNow(h, op, t', c);
    } else if op.Authorize? || op.Abort? {
      CleanupStepHandover(h, op, t', c);
    } else if op.Advance? || op.Checkpoint? {
      StageStepHandover(h, op, t', c);
    } else {
      UntouchedHandover(h, op, t', c);
    }
  }

  lemma {:induction false} HandoverInvariant(h: seq<Table>, ops: seq<Op>, i: nat)
    requires Run(h, ops) && i < |h|
    ensures HandoversGood(h[i], Epochs(ops[..i]))
    decreases i
  {
    if i > 0 {
      var m := i - 1;
      HandoverInvariant(h, ops, m);
      HandoverStepAt(h, ops, m);
    }
  }

  lemma HandoverStepAt(h: seq<Table>, ops: seq<Op>, m: nat)
    requires Run(h, ops) && m < |ops| && HandoversGood(h[m], Epochs(ops[..m]))
    ensures HandoversGood(h[m + 1], Epochs(ops[..m + 1]))
  {
    Committed(h, ops, m);
    StateGood(h, ops, m);
    assert ops[..m + 1][..m] == ops[..m];
    StepHandover(h[..m + 1], ops[m], h[m + 1], Epochs(ops[..m]));
  }

  /** Key continuity, epoch by epoch: a closed epoch retired exactly the generation that was primary
      when the epoch before it closed, and no generation was primary at the close of two epochs. */
  lemma KeyContinuity(h: seq<Table>, ops: seq<Op>, i: nat, d: Domain, a: nat, b: nat)
    requires Run(h, ops) && i < |h| && d in h[i].domains && a < b < |Epochs(ops[..i])| - 1
    ensures var c := Epochs(ops[..i]);
            && (d, c[a]) in h[i].histories && (d, c[b]) in h[i].histories && (d, c[b]) in h[i].retirements
            && (d, c[b - 1]) in h[i].histories
            && h[i].retirements[(d, c[b])].previous == h[i].histories[(d, c[b - 1])].primary
            && h[i].histories[(d, c[b])].primary == h[i].retirements[(d, c[b])].primary
            && h[i].histories[(d, c[a])].primary != h[i].histories[(d, c[b])].primary
            && h[i].histories[(d, c[b - 1])].primary in h[i].domains[d].retiredGenerations
  {
    HandoverInvariant(h, ops, i);
    ContinuityOf(d, h[i].domains[d], h[i].histories, h[i].retirements, Epochs(ops[..i]), a, b);
  }

  lemma ContinuityOf(
    d: Domain, r: DomainRecord, histories: map<(Domain, Epoch), HistoryRecord>,
    retirements: map<(Domain, Epoch), RetirementRecord>, c: seq<Epoch>, a: nat, b: nat)
    requires HandoverGood(d, r, histories, retirements, c) && a < b < |c| - 1
    ensures (d, c[a]) in histories && (d, c[b]) in histories && (d, c[b]) in retirements && (d, c[b - 1]) in histories
    ensures retirements[(d, c[b])].previous == histories[(d, c[b - 1])].primary
    ensures histories[(d, c[b])].primary == retirements[(d, c[b])].primary
    ensures histories[(d, c[a])].primary != histories[(d, c[b])].primary
    ensures histories[(d, c[b - 1])].primary in r.retiredGenerations
  {
    assert Continues(d, histories, retirements, r.retiredGenerations, c, b);
  }
}
