/** Which provenances may issue tokens: the sets a cleanup widens, narrows and restores, in any
    interleaving, and the guarantee that a retired provenance never issues again. */
module HmacIssuers {
  import opened Optional
  import opened HmacKeyring
  import opened HmacTable
  import opened HmacRun
  import opened HmacInvariant
  import opened HmacRunGood
  import opened HmacWindow

  /** Every control file used by a run passed the provenance checks. */
  predicate ControlBound(op: Op) {
    && (op.Advance? ==> BindsEpoch(op.move.control))
    && (op.Authorize? ==> BindsEpoch(op.auth.control))
  }

  /** Issuers are of the current epoch and not retired; nothing issues before the MCP cutover, and
      the current epoch retires provenances only once it is complete. */
  ghost predicate IssuerGood(r: DomainRecord, known: set<Epoch>) {
    && r.issuers !! r.retiredProvenances
    && (forall p <- r.issuers :: p.epoch == r.epoch)
    && (r.stage == Preload ==> r.issuers == {})
    && (forall p <- r.retiredProvenances :: p.epoch in known)
    && (r.stage != RuntimeComplete ==> forall p <- r.retiredProvenances :: p.epoch != r.epoch)
  }

  ghost predicate IssuersGood(t: Table) {
    forall d <- t.domains :: IssuerGood(t.domains[d], t.ledgers.Keys)
  }

  lemma TwoIssuersGood(t: Table, mail: DomainRecord, report: DomainRecord, t': Table)
    requires t'.domains == t.domains[MailAction := mail][ReportLink := report]
    requires IssuerGood(mail, t'.ledgers.Keys) && IssuerGood(report, t'.ledgers.Keys)
    ensures IssuersGood(t')
  {
    forall d <- t'.domains
      ensures IssuerGood(t'.domains[d], t'.ledgers.Keys)
    {
      match d { case MailAction => case ReportLink => }
    }
  }

  lemma OpenedAt(d: Domain, q: InitializeRequest, r: DomainRecord, known: set<Epoch>)
    requires IssuerGood(r, known) && q.epoch !in known
    ensures IssuerGood(NextDomain(d, q, r), known + {q.epoch})
  {
  }

  lemma InitializeIssuers(h: History, op: Op, t': Table)
    requires op.Initialize? && NextInitialize(h, op) == Some(t') && IssuersGood(Last(h))
    ensures IssuersGood(t')
  {
    var seen := Both(DomainAt(h, op.at.mail, MailAction), DomainAt(h, op.at.report, ReportLink));
    var prior := if seen.mail.Some? then LedgerAt(h, op.atLedger, seen.mail.value.epoch) else None;
    TryInitializeIssuers(Last(h), op.init, seen, prior, t');
  }

  lemma TryInitializeIssuers(
    t: Table, q: InitializeRequest, seen: Both<Option<DomainRecord>>, prior: Option<LedgerRecord>, t': Table)
    requires TryInitialize(t, q, seen, prior) == Some(t') && IssuersGood(t)
    ensures IssuersGood(t')
  {
    if seen.mail.None? {
      FirstEpochIssuers(t, q, t');
    } else {
      var both := Both(seen.mail.value, seen.report.value);
      assert NextEpochHolds(t, q, both) && t' == NextEpochEffect(t, q, both);
      NextEpochIssuers(t, q, t');
    }
  }

  lemma FirstEpochIssuers(t: Table, q: InitializeRequest, t': Table)
    requires FirstEpochChecks(q) && FirstEpochHolds(t, q) && t' == FirstEpochEffect(t, q)
    ensures IssuersGood(t')
  {
    TwoIssuersGood(t, FirstDomain(MailAction, q), FirstDomain(ReportLink, q), t');
  }

  lemma NextEpochIssuers(t: Table, q: InitializeRequest, t': Table)
    requires MailAction in t.domains && ReportLink in t.domains && IssuersGood(t) && q.epoch !in t.ledgers
    requires t'.ledgers.Keys == t.ledgers.Keys + {q.epoch}
    requires t'.domains == t.domains[MailAction := NextDomain(MailAction, q, t.domains[MailAction])]
                                    [ReportLink := NextDomain(ReportLink, q, t.domains[ReportLink])]
    ensures IssuersGood(t')
  {
    OpenedAt(MailAction, q, t.domains[MailAction], t.ledgers.Keys);
    OpenedAt(ReportLink, q, t.domains[ReportLink], t.ledgers.Keys);
    TwoIssuersGood(t, NextDomain(MailAction, q, t.domains[MailAction]),
                   NextDomain(ReportLink, q, t.domains[ReportLink]), t');
  }

  lemma StagedIssuers(q: TransitionRequest, d: Domain, r: DomainRecord, known: set<Epoch>, stage: LedgerStage)
    requires IssuerGood(r, known) && r.epoch == q.control.epoch && BindsEpoch(q.control)
    requires q.target != Initialized && stage == ExpectedStage(q.target) && r.stage == RuntimeStageOf(stage)
    ensures IssuerGood(StagedDomain(q, d, r), known)
  {
    assert Issuers(q.control).report <= Issuers(q.control).mail;
  }

  lemma AdvanceIssuers(h: History, op: Op, t': Table, e: Epoch)
    requires op.Advance? && NextAdvance(h, op) == Some(t') && IssuersGood(Last(h)) && BindsEpoch(op.move.control)
    requires Lockstep(Last(h).domains, Last(h).ledgers, e)
    ensures IssuersGood(t')
  {
    var t, q := Last(h), op.move;
    var stage := t.ledgers[q.control.epoch].stage;
    StagedIssuers(q, MailAction, t.domains[MailAction], t.ledgers.Keys, stage);
    StagedIssuers(q, ReportLink, t.domains[ReportLink], t.ledgers.Keys, stage);
    TwoIssuersGood(t, StagedDomain(q, MailAction, t.domains[MailAction]),
                   StagedDomain(q, ReportLink, t.domains[ReportLink]), t');
  }

  lemma WidenedIssuers(q: AuthorizeRequest, d: Domain, seen: DomainRecord, r: DomainRecord, known: set<Epoch>)
    requires IssuerGood(r, known) && ClockMoved(seen, r) && AuthorizeDomainChecks(q, d, seen) && BindsEpoch(q.control)
    ensures IssuerGood(AuthorizedDomain(q, d, seen, r), known)
  {
    assert Issuers(q.control).report <= Issuers(q.control).mail;
  }

  lemma AuthorizeIssuers(h: History, op: Op, t': Table)
    requires op.Authorize? && Reaches(h) && NextAuthorize(h, op) == Some(t')
    requires IssuersGood(Last(h)) && BindsEpoch(op.auth.control)
    ensures IssuersGood(t')
  {
    var t, q, seen := Last(h), op.auth, DomainsAt(h, op.at).value;
    DomainsSeen(h, op.at);
    WidenedIssuers(q, MailAction, seen.mail, t.domains[MailAction], t.ledgers.Keys);
    WidenedIssuers(q, ReportLink, seen.report, t.domains[ReportLink], t.ledgers.Keys);
    TwoIssuersGood(t, AuthorizedDomain(q, MailAction, seen.mail, t.domains[MailAction]),
                   AuthorizedDomain(q, ReportLink, seen.report, t.domains[ReportLink]), t');
  }

  lemma AbortIssuers(h: History, op: Op, t': Table)
    requires op.Abort? && NextAbort(h, op) == Some(t') && IssuersGood(Last(h))
    ensures IssuersGood(t')
  {
    var t, q := Last(h), op.rec;
    var cleanup := CleanupAt(h, op.atCleanup, q.control.epoch, q.domain).value;
    assert IssuerGood(t.domains[MailAction], t.ledgers.Keys) && IssuerGood(t.domains[ReportLink], t.ledgers.Keys);
    TwoIssuersGood(t, AbortedDomain(q, MailAction, cleanup, t.domains[MailAction]),
                   AbortedDomain(q, ReportLink, cleanup, t.domains[ReportLink]), t');
  }

  lemma NarrowedIssuers(q: CompleteRequest, d: Domain, cleanup: CleanupRecord, r: DomainRecord, known: set<Epoch>)
    requires IssuerGood(r, known) && r.stage == RuntimeComplete && r.epoch in known
    requires r.issuers == cleanup.oldIssuers.At(d) + cleanup.newIssuers.At(d)
    requires cleanup.oldIssuers.At(d) !! cleanup.newIssuers.At(d)
    ensures IssuerGood(CleanedDomain(q, d, cleanup, r), known)
  {
  }

  lemma CompleteIssuers(h: History, op: Op, t': Table, e: Epoch)
    requires op.Complete? && Reaches(h) && NextComplete(h, op) == Some(t') && IssuersGood(Last(h))
    requires CleanupRecordsGood(Last(h).cleanups)
    requires Lockstep(Last(h).domains, Last(h).ledgers, e)
    ensures IssuersGood(t')
  {
    var t, q := Last(h), op.done;
    var cleanup := CleanupAt(h, op.atCleanup, q.control.epoch, q.domain).value;
    CleanupSeen(h, op.atCleanup, q.control.epoch, q.domain);
    assert CleanupRecordGood(t.cleanups[(q.control.epoch, q.domain)]);
    NarrowedIssuers(q, MailAction, cleanup, t.domains[MailAction], t.ledgers.Keys);
    NarrowedIssuers(q, ReportLink, cleanup, t.domains[ReportLink], t.ledgers.Keys);
    TwoIssuersGood(t, CleanedDomain(q, MailAction, cleanup, t.domains[MailAction]),
                   CleanedDomain(q, ReportLink, cleanup, t.domains[ReportLink]), t');
  }

  lemma CheckpointIssuers(h: History, op: Op, t': Table)
    requires op.Checkpoint? && NextCheckpoint(h, op) == Some(t') && IssuersGood(Last(h))
    ensures IssuersGood(t')
  {
    assert IssuerGood(Last(h).domains[op.domain], Last(h).ledgers.Keys);
  }

  lemma CleanupIssuers(h: History, op: Op, t': Table, e: Epoch)
    requires (op.Authorize? || op.Abort? || op.Complete?) && Next(h, op) == Some(t') && ControlBound(op)
    requires Reaches(h) && IssuersGood(Last(h)) && CleanupRecordsGood(Last(h).cleanups)
    requires Lockstep(Last(h).domains, Last(h).ledgers, e)
    ensures IssuersGood(t')
  {
    match op
    case Authorize(_, _, _, _, _) => AuthorizeIssuers(h, op, t');
    case Abort(_, _, _, _, _) => AbortIssuers(h, op, t');
    case Complete(_, _, _, _, _) => CompleteIssuers(h, op, t', e);
  }

  lemma OtherIssuers(h: History, op: Op, t': Table, e: Epoch)
    requires (op.Advance? || op.Checkpoint? || !TouchesDomains(op)) && Next(h, op) == Some(t') && ControlBound(op)
    requires IssuersGood(Last(h)) && (TouchesDomains(op) ==> Lockstep(Last(h).domains, Last(h).ledgers, e))
    ensures IssuersGood(t')
  {
    if !TouchesDomains(op) {
      DomainsUntouched(h, op, t');
    } else if op.Advance? {
      AdvanceIssuers(h, op, t', e);
    } else {
      CheckpointIssuers(h, op, t');
    }
  }

  /** Only initialization works on a table without domains. */
  lemma DomainsNeeded(h: History, op: Op, t': Table)
    requires op.Advance? || op.Authorize? || op.Abort? || op.Complete? || op.Checkpoint?
    requires Next(h, op) == Some(t')
    ensures Last(h).domains != map[]
  {
    if op.Authorize? {
      assert TryAuthorize(Last(h), op.auth, DomainsAt(h, op.at).value).Some?;
    }
  }

  lemma StepIssuers(h: History, op: Op, t': Table, c: seq<Epoch>)
    requires Reaches(h) && Good(Last(h), c) && IssuersGood(Last(h)) && Next(h, op) == Some(t') && ControlBound(op)
    ensures IssuersGood(t')
  {
    if op.Initialize? {
      InitializeIssuers(h, op, t');
    } else {
      if TouchesDomains(op) {
        DomainsNeeded(h, op, t');
      }
      var e := if c == [] then "" else c[|c| - 1];
      if op.Authorize? || op.Abort? || op.Complete? {
        CleanupIssuers(h, op, t', e);
      } else {
        OtherIssuers(h, op, t', e);
      }
    }
  }

  /** Issuer safety: in no state of any run does a retired provenance issue. */
  lemma {:induction false} IssuerSafety(h: seq<Table>, ops: seq<Op>, i: nat)
    requires Run(h, ops) && i < |h|
    requires forall k :: 0 <= k < |ops| ==> ControlBound(ops[k])
    ensures IssuersGood(h[i])
    decreases i
  {
    if i > 0 {
      IssuerSafety(h, ops, i - 1);
      Committed(h, ops, i - 1);
      StateGood(h, ops, i - 1);
      StepIssuers(h[..i], ops[i - 1], h[i], Epochs(ops[..i - 1]));
    }
  }
}
