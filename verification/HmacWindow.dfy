/** The rotation window of a domain: fixed from the start of its epoch until the one cleanup that
    removes it, so that what a gate read of it early in the epoch is still true later. */
module HmacWindow {
  import opened Optional
  import opened HmacKeyring
  import opened HmacTable
  import opened HmacRun
  import opened HmacInvariant
  import opened HmacRunGood

  /** Two records of one domain in one epoch: the window is the same, or it was removed in between. */
  ghost predicate WindowKept(a: DomainRecord, b: DomainRecord) {
    && b.primary == a.primary
    && (a.previousRetired ==> b.previousRetired)
    && (|| (b.previous == a.previous && b.t0 == a.t0 && b.deadline == a.deadline && b.legacyWorker == a.legacyWorker)
        || (b.previous.None? && b.t0.None? && b.deadline.None? && b.legacyWorker.None? && b.previousRetired))
    && (b.stage != RuntimeComplete ==>
          a.stage != RuntimeComplete && ConfigOf(b) == ConfigOf(a) && b.legacyWorker == a.legacyWorker)
  }

  /** An epoch that was left is never entered again, because entering one needs its ledger absent. */
  ghost predicate WindowMoves(a: DomainRecord, b: DomainRecord, known: set<Epoch>) {
    if b.epoch == a.epoch then WindowKept(a, b) else b.epoch !in known
  }

  ghost predicate WindowsMove(a: Table, b: Table) {
    && a.ledgers.Keys <= b.ledgers.Keys
    && forall d <- a.domains :: d in b.domains && WindowMoves(a.domains[d], b.domains[d], a.ledgers.Keys)
  }

  lemma WindowsMoveOn(a: Table, b: Table, c: Table)
    requires WindowsMove(a, b) && WindowsMove(b, c)
    requires forall d <- a.domains :: a.domains[d].epoch in a.ledgers
    ensures WindowsMove(a, c)
  {
    forall d <- a.domains
      ensures d in c.domains && WindowMoves(a.domains[d], c.domains[d], a.ledgers.Keys)
    {
      assert WindowMoves(a.domains[d], b.domains[d], a.ledgers.Keys);
      assert WindowMoves(b.domains[d], c.domains[d], b.ledgers.Keys);
    }
  }

  lemma TwoWindowsMove(t: Table, mail: DomainRecord, report: DomainRecord, t': Table)
    requires MailAction in t.domains && ReportLink in t.domains && t.ledgers.Keys <= t'.ledgers.Keys
    requires t'.domains == t.domains[MailAction := mail][ReportLink := report]
    requires WindowMoves(t.domains[MailAction], mail, t.ledgers.Keys)
    requires WindowMoves(t.domains[ReportLink], report, t.ledgers.Keys)
    ensures WindowsMove(t, t')
  {
    forall d <- t.domains
      ensures d in t'.domains && WindowMoves(t.domains[d], t'.domains[d], t.ledgers.Keys)
    {
      match d { case MailAction => case ReportLink => }
    }
  }

  lemma InitializeMoves(h: History, op: Op, t': Table)
    requires op.Initialize? && NextInitialize(h, op) == Some(t')
    ensures WindowsMove(Last(h), t')
  {
    InitializeOpens(h, op, t');
    OpensMoves(Last(h), op.init, t');
  }

  lemma OpensMoves(t: Table, q: InitializeRequest, t': Table)
    requires Opens(t, q, t')
    ensures WindowsMove(t, t')
  {
  }

  lemma AdvanceMoves(h: History, op: Op, t': Table)
    requires op.Advance? && NextAdvance(h, op) == Some(t')
    requires Lockstep(Last(h).domains, Last(h).ledgers, op.move.control.epoch)
    ensures WindowsMove(Last(h), t')
  {
    var t := Last(h);
    TwoWindowsMove(t, StagedDomain(op.move, MailAction, t.domains[MailAction]),
                   StagedDomain(op.move, ReportLink, t.domains[ReportLink]), t');
  }

  lemma AuthorizeMoves(h: History, op: Op, t': Table)
    requires op.Authorize? && NextAuthorize(h, op) == Some(t')
    ensures WindowsMove(Last(h), t')
  {
    var t, seen := Last(h), DomainsAt(h, op.at).value;
    TwoWindowsMove(t, AuthorizedDomain(op.auth, MailAction, seen.mail, t.domains[MailAction]),
                   AuthorizedDomain(op.auth, ReportLink, seen.report, t.domains[ReportLink]), t');
  }

  lemma AbortMoves(h: History, op: Op, t': Table)
    requires op.Abort? && NextAbort(h, op) == Some(t')
    ensures WindowsMove(Last(h), t')
  {
    var t, q := Last(h), op.rec;
    var cleanup := CleanupAt(h, op.atCleanup, q.control.epoch, q.domain).value;
    TwoWindowsMove(t, AbortedDomain(q, MailAction, cleanup, t.domains[MailAction]),
                   AbortedDomain(q, ReportLink, cleanup, t.domains[ReportLink]), t');
  }

  lemma CompleteMoves(h: History, op: Op, t': Table)
    requires op.Complete? && NextComplete(h, op) == Some(t')
    ensures WindowsMove(Last(h), t')
  {
    var t, q := Last(h), op.done;
    var cleanup := CleanupAt(h, op.atCleanup, q.control.epoch, q.domain).value;
    TwoWindowsMove(t, CleanedDomain(q, MailAction, cleanup, t.domains[MailAction]),
                   CleanedDomain(q, ReportLink, cleanup, t.domains[ReportLink]), t');
  }

  lemma CheckpointMoves(h: History, op: Op, t': Table)
    requires op.Checkpoint? && NextCheckpoint(h, op) == Some(t')
    ensures WindowsMove(Last(h), t')
  {
  }

  predicate TouchesDomains(op: Op) {
    op.Initialize? || op.Advance? || op.Authorize? || op.Abort? || op.Complete? || op.Checkpoint?
  }

  /** The remaining actions do not write DOMAIN records at all. */
  lemma DomainsUntouched(h: History, op: Op, t': Table)
    requires !TouchesDomains(op) && Next(h, op) == Some(t')
    ensures t'.domains == Last(h).domains && t'.ledgers.Keys == Last(h).ledgers.Keys
  {
    match op
    case Rebind(_, _, _, _, _) => assert NextRebind(h, op) == Some(t');
    case Bind(_, _, _, _) => assert NextBind(h, op) == Some(t');
    case _ => WritesElsewhere(h, op, t');
  }

  /** Both domains are in the newest epoch; before the first there are none. */
  ghost predicate InEpoch(t: Table, c: seq<Epoch>) {
    if c == [] then t.domains == map[] else Lockstep(t.domains, t.ledgers, c[|c| - 1])
  }

  lemma StepMoves(h: History, op: Op, t': Table, c: seq<Epoch>)
    requires Next(h, op) == Some(t') && InEpoch(Last(h), c)
    ensures WindowsMove(Last(h), t')
  {
    if !TouchesDomains(op) {
      DomainsUntouched(h, op, t');
    } else {
      match op
      case Initialize(_, _, _) => InitializeMoves(h, op, t');
      case Advance(_, _, _, _, _, _, _, _) => AdvanceMoves(h, op, t');
      case Checkpoint(_, _, _, _) => CheckpointMoves(h, op, t');
      case _ => CleanupMoves(h, op, t');
    }
  }

  lemma CleanupMoves(h: History, op: Op, t': Table)
    requires op.Authorize? || op.Abort? || op.Complete?
    requires Next(h, op) == Some(t')
    ensures WindowsMove(Last(h), t')
  {
    match op
    case Authorize(_, _, _, _, _) => AuthorizeMoves(h, op, t');
    case Abort(_, _, _, _, _) => AbortMoves(h, op, t');
    case Complete(_, _, _, _, _) => CompleteMoves(h, op, t');
  }

  lemma DomainEpochsKnown(t: Table, c: seq<Epoch>)
    requires InEpoch(t, c)
    ensures forall d <- t.domains :: t.domains[d].epoch in t.ledgers
  {
    forall d <- t.domains
      ensures t.domains[d].epoch in t.ledgers
    {
      match d { case MailAction => case ReportLink => }
    }
  }

  lemma EpochAt(h: seq<Table>, ops: seq<Op>, i: nat)
    requires Run(h, ops) && i < |h|
    ensures InEpoch(h[i], Epochs(ops[..i]))
  {
    StateGood(h, ops, i);
  }

  lemma KnownEpochs(h: seq<Table>, ops: seq<Op>, i: nat)
    requires Run(h, ops) && i < |h|
    ensures forall d <- h[i].domains :: h[i].domains[d].epoch in h[i].ledgers
  {
    EpochAt(h, ops, i);
    DomainEpochsKnown(h[i], Epochs(ops[..i]));
  }

  lemma StateMoves(h: seq<Table>, ops: seq<Op>, m: nat)
    requires Run(h, ops) && m < |ops|
    ensures WindowsMove(h[m], h[m + 1])
  {
    Committed(h, ops, m);
    EpochAt(h, ops, m);
    StepMoves(h[..m + 1], ops[m], h[m + 1], Epochs(ops[..m]));
  }

  /** Between any two states of a run a domain keeps its window, loses it to a cleanup, or is in an
      epoch that had not begun. */
  lemma {:induction false} StatesMove(h: seq<Table>, ops: seq<Op>, i: nat, j: nat)
    requires Run(h, ops) && i <= j < |h|
    ensures WindowsMove(h[i], h[j])
    decreases j
  {
    if i < j {
      var m := j - 1;
      StatesMove(h, ops, i, m);
      StateMoves(h, ops, m);
      KnownEpochs(h, ops, i);
      WindowsMoveOn(h[i], h[m], h[j]);
    }
  }
}
