/** Every table of every interleaved run is good, and any two of them are related by evolution. */
module HmacRunGood {
  import opened Optional
  import opened HmacKeyring
  import opened HmacTable
  import opened HmacRun
  import opened HmacInvariant

  /** The epochs opened by a sequence of committed actions, oldest first. */
  function Epochs(ops: seq<Op>): seq<Epoch> {
    if ops == [] then [] else EpochsAfter(Epochs(ops[..|ops| - 1]), ops[|ops| - 1])
  }

  function EpochsAfter(c: seq<Epoch>, op: Op): seq<Epoch> {
    if op.Initialize? then c + [op.init.epoch] else c
  }

  ghost predicate Reaches(h: History) {
    forall k :: 0 <= k < |h| ==> TableEvolves(h[k], Last(h))
  }

  lemma DomainsTransitive(a: map<Domain, DomainRecord>, b: map<Domain, DomainRecord>, c: map<Domain, DomainRecord>)
    requires DomainsEvolve(a, b) && DomainsEvolve(b, c)
    ensures DomainsEvolve(a, c)
  {
    forall d <- a
      ensures d in c && DomainEvolves(a[d], c[d])
    {
      assert DomainEvolves(a[d], b[d]) && DomainEvolves(b[d], c[d]);
    }
  }

  lemma LedgersTransitive(a: map<Epoch, LedgerRecord>, b: map<Epoch, LedgerRecord>, c: map<Epoch, LedgerRecord>)
    requires LedgersEvolve(a, b) && LedgersEvolve(b, c)
    ensures LedgersEvolve(a, c)
  {
    forall e <- a
      ensures e in c && LedgerEvolves(a[e], c[e])
    {
      assert LedgerEvolves(a[e], b[e]) && LedgerEvolves(b[e], c[e]);
    }
  }

  lemma CleanupsTransitive(
    a: map<(Epoch, Domain), CleanupRecord>, b: map<(Epoch, Domain), CleanupRecord>,
    c: map<(Epoch, Domain), CleanupRecord>)
    requires CleanupsEvolve(a, b) && CleanupsEvolve(b, c)
    ensures CleanupsEvolve(a, c)
  {
    forall k <- a
      ensures k in c && CleanupEvolves(a[k], c[k])
    {
      assert CleanupEvolves(a[k], b[k]) && CleanupEvolves(b[k], c[k]);
    }
  }

  lemma TableTransitive(a: Table, b: Table, c: Table)
    requires TableEvolves(a, b) && TableEvolves(b, c)
    ensures TableEvolves(a, c)
  {
    DomainsTransitive(a.domains, b.domains, c.domains);
    LedgersTransitive(a.ledgers, b.ledgers, c.ledgers);
    CleanupsTransitive(a.cleanups, b.cleanups, c.cleanups);
    forall k <- a.restarts
      ensures k in c.restarts && RestartEvolves(a.restarts[k], c.restarts[k])
    {
      assert RestartEvolves(a.restarts[k], b.restarts[k]) && RestartEvolves(b.restarts[k], c.restarts[k]);
    }
  }

  // ------------------------------------------------- snapshots are earlier versions of today's records

  lemma DomainsSeen(h: History, at: Both<nat>)
    requires Reaches(h) && DomainsAt(h, at).Some?
    ensures SeenBefore(Last(h), DomainsAt(h, at).value)
  {
    assert TableEvolves(h[at.mail], Last(h)) && TableEvolves(h[at.report], Last(h));
  }

  lemma DomainSeen(h: History, k: nat, d: Domain)
    requires Reaches(h) && DomainAt(h, k, d).Some?
    ensures d in Last(h).domains && DomainEvolves(DomainAt(h, k, d).value, Last(h).domains[d])
  {
    assert TableEvolves(h[k], Last(h));
  }

  lemma LedgerSeen(h: History, k: nat, e: Epoch)
    requires Reaches(h) && LedgerAt(h, k, e).Some?
    ensures e in Last(h).ledgers && LedgerEvolves(LedgerAt(h, k, e).value, Last(h).ledgers[e])
  {
    assert TableEvolves(h[k], Last(h));
  }

  lemma CleanupSeen(h: History, k: nat, e: Epoch, d: Domain)
    requires Reaches(h) && CleanupAt(h, k, e, d).Some?
    ensures (e, d) in Last(h).cleanups && CleanupEvolves(CleanupAt(h, k, e, d).value, Last(h).cleanups[(e, d)])
  {
    assert TableEvolves(h[k], Last(h));
  }

  lemma RestartSeen(h: History, k: nat, key: (Epoch, Provenance))
    requires Reaches(h) && RestartAt(h, k, key).Some?
    ensures key in Last(h).restarts && RestartEvolves(RestartAt(h, k, key).value, Last(h).restarts[key])
  {
    assert TableEvolves(h[k], Last(h));
  }

  // ------------------------------------------------- one committed action

  lemma InitializeGood(h: History, op: Op, t': Table, c: seq<Epoch>)
    requires op.Initialize? && Reaches(h) && Good(Last(h), c) && NextInitialize(h, op) == Some(t')
    ensures Good(t', c + [op.init.epoch]) && TableEvolves(Last(h), t')
  {
    var seen := Both(DomainAt(h, op.at.mail, MailAction), DomainAt(h, op.at.report, ReportLink));
    if seen.mail.None? && seen.report.None? {
      FirstEpochStep(Last(h), op.init, t', c);
    } else {
      DomainsSeen(h, op.at);
      NextEpochStep(Last(h), op.init, Both(seen.mail.value, seen.report.value),
                    LedgerAt(h, op.atLedger, seen.mail.value.epoch), t', c);
    }
  }

  lemma AuthorizeGood(h: History, op: Op, t': Table, c: seq<Epoch>)
    requires op.Authorize? && Reaches(h) && Good(Last(h), c) && NextAuthorize(h, op) == Some(t')
    ensures Good(t', c) && TableEvolves(Last(h), t')
  {
    DomainsSeen(h, op.at);
    AuthorizeStep(Last(h), op.auth, DomainsAt(h, op.at).value, t', c);
  }

  lemma AbortGood(h: History, op: Op, t': Table, c: seq<Epoch>)
    requires op.Abort? && Good(Last(h), c) && NextAbort(h, op) == Some(t')
    ensures Good(t', c) && TableEvolves(Last(h), t')
  {
    var q := op.rec;
    AbortStep(Last(h), q, CleanupAt(h, op.atCleanup, q.control.epoch, q.domain).value,
              RestartAt(h, op.atRestart, RestartKey(q.control, CleanupMode)), DomainsAt(h, op.at).value, t', c);
  }

  lemma RebindGood(h: History, op: Op, t': Table, c: seq<Epoch>)
    requires op.Rebind? && Good(Last(h), c) && NextRebind(h, op) == Some(t')
    ensures Good(t', c) && TableEvolves(Last(h), t')
  {
    var q := op.rec;
    var cleanup := CleanupAt(h, op.atCleanup, q.control.epoch, q.domain).value;
    var restart := RestartAt(h, op.atRestart, RestartKey(q.control, CleanupMode));
    RebindStep(Last(h), q, cleanup, restart, ClassifyWorker(q.control, cleanup, restart).value, t', c);
  }

  lemma CompleteGood(h: History, op: Op, t': Table, c: seq<Epoch>)
    requires op.Complete? && Good(Last(h), c) && NextComplete(h, op) == Some(t')
    ensures Good(t', c) && TableEvolves(Last(h), t')
  {
    var q := op.done;
    CompleteStep(Last(h), q, CleanupAt(h, op.atCleanup, q.control.epoch, q.domain).value, DomainsAt(h, op.at).value, t', c);
  }

  lemma PreRestartGood(h: History, op: Op, t': Table, c: seq<Epoch>)
    requires op.PreRestart? && Reaches(h) && Good(Last(h), c) && NextPreRestart(h, op) == Some(t')
    ensures Good(t', c) && TableEvolves(Last(h), t')
  {
    var q := op.restart;
    LedgerSeen(h, op.atLedger, q.control.epoch);
    PreRestartStep(Last(h), q, RestartAt(h, op.atRestart, RestartKey(q.control, q.mode)), t', c);
  }

  lemma PostRestartGood(h: History, op: Op, t': Table, c: seq<Epoch>)
    requires op.PostRestart? && Reaches(h) && Good(Last(h), c) && NextPostRestart(h, op) == Some(t')
    ensures Good(t', c) && TableEvolves(Last(h), t')
  {
    var q := op.restart;
    RestartSeen(h, op.atRestart, RestartKey(q.control, q.mode));
    PostRestartStep(Last(h), q, RestartAt(h, op.atRestart, RestartKey(q.control, q.mode)).value, t', c);
  }

  lemma ReconcileRestartGood(h: History, op: Op, t': Table, c: seq<Epoch>)
    requires op.ReconcileRestart? && Good(Last(h), c) && NextReconcileRestart(h, op) == Some(t')
    ensures Good(t', c) && TableEvolves(Last(h), t')
  {
    var q := op.restart;
    ReconcileRestartStep(Last(h), q, RestartAt(h, op.atRestart, RestartKey(q.control, q.mode)).value, t', c);
  }

  lemma AdvanceGood(h: History, op: Op, t': Table, c: seq<Epoch>)
    requires op.Advance? && Good(Last(h), c) && NextAdvance(h, op) == Some(t')
    ensures Good(t', c) && TableEvolves(Last(h), t')
  {
    TransitionStep(Last(h), op.move, LedgerAt(h, op.atLedger, op.move.control.epoch).value, t', c);
  }

  lemma BindGood(h: History, op: Op, t': Table, c: seq<Epoch>)
    requires op.Bind? && Good(Last(h), c) && NextBind(h, op) == Some(t')
    ensures Good(t', c) && TableEvolves(Last(h), t')
  {
    var seen := HolderAt(h, op.atHolder, op.target).value;
    match op.target {
      case OnLedger(e) => BindLedgerStep(Last(h), e, op.binding, seen, t', c);
      case OnCleanup(e, d) => BindCleanupStep(Last(h), e, d, op.binding, seen, t', c);
    }
  }

  lemma CheckpointGood(h: History, op: Op, t': Table, c: seq<Epoch>)
    requires op.Checkpoint? && Reaches(h) && Good(Last(h), c) && NextCheckpoint(h, op) == Some(t')
    ensures Good(t', c) && TableEvolves(Last(h), t')
  {
    DomainSeen(h, op.atDomain, op.domain);
    CheckpointStep(Last(h), op.domain, op.expected, DomainAt(h, op.atDomain, op.domain).value, op.trustedNow, t', c);
  }

  lemma IntentWritten(t: Table, t': Table, c: seq<Epoch>)
    requires Good(t, c) && t' == t.(intents := t'.intents)
    ensures Good(t', c) && TableEvolves(t, t')
  {
    DomainsSame(t.domains);
    LedgersSame(t.ledgers);
    CleanupsSame(t.cleanups);
    RestartsSame(t.restarts);
  }

  predicate IsCleanupAction(op: Op) {
    op.Authorize? || op.Abort? || op.Rebind? || op.Complete?
  }

  lemma CleanupGood(h: History, op: Op, t': Table, c: seq<Epoch>)
    requires IsCleanupAction(op) && Reaches(h) && Good(Last(h), c) && Next(h, op) == Some(t')
    ensures Good(t', c) && TableEvolves(Last(h), t')
  {
    match op
    case Authorize(_, _, _, _, _) => AuthorizeGood(h, op, t', c);
    case Abort(_, _, _, _, _) => AbortGood(h, op, t', c);
    case Rebind(_, _, _, _, _) => RebindGood(h, op, t', c);
    case Complete(_, _, _, _, _) => CompleteGood(h, op, t', c);
  }

  predicate IsRestartAction(op: Op) {
    op.PreRestart? || op.PostRestart? || op.ReconcileRestart?
  }

  /** A restart action writes restart records only, a checkpoint domain records, an intent write intents. */
  lemma WritesElsewhere(h: History, op: Op, t': Table)
    requires IsRestartAction(op) || op.Checkpoint? || op.IntentWrite?
    requires Next(h, op) == Some(t')
    ensures t' == Last(h).(restarts := t'.restarts, domains := t'.domains, intents := t'.intents)
    ensures !op.Checkpoint? ==> t'.domains == Last(h).domains
  {
    match op
    case PreRestart(_, _, _, _, _) => assert NextPreRestart(h, op) == Some(t');
    case PostRestart(_, _, _, _) => assert NextPostRestart(h, op) == Some(t');
    case ReconcileRestart(_, _) => assert NextReconcileRestart(h, op) == Some(t');
    case Checkpoint(_, _, _, _) => assert NextCheckpoint(h, op) == Some(t');
    case IntentWrite(_, _) => assert NextIntentWrite(h, op) == Some(t');
  }

  lemma RestartActionIs(h: History, op: Op)
    requires IsRestartAction(op)
    ensures Next(h, op) == if op.PreRestart? then NextPreRestart(h, op)
                           else if op.PostRestart? then NextPostRestart(h, op) else NextReconcileRestart(h, op)
  {
  }

  lemma RestartActionGood(h: History, op: Op, t': Table, c: seq<Epoch>)
    requires IsRestartAction(op) && Reaches(h) && Good(Last(h), c) && Next(h, op) == Some(t')
    ensures Good(t', c) && TableEvolves(Last(h), t')
  {
    RestartActionIs(h, op);
    if op.PreRestart? {
      PreRestartGood(h, op, t', c);
    } else if op.PostRestart? {
      PostRestartGood(h, op, t', c);
    } else {
      ReconcileRestartGood(h, op, t', c);
    }
  }

  lemma LedgerActionGood(h: History, op: Op, t': Table, c: seq<Epoch>)
    requires (op.Advance? || op.Bind?) && Reaches(h) && Good(Last(h), c) && Next(h, op) == Some(t')
    ensures Good(t', c) && TableEvolves(Last(h), t')
  {
    if op.Advance? {
      AdvanceGood(h, op, t', c);
    } else {
      BindGood(h, op, t', c);
    }
  }

  lemma RuntimeActionGood(h: History, op: Op, t': Table, c: seq<Epoch>)
    requires (op.Checkpoint? || op.IntentWrite?) && Reaches(h) && Good(Last(h), c) && Next(h, op) == Some(t')
    ensures Good(t', c) && TableEvolves(Last(h), t')
  {
    if op.Checkpoint? {
      CheckpointGood(h, op, t', c);
    } else {
      IntentWritten(Last(h), t', c);
    }
  }

  lemma ActionGood(h: History, op: Op, t': Table, c: seq<Epoch>)
    requires !op.Initialize? && Reaches(h) && Good(Last(h), c) && Next(h, op) == Some(t')
    ensures Good(t', c) && TableEvolves(Last(h), t')
  {
    if IsCleanupAction(op) {
      CleanupGood(h, op, t', c);
    } else if IsRestartAction(op) {
      RestartActionGood(h, op, t', c);
    } else if op.Advance? || op.Bind? {
      LedgerActionGood(h, op, t', c);
    } else {
      RuntimeActionGood(h, op, t', c);
    }
  }

  /** One committed action, whatever it read and whenever it read it. */
  lemma StepGood(h: History, op: Op, t': Table, c: seq<Epoch>)
    requires Reaches(h) && Good(Last(h), c) && Next(h, op) == Some(t')
    ensures Good(t', EpochsAfter(c, op)) && TableEvolves(Last(h), t')
  {
    if op.Initialize? {
      InitializeGood(h, op, t', c);
    } else {
      ActionGood(h, op, t', c);
    }
  }

  lemma ReachesOn(h: History, t': Table)
    requires Reaches(h) && TableEvolves(Last(h), t')
    ensures Reaches(h + [t'])
  {
    DomainsSame(t'.domains);
    LedgersSame(t'.ledgers);
    CleanupsSame(t'.cleanups);
    RestartsSame(t'.restarts);
    forall k | 0 <= k < |h|
      ensures TableEvolves(h[k], t')
    {
      TableTransitive(h[k], Last(h), t');
    }
  }

  lemma EmptyGood()
    ensures Good(EMPTY_TABLE, []) && TableEvolves(EMPTY_TABLE, EMPTY_TABLE)
  {
  }

  lemma RunStep(h: History, op: Op, t': Table, c: seq<Epoch>, h': History, c': seq<Epoch>)
    requires Reaches(h) && Good(Last(h), c) && Next(h, op) == Some(t')
    requires h' == h + [t'] && c' == EpochsAfter(c, op)
    ensures Good(Last(h'), c') && Reaches(h')
  {
    StepGood(h, op, t', c);
    ReachesOn(h, t');
  }

  lemma RunSplit(h: seq<Table>, ops: seq<Op>, n: nat)
    requires Run(h, ops) && |ops| == n + 1
    ensures Run(h[..n + 1], ops[..n]) && Next(h[..n + 1], ops[n]) == Some(h[n + 1])
  {
    RunPrefix(h, ops, n);
    assert StepAt(h, ops, n);
  }

  lemma SplitLast<T>(s: seq<T>, n: nat)
    requires |s| == n + 2
    ensures s == s[..n + 1] + [s[n + 1]]
  {
  }

  /** Main invariant theorem: in every run, the last table is good and every earlier one evolved into it. */
  lemma {:induction false} RunGood(h: seq<Table>, ops: seq<Op>)
    requires Run(h, ops)
    ensures Good(Last(h), Epochs(ops)) && Reaches(h)
    decreases |ops|
  {
    if ops == [] {
      EmptyGood();
      assert Last(h) == EMPTY_TABLE;
    } else {
      var n := |ops| - 1;
      RunSplit(h, ops, n);
      SplitLast(h, n);
      RunGood(h[..n + 1], ops[..n]);
      RunStep(h[..n + 1], ops[n], h[n + 1], Epochs(ops[..n]), h, Epochs(ops));
    }
  }

  /** The state before action `j` of a run, as the lemmas about one action want it. */
  lemma Committed(h: seq<Table>, ops: seq<Op>, j: nat)
    requires Run(h, ops) && j < |ops|
    ensures Next(h[..j + 1], ops[j]) == Some(h[j + 1]) && Last(h[..j + 1]) == h[j] && Reaches(h[..j + 1])
  {
    RunPrefix(h, ops, j);
    RunGood(h[..j + 1], ops[..j]);
    assert StepAt(h, ops, j);
  }

  lemma StateGood(h: seq<Table>, ops: seq<Op>, i: nat)
    requires Run(h, ops) && i < |h|
    ensures Good(h[i], Epochs(ops[..i]))
  {
    RunPrefix(h, ops, i);
    RunGood(h[..i + 1], ops[..i]);
  }

  lemma StatesEvolve(h: seq<Table>, ops: seq<Op>, i: nat, j: nat)
    requires Run(h, ops) && i <= j < |h|
    ensures TableEvolves(h[i], h[j])
  {
    RunPrefix(h, ops, j);
    RunGood(h[..j + 1], ops[..j]);
    assert h[..j + 1][i] == h[i];
  }
}
