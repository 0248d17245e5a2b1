/** The chain of rotation epochs: how ledgers advance, which epochs can ever be followed by another,
    and how the generations of a domain hand over from one epoch to the next. */
module HmacEpochs {
  import opened Optional
  import opened HmacKeyring
  import opened HmacTable
  import opened HmacRun
  import opened HmacInvariant
  import opened HmacRunGood
  import opened HmacWindow
  import opened HmacAtomic
  import opened HmacCleanup

  // ---------------------------------------------------------------- ledgers

  /** A ledger stands still or makes one step of the stage order. */
  predicate OneStage(a: LedgerStage, b: LedgerStage) {
    b == a || Rank(b) == Rank(a) + 1
  }

  ghost predicate LedgersStep(a: map<Epoch, LedgerRecord>, b: map<Epoch, LedgerRecord>) {
    && (forall e <- a :: e in b && OneStage(a[e].stage, b[e].stage))
    && (forall e <- b :: e !in a ==> b[e].stage == Initialized)
  }

  lemma LedgersStand(h: History, op: Op, t': Table)
    requires !op.Initialize? && !op.Advance? && !op.Bind? && Next(h, op) == Some(t')
    ensures t'.ledgers == Last(h).ledgers
  {
    match op
    case Authorize(_, _, _, _, _) =>
      AuthorizeCommits(h, op, DomainsAt(h, op.at).value);
    case Abort(_, _, _, _, _) => assert NextAbort(h, op) == Some(t');
    case Rebind(_, _, _, _, _) => assert NextRebind(h, op) == Some(t');
    case Complete(_, _, _, _, _) => assert NextComplete(h, op) == Some(t');
    case _ => WritesElsewhere(h, op, t');
  }

  lemma LedgerOpens(h: History, op: Op, t': Table)
    requires op.Initialize? && NextInitialize(h, op) == Some(t')
    ensures LedgersStep(Last(h).ledgers, t'.ledgers)
  {
    InitializeOpens(h, op, t');
  }

  lemma LedgerAdvances(h: History, op: Op, t': Table)
    requires op.Advance? && NextAdvance(h, op) == Some(t')
    ensures LedgersStep(Last(h).ledgers, t'.ledgers)
  {
  }

  lemma LedgerBinds(h: History, op: Op, t': Table)
    requires op.Bind? && NextBind(h, op) == Some(t')
    ensures LedgersStep(Last(h).ledgers, t'.ledgers)
  {
  }

  lemma LedgersStepNow(h: History, op: Op, t': Table)
    requires Next(h, op) == Some(t')
    ensures LedgersStep(Last(h).ledgers, t'.ledgers)
  {
    if op.Initialize? {
      LedgerOpens(h, op, t');
    } else if op.Advance? {
      LedgerAdvances(h, op, t');
    } else if op.Bind? {
      LedgerBinds(h, op, t');
    } else {
      LedgersStand(h, op, t');
    }
  }

  /** Stages are never skipped and never revisited. */
  lemma StagesInOrder(h: seq<Table>, ops: seq<Op>, i: nat)
    requires Run(h, ops) && i < |ops|
    ensures LedgersStep(h[i].ledgers, h[i + 1].ledgers)
  {
    Committed(h, ops, i);
    LedgersStepNow(h[..i + 1], ops[i], h[i + 1]);
  }

  /** Following previous_rotation_epoch from `e`, at most `fuel` records. */
  function Ancestry(ledgers: map<Epoch, LedgerRecord>, e: Epoch, fuel: nat): seq<Epoch>
    decreases fuel
  {
    if fuel == 0 || e !in ledgers then []
    else if ledgers[e].previousEpoch.None? then [e]
    else [e] + Ancestry(ledgers, ledgers[e].previousEpoch.value, fuel - 1)
  }

  function Reversed<T>(s: seq<T>): seq<T> {
    if s == [] then [] else [s[|s| - 1]] + Reversed(s[..|s| - 1])
  }

  lemma {:induction false} AncestryOfChain(
    ledgers: map<Epoch, LedgerRecord>, histories: map<(Domain, Epoch), HistoryRecord>,
    retirements: map<(Domain, Epoch), RetirementRecord>, c: seq<Epoch>, k: nat, fuel: nat)
    requires EpochChain(ledgers, histories, retirements, c) && k < |c| && k < fuel
    ensures Ancestry(ledgers, c[k], fuel) == Reversed(c[..k + 1])
  {
    assert c[k] in ledgers;
    assert c[..k + 1][..k] == c[..k];
    if k > 0 {
      AncestryOfChain(ledgers, histories, retirements, c, k - 1, fuel - 1);
    } else {
      assert Reversed(c[..0]) == [];
    }
  }

  lemma EpochStateAt(h: seq<Table>, ops: seq<Op>, i: nat, c: seq<Epoch>)
    requires Run(h, ops) && i < |h| && c == Epochs(ops[..i]) && c != []
    ensures EpochChain(h[i].ledgers, h[i].histories, h[i].retirements, c)
    ensures Lockstep(h[i].domains, h[i].ledgers, c[|c| - 1])
  {
    StateGood(h, ops, i);
  }

  /** In every state the walk from the current epoch is exactly the initialized epochs, newest first:
      it ends, repeats nothing and misses no ledger; all but the first are closed in both domains. */
  lemma EpochWalk(h: seq<Table>, ops: seq<Op>, i: nat, fuel: nat)
    requires Run(h, ops) && i < |h| && Epochs(ops[..i]) != [] && fuel >= |Epochs(ops[..i])|
    ensures var c := Epochs(ops[..i]);
            && MailAction in h[i].domains
            && Ancestry(h[i].ledgers, h[i].domains[MailAction].epoch, fuel) == Reversed(c)
            && (forall a, b :: 0 <= a < b < |c| ==> c[a] != c[b])
            && (forall e :: e in h[i].ledgers <==> e in c)
            && (forall a :: 0 <= a < |c| - 1 ==>
                  h[i].ledgers[c[a]].stage == LedgerComplete && Recorded(h[i].histories, c[a]))
  {
    var c := Epochs(ops[..i]);
    EpochStateAt(h, ops, i, c);
    AncestryOfChain(h[i].ledgers, h[i].histories, h[i].retirements, c, |c| - 1, fuel);
    assert c[..|c|] == c;
  }

  // ---------------------------------------------------------------- retired generations

  lemma DomainGoodAt(h: seq<Table>, ops: seq<Op>, i: nat, d: Domain)
    requires Run(h, ops) && i < |h| && d in h[i].domains
    ensures WindowGood(d, h[i].domains[d])
  {
    StateGood(h, ops, i);
  }

  /** A generation once retired for a domain is never its primary in that state or any later one. */
  lemma RetiredNeverPrimary(h: seq<Table>, ops: seq<Op>, i: nat, j: nat, d: Domain, g: Generation)
    requires Run(h, ops) && i <= j < |h| && d in h[i].domains && g in h[i].domains[d].retiredGenerations
    ensures d in h[j].domains && g in h[j].domains[d].retiredGenerations && h[j].domains[d].primary != g
  {
    DomainNoAba(h, ops, i, j, d);
    StatesEvolve(h, ops, i, j);
    DomainGoodAt(h, ops, j, d);
  }

  /** A window that shows as retired while still present has run out by the durable clock. */
  lemma RetiredMeansExpired(h: seq<Table>, ops: seq<Op>, i: nat, d: Domain)
    requires Run(h, ops) && i < |h| && d in h[i].domains
    requires h[i].domains[d].previous.Some? && h[i].domains[d].previousRetired
    ensures var r := h[i].domains[d];
            && r.previous.value in r.retiredGenerations && r.t0.Some?
            && r.deadline == Some(r.t0.value + ROLLOUT_OVERLAP + MaxTtl(d)) && r.highWater >= r.deadline.value
  {
    DomainGoodAt(h, ops, i, d);
  }

  // ---------------------------------------------------------------- epochs without a successor

  lemma CleanupDecidesRetirement(h: seq<Table>, ops: seq<Op>, i: nat, d: Domain, e: Epoch)
    requires Run(h, ops) && i < |h|
    ensures (d, e) in h[i].retirements <==> (e, d) in h[i].cleanups && h[i].cleanups[(e, d)].stage == CleanupComplete
  {
    StateGood(h, ops, i);
  }

  /** Once the cleanup of a domain in the current epoch is aborted, that epoch stays current for ever:
      the aborted record blocks both a second authorization and the retirement the next epoch needs. */
  lemma AbortEndsTheChain(h: seq<Table>, ops: seq<Op>, i: nat, j: nat, e: Epoch, d: Domain)
    requires Run(h, ops) && i <= j < |h| && d in h[i].domains && h[i].domains[d].epoch == e
    requires (e, d) in h[i].cleanups && h[i].cleanups[(e, d)].stage == Aborted
    ensures d in h[j].domains && h[j].domains[d].epoch == e && (d, e) !in h[j].retirements
  {
    CleanupKept(h, ops, i, j, (e, d));
    CleanupDecidesRetirement(h, ops, j, d, e);
    NotRetiredStaysCurrent(h, ops, i, j, e, d);
  }

  /** An epoch is left only with retirement records for both domains. */
  lemma NotRetiredStaysCurrent(h: seq<Table>, ops: seq<Op>, i: nat, j: nat, e: Epoch, d: Domain)
    requires Run(h, ops) && i <= j < |h| && d in h[i].domains && h[i].domains[d].epoch == e
    requires (e, d) !in h[j].cleanups || h[j].cleanups[(e, d)].stage != CleanupComplete
    ensures d in h[j].domains && h[j].domains[d].epoch == e
  {
    DomainNoAba(h, ops, i, j, d);
    RecordNoAba(h, ops, i, j);
    KnownEpochs(h, ops, i);
    CleanupDecidesRetirement(h, ops, j, d, e);
    var c := Epochs(ops[..j]);
    StateHasEpochs(h, ops, j, d);
    EpochStateAt(h, ops, j, c);
    LeftEpochRecorded(h[j], c, e, d);
  }

  lemma StateHasEpochs(h: seq<Table>, ops: seq<Op>, j: nat, d: Domain)
    requires Run(h, ops) && j < |h| && d in h[j].domains
    ensures Epochs(ops[..j]) != []
  {
    StateGood(h, ops, j);
  }

  lemma LeftEpochRecorded(t: Table, c: seq<Epoch>, e: Epoch, d: Domain)
    requires c != [] && EpochChain(t.ledgers, t.histories, t.retirements, c)
    requires Lockstep(t.domains, t.ledgers, c[|c| - 1]) && e in t.ledgers
    ensures d in t.domains && (t.domains[d].epoch == e || (d, e) in t.retirements)
  {
    match d { case MailAction => case ReportLink => }
    assert e in c;
    var i :| 0 <= i < |c| && c[i] == e;
    if i < |c| - 1 {
      assert Recorded(t.retirements, c[i]);
    }
  }

  /** Without a window there is nothing to clean up. */
  lemma NoWindowNoCleanup(h: seq<Table>, ops: seq<Op>, i: nat, j: nat, d: Domain)
    requires Run(h, ops) && i <= j < |ops| && d in h[i].domains && h[i].domains[d].previous.None?
    requires ops[j].Authorize? && ops[j].auth.domain == d
    ensures ops[j].auth.control.epoch != h[i].domains[d].epoch
  {
    AuthorizeWrites(h, ops, j);
    StatesMove(h, ops, i, j);
    assert WindowMoves(h[i].domains[d], h[j].domains[d], h[i].ledgers.Keys);
  }

  // ---------------------------------------------------------------- expiry outlives every token

  /** A cutover check of epoch `e` reads domain `d` while its overlap is open. */
  predicate ChecksCutover(op: Op, e: Epoch, d: Domain) {
    op.Advance? && op.move.control.epoch == e && (op.move.target != ConnectWebPreloaded || d == ReportLink)
  }

  lemma CutoverWrites(h: seq<Table>, ops: seq<Op>, m: nat, e: Epoch, d: Domain)
    requires Run(h, ops) && m < |ops| && ChecksCutover(ops[m], e, d)
    ensures d in h[m].domains && h[m].domains[d].epoch == e
    ensures h[m].domains[d].t0.Some? ==> ops[m].move.cutoverAt < h[m].domains[d].t0.value + ROLLOUT_OVERLAP
  {
    Committed(h, ops, m);
    RunPrefix(h, ops, m);
    var before := h[..m + 1];
    EveryStateMovesHere(before, ops[..m]);
    AdvanceEpoch(before, ops[..m], ops[m], h[m + 1]);
    AdvanceAtomic(before, ops[m], h[m + 1]);
    CutoverReads(before, ops[m], h[m + 1], d);
  }

  lemma CutoverReads(h: History, op: Op, t': Table, d: Domain)
    requires op.Advance? && NextAdvance(h, Reread(op, |h| - 1)) == Some(t')
    requires ChecksCutover(op, op.move.control.epoch, d)
    ensures d in Last(h).domains && Last(h).domains[d].epoch == op.move.control.epoch
    ensures Last(h).domains[d].t0.Some? ==> op.move.cutoverAt < Last(h).domains[d].t0.value + ROLLOUT_OVERLAP
  {
    match d { case MailAction => case ReportLink => }
  }

  /** When a cleanup retires the previous key, every token a cut-over service could have signed with it
      before its cutover check, and that lives no longer than the domain's maximum, has expired. */
  lemma RetiredAfterLastToken(h: seq<Table>, ops: seq<Op>, m: nat, j: nat)
    requires Run(h, ops) && m < j < |ops| && ops[j].Complete?
    requires ChecksCutover(ops[m], ops[j].done.control.epoch, ops[j].done.domain)
    ensures ops[j].done.domain in h[j].domains
    ensures h[j].domains[ops[j].done.domain].highWater > ops[m].move.cutoverAt + MaxTtl(ops[j].done.domain)
  {
    var d, e := ops[j].done.domain, ops[j].done.control.epoch;
    CompleteWrites(h, ops, j);
    CutoverWrites(h, ops, m, e, d);
    StatesMove(h, ops, m, j);
    assert WindowMoves(h[m].domains[d], h[j].domains[d], h[m].ledgers.Keys);
    DomainGoodAt(h, ops, j, d);
  }
}
