/** Tables that some run leads to. An action extends such a run when all its reads are of the newest
    table; only the guard of a preparation may have been read before. */
module HmacReach {
  import opened Optional
  import opened HmacKeyring
  import opened HmacTable
  import opened HmacRun
  import opened HmacInvariant
  import opened HmacRunGood
  import opened HmacAtomic
  import opened HmacIssuers
  import opened HmacDeadlock

  /** A run that opens the epochs `c`, uses control files that passed the checks, and ends in `t`. */
  ghost predicate RunTo(h: seq<Table>, ops: seq<Op>, t: Table, c: seq<Epoch>) {
    Run(h, ops) && ControlsBound(ops) && h[|ops|] == t && Epochs(ops) == c
  }

  ghost predicate Reachable(t: Table, c: seq<Epoch>) {
    exists h, ops :: RunTo(h, ops, t, c)
  }

  lemma ReachEmpty()
    ensures Reachable(EMPTY_TABLE, [])
  {
    assert RunTo([EMPTY_TABLE], [], EMPTY_TABLE, []);
  }

  lemma ReachableGood(t: Table, c: seq<Epoch>)
    requires Reachable(t, c)
    ensures Good(t, c) && IssuersGood(t)
  {
    var h, ops :| RunTo(h, ops, t, c);
    assert ops[..|ops|] == ops;
    StateGood(h, ops, |ops|);
    IssuerSafety(h, ops, |ops|);
  }

  lemma ExtendRun(h: seq<Table>, ops: seq<Op>, t: Table, c: seq<Epoch>, op: Op, t': Table)
    requires RunTo(h, ops, t, c) && Next(h, op) == Some(t') && ControlBound(op)
    ensures RunTo(h + [t'], ops + [op], t', EpochsAfter(c, op))
  {
    RunExtends(h, ops, op, t');
    OneMore(ops, op);
  }

  lemma OneMore(ops: seq<Op>, op: Op)
    ensures Epochs(ops + [op]) == EpochsAfter(Epochs(ops), op)
    ensures ControlsBound(ops) && ControlBound(op) ==> ControlsBound(ops + [op])
  {
    assert (ops + [op])[..|ops|] == ops;
  }

  lemma Extend(h: seq<Table>, ops: seq<Op>, t: Table, c: seq<Epoch>, op: Op, t': Table)
    requires RunTo(h, ops, t, c) && Next(h, op) == Some(t') && ControlBound(op)
    ensures Reachable(t', EpochsAfter(c, op))
  {
    ExtendRun(h, ops, t, c, op, t');
    var h', ops', c' := h + [t'], ops + [op], EpochsAfter(c, op);
    assert RunTo(h', ops', t', c');
  }

  lemma ReachInitialize(t: Table, c: seq<Epoch>, q: InitializeRequest, prior: Option<LedgerRecord>, t': Table)
    requires Reachable(t, c)
    requires prior == if MailAction in t.domains then Find(t.ledgers, t.domains[MailAction].epoch) else None
    requires TryInitialize(t, q, Both(Find(t.domains, MailAction), Find(t.domains, ReportLink)), prior) == Some(t')
    ensures Reachable(t', c + [q.epoch])
  {
    var h, ops :| RunTo(h, ops, t, c);
    var op := Initialize(q, Both(|ops|, |ops|), |ops|);
    InitializesNow(h, op, t, q, prior);
    Extend(h, ops, t, c, op, t');
  }

  lemma InitializesNow(h: History, op: Op, t: Table, q: InitializeRequest, prior: Option<LedgerRecord>)
    requires Last(h) == t && op == Initialize(q, Both(|h| - 1, |h| - 1), |h| - 1)
    requires prior == if MailAction in t.domains then Find(t.ledgers, t.domains[MailAction].epoch) else None
    ensures Next(h, op) == TryInitialize(t, q, Both(Find(t.domains, MailAction), Find(t.domains, ReportLink)), prior)
  {
  }

  lemma ReachAdvance(t: Table, c: seq<Epoch>, q: TransitionRequest, mode: RestartMode, plan: string, attempt: string, t': Table)
    requires Reachable(t, c) && BindsEpoch(q.control) && q.control.epoch in t.ledgers
    requires MailAction in t.domains && ReportLink in t.domains
    requires TryTransition(t, q, t.ledgers[q.control.epoch], Domains(t), ProofNow(t, q, mode, plan, attempt)) == Some(t')
    ensures Reachable(t', c)
  {
    var h, ops :| RunTo(h, ops, t, c);
    var n := |ops|;
    var op := Advance(q, n, Both(n, n), mode, plan, attempt, n, n);
    AdvancesNow(h, op, t, q, mode, plan, attempt);
    Extend(h, ops, t, c, op, t');
  }

  function ProofNow(t: Table, q: TransitionRequest, mode: RestartMode, plan: string, attempt: string): Option<RestartProof>
    requires q.control.epoch in t.ledgers
  {
    var r := Find(t.restarts, RestartKey(q.control, mode));
    if r.Some? then Some(RestartProof(mode, plan, attempt, t.ledgers[q.control.epoch], r.value)) else None
  }

  lemma AdvancesNow(
    h: History, op: Op, t: Table, q: TransitionRequest, mode: RestartMode, plan: string, attempt: string)
    requires Last(h) == t && q.control.epoch in t.ledgers && MailAction in t.domains && ReportLink in t.domains
    requires op == Advance(q, |h| - 1, Both(|h| - 1, |h| - 1), mode, plan, attempt, |h| - 1, |h| - 1)
    ensures Next(h, op) == TryTransition(t, q, t.ledgers[q.control.epoch], Domains(t), ProofNow(t, q, mode, plan, attempt))
  {
    DomainsNow(h);
    assert RestartProofAt(h, op) == ProofNow(t, q, mode, plan, attempt);
  }

  /** The guard and the manifest check of a preparation, asked of tables. */
  ghost predicate MayPrepare(guard: Table, t: Table, q: AuthorizeRequest) {
    && q.control.epoch in guard.ledgers && guard.ledgers[q.control.epoch].stage == LedgerComplete
    && (forall d :: (q.control.epoch, d) in guard.cleanups ==> guard.cleanups[(q.control.epoch, d)].stage != Authorized)
    && Other(q.domain) in t.domains && CleanupManifestAccepted(q, t.domains[Other(q.domain)])
  }

  lemma AuthorizesNow(h: History, op: Op, k: nat, t: Table, q: AuthorizeRequest, t': Table)
    requires Last(h) == t && k < |h| && MayPrepare(h[k], t, q) && MailAction in t.domains && ReportLink in t.domains
    requires op == Authorize(q, k, Both(k, k), |h| - 1, Both(|h| - 1, |h| - 1))
    requires TryAuthorize(t, q, Domains(t)) == Some(t')
    ensures Next(h, op) == Some(t')
  {
    DomainsNow(h);
    GuardNowPasses(h, k, q);
    ManifestNowPasses(h, t, q);
    AuthorizeCommits(h, op, Domains(t));
  }

  lemma GuardNowPasses(h: History, k: nat, q: AuthorizeRequest)
    requires k < |h| && MayPrepare(h[k], Last(h), q)
    ensures GuardPassed(h, q, k, Both(k, k))
  {
  }

  lemma ManifestNowPasses(h: History, t: Table, q: AuthorizeRequest)
    requires Last(h) == t && Other(q.domain) in t.domains && CleanupManifestAccepted(q, t.domains[Other(q.domain)])
    ensures ManifestPassed(h, q, |h| - 1)
  {
  }

  lemma ReachAuthorize(t: Table, c: seq<Epoch>, q: AuthorizeRequest, t': Table)
    requires Reachable(t, c) && MayPrepare(t, t, q) && BindsEpoch(q.control)
    requires MailAction in t.domains && ReportLink in t.domains
    requires TryAuthorize(t, q, Domains(t)) == Some(t')
    ensures Reachable(t', c)
  {
    var h, ops :| RunTo(h, ops, t, c);
    var n := |ops|;
    var op := Authorize(q, n, Both(n, n), n, Both(n, n));
    AuthorizesNow(h, op, n, t, q, t');
    Extend(h, ops, t, c, op, t');
  }

  lemma ReachAbort(t: Table, c: seq<Epoch>, q: ReconcileRequest, t': Table)
    requires Reachable(t, c) && MailAction in t.domains && ReportLink in t.domains
    requires (q.control.epoch, q.domain) in t.cleanups
    requires var r := t.cleanups[(q.control.epoch, q.domain)];
             TryAbort(t, q, r, Find(t.restarts, RestartKey(q.control, CleanupMode)), Find(t.intents, r.intent), Domains(t))
             == Some(t')
    ensures Reachable(t', c)
  {
    var h, ops :| RunTo(h, ops, t, c);
    var n := |ops|;
    var op := Abort(q, n, n, n, Both(n, n));
    AbortsNow(h, op, t, q);
    Extend(h, ops, t, c, op, t');
  }

  lemma AbortsNow(h: History, op: Op, t: Table, q: ReconcileRequest)
    requires Last(h) == t && op == Abort(q, |h| - 1, |h| - 1, |h| - 1, Both(|h| - 1, |h| - 1))
    requires MailAction in t.domains && ReportLink in t.domains && (q.control.epoch, q.domain) in t.cleanups
    ensures var r := t.cleanups[(q.control.epoch, q.domain)];
            Next(h, op) == TryAbort(t, q, r, Find(t.restarts, RestartKey(q.control, CleanupMode)),
                                    Find(t.intents, r.intent), Domains(t))
  {
    DomainsNow(h);
  }

  lemma ReachIntent(t: Table, c: seq<Epoch>, id: string, r: IntentRecord)
    requires Reachable(t, c)
    ensures Reachable(t.(intents := t.intents[id := r]), c)
  {
    var h, ops :| RunTo(h, ops, t, c);
    Extend(h, ops, t, c, IntentWrite(id, r), t.(intents := t.intents[id := r]));
  }

  lemma ReachComplete(t: Table, c: seq<Epoch>, q: CompleteRequest, t': Table)
    requires Reachable(t, c) && MailAction in t.domains && ReportLink in t.domains
    requires q.control.epoch in t.ledgers && (q.control.epoch, q.domain) in t.cleanups
    requires RestartKey(q.control, q.restartMode) in t.restarts
    requires TryComplete(t, q, t.ledgers[q.control.epoch], t.cleanups[(q.control.epoch, q.domain)],
                         t.restarts[RestartKey(q.control, q.restartMode)], Domains(t)) == Some(t')
    ensures Reachable(t', c)
  {
    var h, ops :| RunTo(h, ops, t, c);
    var n := |ops|;
    var op := Complete(q, n, n, n, Both(n, n));
    CompletesNow(h, op, t, q);
    Extend(h, ops, t, c, op, t');
  }

  lemma CompletesNow(h: History, op: Op, t: Table, q: CompleteRequest)
    requires Last(h) == t && op == Complete(q, |h| - 1, |h| - 1, |h| - 1, Both(|h| - 1, |h| - 1))
    requires MailAction in t.domains && ReportLink in t.domains
    requires q.control.epoch in t.ledgers && (q.control.epoch, q.domain) in t.cleanups
    requires RestartKey(q.control, q.restartMode) in t.restarts
    ensures Next(h, op) == TryComplete(t, q, t.ledgers[q.control.epoch], t.cleanups[(q.control.epoch, q.domain)],
                                       t.restarts[RestartKey(q.control, q.restartMode)], Domains(t))
  {
    DomainsNow(h);
    var e, k, n := q.control.epoch, RestartKey(q.control, q.restartMode), |h| - 1;
    assert LedgerAt(h, n, e) == Some(t.ledgers[e]) && RestartAt(h, n, k) == Some(t.restarts[k]);
    assert CleanupAt(h, n, e, q.domain) == Some(t.cleanups[(e, q.domain)]);
  }

  lemma ReachBind(t: Table, c: seq<Epoch>, x: Target, b: Binding, t': Table)
    requires Reachable(t, c) && Holder(t, x).Some?
    requires TryBind(t, x, b, Holder(t, x).value, Holder(t, x).value) == Some(t')
    ensures Reachable(t', c)
  {
    var h, ops :| RunTo(h, ops, t, c);
    Extend(h, ops, t, c, Bind(x, b, |ops|, |ops|), t');
  }

  function ActiveNow(t: Table, e: Epoch): Both<Option<CleanupRecord>> {
    Both(Find(t.cleanups, (e, MailAction)), Find(t.cleanups, (e, ReportLink)))
  }

  lemma ReachPreRestart(t: Table, c: seq<Epoch>, q: RestartRequest, b: Bindings, t': Table)
    requires Reachable(t, c) && q.control.epoch in t.ledgers
    requires Holder(t, IntentHolder(q.control.epoch, ActiveNow(t, q.control.epoch))).Some?
    requires b == Holder(t, IntentHolder(q.control.epoch, ActiveNow(t, q.control.epoch))).value.bound
    requires TryPreRestart(t, q, t.ledgers[q.control.epoch], ActiveNow(t, q.control.epoch), b,
                           Find(t.restarts, RestartKey(q.control, q.mode))) == Some(t')
    ensures Reachable(t', c)
  {
    var h, ops :| RunTo(h, ops, t, c);
    var n := |ops|;
    var op := PreRestart(q, n, Both(n, n), n, n);
    RequestsNow(h, op, t, q, b);
    Extend(h, ops, t, c, op, t');
  }

  lemma RequestsNow(h: History, op: Op, t: Table, q: RestartRequest, b: Bindings)
    requires Last(h) == t && op == PreRestart(q, |h| - 1, Both(|h| - 1, |h| - 1), |h| - 1, |h| - 1)
    requires q.control.epoch in t.ledgers
    requires Holder(t, IntentHolder(q.control.epoch, ActiveNow(t, q.control.epoch))).Some?
    requires b == Holder(t, IntentHolder(q.control.epoch, ActiveNow(t, q.control.epoch))).value.bound
    ensures Next(h, op) == TryPreRestart(t, q, t.ledgers[q.control.epoch], ActiveNow(t, q.control.epoch), b,
                                         Find(t.restarts, RestartKey(q.control, q.mode)))
  {
    assert ActiveAt(h, op.atGuards, q.control.epoch) == ActiveNow(t, q.control.epoch);
  }

  lemma ReachPostRestart(t: Table, c: seq<Epoch>, q: RestartRequest, b: Bindings, t': Table)
    requires Reachable(t, c) && RestartKey(q.control, q.mode) in t.restarts
    requires Holder(t, IntentHolder(q.control.epoch, ActiveNow(t, q.control.epoch))).Some?
    requires b == Holder(t, IntentHolder(q.control.epoch, ActiveNow(t, q.control.epoch))).value.bound
    requires TryPostRestart(t, q, ActiveNow(t, q.control.epoch), b, t.restarts[RestartKey(q.control, q.mode)]) == Some(t')
    ensures Reachable(t', c)
  {
    var h, ops :| RunTo(h, ops, t, c);
    var n := |ops|;
    var op := PostRestart(q, Both(n, n), n, n);
    FinishesNow(h, op, t, q, b);
    Extend(h, ops, t, c, op, t');
  }

  lemma FinishesNow(h: History, op: Op, t: Table, q: RestartRequest, b: Bindings)
    requires Last(h) == t && op == PostRestart(q, Both(|h| - 1, |h| - 1), |h| - 1, |h| - 1)
    requires RestartKey(q.control, q.mode) in t.restarts
    requires Holder(t, IntentHolder(q.control.epoch, ActiveNow(t, q.control.epoch))).Some?
    requires b == Holder(t, IntentHolder(q.control.epoch, ActiveNow(t, q.control.epoch))).value.bound
    ensures Next(h, op) == TryPostRestart(t, q, ActiveNow(t, q.control.epoch), b, t.restarts[RestartKey(q.control, q.mode)])
  {
    assert ActiveAt(h, op.atGuards, q.control.epoch) == ActiveNow(t, q.control.epoch);
  }
}
