/** What the race of two preparations costs. Two cleanups of one epoch that are authorized at the same
    time each displace issuers the other one asks for when it ends: after one of them completes, the
    other can neither complete nor abort, so the epoch is never left. */
module HmacDeadlock {
  import opened Optional
  import opened HmacKeyring
  import opened HmacTable
  import opened HmacRun
  import opened HmacInvariant
  import opened HmacRunGood
  import opened HmacWindow
  import opened HmacAtomic
  import opened HmacCleanup
  import opened HmacEpochs
  import opened HmacIssuers
  import opened HmacGuard

  /** The issuers a domain must have when the cleanup completes or aborts. */
  function Awaited(c: CleanupRecord, d: Domain): set<Provenance> {
    c.baselineIssuers.At(d) + c.newIssuers.At(d)
  }

  /** Completing `c` retires, in domain `d`, something the other cleanup waits for. */
  ghost predicate Crosses(c: CleanupRecord, d: Domain, other: CleanupRecord) {
    c.oldIssuers.At(d) != {} && c.oldIssuers.At(d) <= Awaited(other, d)
  }

  ghost predicate IssuersAre(t: Table, c: CleanupRecord) {
    forall d <- t.domains :: t.domains[d].issuers == Awaited(c, d)
  }

  /** An authorized cleanup finds the issuers it waits for until the other domain's is authorized too;
      from then on the two cross each other. */
  ghost predicate Fits(t: Table, e: Epoch, a: Domain) {
    AuthorizedIn(t, e, a) ==>
      && t.cleanups[(e, a)].oldIssuers.At(a) != {}
      && ((e, Other(a)) !in t.cleanups ==> IssuersAre(t, t.cleanups[(e, a)]))
      && (AuthorizedIn(t, e, Other(a)) ==> Crosses(t.cleanups[(e, a)], a, t.cleanups[(e, Other(a))]))
  }

  ghost predicate Entangled(t: Table) {
    forall e, a :: Fits(t, e, a)
  }

  // ---------------------------------------------------------------- what each action does to it

  lemma AuthorizedBefore(t: Table, e: Epoch, a: Domain, f: Epoch)
    requires MarksGood(t.domains, t.cleanups) && AuthorizedIn(t, e, a)
    requires forall d <- t.domains :: t.domains[d].epoch == f
    ensures e == f
  {
  }

  lemma NewRecordCrosses(q: AuthorizeRequest, t: Table, c: CleanupRecord, other: CleanupRecord)
    requires BothDomains(t) && AuthorizeChecks(q, Domains(t)) && c == AuthorizedCleanup(q, Domains(t))
    requires IssuersAre(t, other) && IssuersSplit(other) && other.oldIssuers.At(Other(q.domain)) != {}
    ensures Crosses(c, q.domain, other) && Crosses(other, Other(q.domain), c)
  {
    var o := Other(q.domain);
    assert t.domains[q.domain].issuers == Awaited(other, q.domain);
    assert t.domains[o].issuers == Awaited(other, o);
  }

  lemma NewRecordFits(q: AuthorizeRequest, t: Table, t': Table)
    requires AuthorizeWrote(q, t, t') && t'.domains.Keys == t.domains.Keys
    ensures t'.cleanups[AuthorizeKey(q)].oldIssuers.At(q.domain) != {}
    ensures IssuersAre(t', t'.cleanups[AuthorizeKey(q)])
  {
    forall d <- t'.domains
      ensures t'.domains[d].issuers == Awaited(t'.cleanups[AuthorizeKey(q)], d)
    {
      match d { case MailAction => case ReportLink => }
    }
  }

  lemma AuthorizeFits(q: AuthorizeRequest, t: Table, t': Table, e: Epoch, a: Domain)
    requires AuthorizeWrote(q, t, t') && t'.domains.Keys == t.domains.Keys && Entangled(t)
    requires MarksGood(t.domains, t.cleanups) && CleanupRecordsGood(t.cleanups)
    requires t'.cleanups == t.cleanups[AuthorizeKey(q) := t'.cleanups[AuthorizeKey(q)]]
    ensures Fits(t', e, a)
  {
    var k := AuthorizeKey(q);
    NewRecordFits(q, t, t');
    if AuthorizedIn(t', e, a) {
      if (e, a) == k {
        assert Fits(t, e, Other(a));
        if AuthorizedIn(t', e, Other(a)) {
          NewRecordCrosses(q, t, t'.cleanups[k], t.cleanups[(e, Other(a))]);
        }
      } else {
        assert Fits(t, e, a);
        assert forall d <- t.domains :: t.domains[d].epoch == q.control.epoch by {
          BothInEpoch(q, t, t');
        }
        AuthorizedBefore(t, e, a, q.control.epoch);
        assert (e, Other(a)) == k;
        NewRecordCrosses(q, t, t'.cleanups[k], t.cleanups[(e, a)]);
      }
    }
  }

  lemma BothInEpoch(q: AuthorizeRequest, t: Table, t': Table)
    requires AuthorizeWrote(q, t, t')
    ensures forall d <- t.domains :: t.domains[d].epoch == q.control.epoch
  {
    forall d <- t.domains
      ensures t.domains[d].epoch == q.control.epoch
    {
      match d { case MailAction => case ReportLink => }
    }
  }

  lemma AuthorizeEntangles(h: seq<Table>, ops: seq<Op>, m: nat)
    requires Run(h, ops) && m < |ops| && ops[m].Authorize? && Entangled(h[m])
    ensures Entangled(h[m + 1])
  {
    var q, t, t', seen := ops[m].auth, h[m], h[m + 1], DomainsAt(h[..m + 1], ops[m].at);
    Committed(h, ops, m);
    StateGood(h, ops, m);
    AuthorizeWrites(h, ops, m);
    AuthorizeCommits(h[..m + 1], ops[m], seen.value);
    AuthorizePuts(t, q, seen.value, t');
    AuthorizeKeepsDomains(t, q, seen.value, t');
    forall e, a
      ensures Fits(t', e, a)
    {
      AuthorizeFits(q, t, t', e, a);
    }
  }

  lemma AuthorizeKeepsDomains(t: Table, q: AuthorizeRequest, seen: Both<DomainRecord>, t': Table)
    requires TryAuthorize(t, q, seen) == Some(t')
    ensures t'.domains.Keys == t.domains.Keys
  {
  }

  /** Where no cleanup is authorized there is nothing to entangle. */
  ghost predicate NoneAuthorized(t: Table) {
    forall e, a :: !AuthorizedIn(t, e, a)
  }

  lemma NoneEntangled(t: Table)
    requires NoneAuthorized(t)
    ensures Entangled(t)
  {
  }

  /** Records only ever move on, and where the issuers matter they stand still. */
  lemma EntanglementKept(t: Table, t': Table)
    requires Entangled(t) && CleanupsEvolve(t.cleanups, t'.cleanups) && t'.domains.Keys == t.domains.Keys
    requires forall e, a :: AuthorizedIn(t', e, a) ==> AuthorizedIn(t, e, a)
    requires forall e, a, d :: AuthorizedIn(t', e, a) && (e, Other(a)) !in t'.cleanups && d in t'.domains ==>
               t'.domains[d].issuers == t.domains[d].issuers
    ensures Entangled(t')
  {
    forall e, a
      ensures Fits(t', e, a)
    {
      if AuthorizedIn(t', e, a) {
        assert Fits(t, e, a);
        assert CleanupEvolves(t.cleanups[(e, a)], t'.cleanups[(e, a)]);
        if AuthorizedIn(t', e, Other(a)) {
          assert AuthorizedIn(t, e, Other(a));
          assert CleanupEvolves(t.cleanups[(e, Other(a))], t'.cleanups[(e, Other(a))]);
        }
      }
    }
  }

  /** The epoch's stages move, and its successor opens, only while no cleanup is authorized. */
  lemma BeforeTheEnd(t: Table, f: Epoch)
    requires BothDomains(t) && t.domains[MailAction].epoch == f && t.domains[ReportLink].epoch == f
    requires f in t.ledgers && t.ledgers[f].stage != LedgerComplete
    requires MarksGood(t.domains, t.cleanups) && CleanupsLate(t.cleanups, t.ledgers)
    ensures NoneAuthorized(t)
  {
    forall e, a
      ensures !AuthorizedIn(t, e, a)
    {
      match a { case MailAction => case ReportLink => }
      assert t.domains[a].epoch == f;
      assert AuthorizedIn(t, e, a) ==> e == f;
    }
  }

  lemma AdvanceNone(h: History, op: Op, t': Table)
    requires op.Advance? && NextAdvance(h, op) == Some(t')
    requires MarksGood(Last(h).domains, Last(h).cleanups) && CleanupsLate(Last(h).cleanups, Last(h).ledgers)
    ensures NoneAuthorized(t')
  {
    BeforeTheEnd(Last(h), op.move.control.epoch);
    assert t'.cleanups == Last(h).cleanups;
    forall e, a
      ensures !AuthorizedIn(t', e, a)
    {
      assert !AuthorizedIn(Last(h), e, a);
    }
  }

  lemma OpensNone(t: Table, q: InitializeRequest, t': Table)
    requires Opens(t, q, t') && MarksGood(t.domains, t.cleanups) && WindowsGood(t.domains)
    ensures NoneAuthorized(t')
  {
    forall e, a
      ensures !AuthorizedIn(t', e, a)
    {
      match a { case MailAction => case ReportLink => }
    }
  }

  lemma StageEntangles(h: seq<Table>, ops: seq<Op>, m: nat)
    requires Run(h, ops) && m < |ops| && (ops[m].Advance? || ops[m].Initialize?)
    ensures Entangled(h[m + 1])
  {
    Committed(h, ops, m);
    MarksAt(h, ops, m);
    StageNone(h[..m + 1], ops[m], h[m + 1]);
    NoneEntangled(h[m + 1]);
  }

  lemma StageNone(h: History, op: Op, t': Table)
    requires (op.Advance? || op.Initialize?) && Next(h, op) == Some(t')
    requires MarksGood(Last(h).domains, Last(h).cleanups) && CleanupsLate(Last(h).cleanups, Last(h).ledgers)
    requires WindowsGood(Last(h).domains)
    ensures NoneAuthorized(t')
  {
    if op.Initialize? {
      InitializeOpens(h, op, t');
      OpensNone(Last(h), op.init, t');
    } else {
      AdvanceNone(h, op, t');
    }
  }

  lemma MarksAt(h: seq<Table>, ops: seq<Op>, m: nat)
    requires Run(h, ops) && m < |h|
    ensures MarksGood(h[m].domains, h[m].cleanups) && CleanupsLate(h[m].cleanups, h[m].ledgers)
    ensures WindowsGood(h[m].domains)
  {
    StateGood(h, ops, m);
  }

  /** The action ends the cleanup of `d` in epoch `e`. */
  predicate Ends(op: Op, e: Epoch, d: Domain) {
    || (op.Complete? && op.done.control.epoch == e && op.done.domain == d)
    || (op.Abort? && op.rec.control.epoch == e && op.rec.domain == d)
  }

  /** The table before and after a cleanup ended, as far as the other one is concerned. */
  ghost predicate Ended(t: Table, t': Table, e: Epoch, d: Domain) {
    && BothDomains(t) && AuthorizedIn(t, e, d) && (e, d) in t'.cleanups && t'.cleanups[(e, d)].stage != Authorized
    && t'.domains.Keys == t.domains.Keys
    && forall x <- t.domains :: t.domains[x].issuers == t.cleanups[(e, d)].oldIssuers.At(x) + t.cleanups[(e, d)].newIssuers.At(x)
                                || t.domains[x].issuers == Awaited(t.cleanups[(e, d)], x)
  }

  lemma CompleteEnded(q: CompleteRequest, t: Table, t': Table)
    requires CompleteWrote(q, t, t')
    ensures Ended(t, t', q.control.epoch, q.domain)
  {
    forall x <- t.domains
      ensures t.domains[x].issuers == t.cleanups[(q.control.epoch, q.domain)].oldIssuers.At(x)
                                      + t.cleanups[(q.control.epoch, q.domain)].newIssuers.At(x)
    {
      match x { case MailAction => case ReportLink => }
    }
  }

  lemma AbortEnded(q: ReconcileRequest, t: Table, t': Table)
    requires AbortWrote(q, t, t')
    ensures Ended(t, t', q.control.epoch, q.domain)
  {
    forall x <- t.domains
      ensures t.domains[x].issuers == Awaited(t.cleanups[(q.control.epoch, q.domain)], x)
    {
      match x { case MailAction => case ReportLink => }
    }
  }

  lemma EndWrites(h: seq<Table>, ops: seq<Op>, m: nat, e: Epoch, d: Domain)
    requires Run(h, ops) && m < |ops| && Ends(ops[m], e, d)
    ensures Ended(h[m], h[m + 1], e, d)
  {
    if ops[m].Complete? {
      CompleteWrites(h, ops, m);
      CompleteEnded(ops[m].done, h[m], h[m + 1]);
    } else {
      AbortWrites(h, ops, m);
      AbortEnded(ops[m].rec, h[m], h[m + 1]);
    }
  }

  lemma AuthorizedKept(h: seq<Table>, ops: seq<Op>, m: nat, e: Epoch, a: Domain)
    requires Run(h, ops) && m < |ops| && !ops[m].Authorize? && AuthorizedIn(h[m + 1], e, a)
    ensures AuthorizedIn(h[m], e, a)
  {
    Committed(h, ops, m);
    NoneAdded(h[..m + 1], ops[m], h[m + 1], e, a);
  }

  /** An authorized cleanup belongs to the epoch both domains are in. */
  lemma AuthorizedCurrent(h: seq<Table>, ops: seq<Op>, m: nat, e: Epoch, a: Domain)
    requires Run(h, ops) && m < |h| && AuthorizedIn(h[m], e, a)
    ensures BothDomains(h[m]) && h[m].domains[MailAction].epoch == e && h[m].domains[ReportLink].epoch == e
  {
    StateGood(h, ops, m);
    assert h[m].domains[a].epoch == e;
  }

  lemma EndEntangles(h: seq<Table>, ops: seq<Op>, m: nat, e: Epoch, d: Domain)
    requires Run(h, ops) && m < |ops| && Ends(ops[m], e, d) && Entangled(h[m])
    ensures Entangled(h[m + 1])
  {
    var t, t' := h[m], h[m + 1];
    EndWrites(h, ops, m, e, d);
    AuthorizedCurrent(h, ops, m, e, d);
    StatesEvolve(h, ops, m, m + 1);
    forall f, a | AuthorizedIn(t', f, a)
      ensures AuthorizedIn(t, f, a) && (f, Other(a)) in t'.cleanups
    {
      AuthorizedKept(h, ops, m, f, a);
      AuthorizedCurrent(h, ops, m, f, a);
      assert a != d;
    }
    EntanglementKept(t, t');
  }

  lemma IssuersStand(h: History, op: Op, t': Table)
    requires op.Checkpoint? || !TouchesDomains(op)
    requires Next(h, op) == Some(t')
    ensures t'.domains.Keys == Last(h).domains.Keys
    ensures forall d <- t'.domains :: t'.domains[d].issuers == Last(h).domains[d].issuers
  {
    if op.Checkpoint? {
      assert NextCheckpoint(h, op) == Some(t');
    } else {
      DomainsUntouched(h, op, t');
    }
  }

  lemma OtherEntangles(h: seq<Table>, ops: seq<Op>, m: nat)
    requires Run(h, ops) && m < |ops| && (ops[m].Checkpoint? || !TouchesDomains(ops[m])) && Entangled(h[m])
    ensures Entangled(h[m + 1])
  {
    Committed(h, ops, m);
    IssuersStand(h[..m + 1], ops[m], h[m + 1]);
    StatesEvolve(h, ops, m, m + 1);
    forall e, a | AuthorizedIn(h[m + 1], e, a)
      ensures AuthorizedIn(h[m], e, a)
    {
      AuthorizedKept(h, ops, m, e, a);
    }
    EntanglementKept(h[m], h[m + 1]);
  }

  lemma {:induction false} EntangledAlways(h: seq<Table>, ops: seq<Op>, i: nat)
    requires Run(h, ops) && i < |h|
    ensures Entangled(h[i])
    decreases i
  {
    if i > 0 {
      var m := i - 1;
      EntangledAlways(h, ops, m);
      if ops[m].Authorize? {
        AuthorizeEntangles(h, ops, m);
      } else if ops[m].Advance? || ops[m].Initialize? {
        StageEntangles(h, ops, m);
      } else if ops[m].Complete? {
        EndEntangles(h, ops, m, ops[m].done.control.epoch, ops[m].done.domain);
      } else if ops[m].Abort? {
        EndEntangles(h, ops, m, ops[m].rec.control.epoch, ops[m].rec.domain);
      } else {
        OtherEntangles(h, ops, m);
      }
    } else {
      NoneEntangled(h[0]);
    }
  }

  // ---------------------------------------------------------------- the other cleanup is stuck

  /** An authorized cleanup waits for an issuer that is retired already. */
  ghost predicate Stuck(t: Table, e: Epoch, a: Domain) {
    AuthorizedIn(t, e, a)
    && exists d <- t.domains, p: Provenance :: p in t.domains[d].retiredProvenances && p in Awaited(t.cleanups[(e, a)], d)
  }

  lemma RetiredByCompletion(q: CompleteRequest, t: Table, t': Table, d: Domain)
    requires CompleteWrote(q, t, t')
    ensures d in t'.domains
    ensures t.cleanups[(q.control.epoch, q.domain)].oldIssuers.At(d) <= t'.domains[d].retiredProvenances
  {
    match d { case MailAction => case ReportLink => }
  }

  /** A cleanup that completes beside an authorized one leaves it stuck. */
  lemma CompletionSticks(h: seq<Table>, ops: seq<Op>, m: nat, e: Epoch, d: Domain)
    requires Run(h, ops) && m < |ops| && ops[m].Complete? && Ends(ops[m], e, d) && AuthorizedIn(h[m], e, Other(d))
    ensures Stuck(h[m + 1], e, Other(d))
  {
    var t, t' := h[m], h[m + 1];
    EntangledAlways(h, ops, m);
    CompleteWrites(h, ops, m);
    RetiredByCompletion(ops[m].done, t, t', d);
    StatesEvolve(h, ops, m, m + 1);
    assert Fits(t, e, d);
    var p :| p in t.cleanups[(e, d)].oldIssuers.At(d);
    assert CleanupEvolves(t.cleanups[(e, Other(d))], t'.cleanups[(e, Other(d))]);
    assert t'.cleanups[(e, Other(d))].stage == Authorized;
    assert p in t'.domains[d].retiredProvenances && p in Awaited(t'.cleanups[(e, Other(d))], d);
  }

  lemma StuckStays(t: Table, t': Table, e: Epoch, a: Domain)
    requires Stuck(t, e, a) && AuthorizedIn(t', e, a)
    requires CleanupsEvolve(t.cleanups, t'.cleanups) && DomainsEvolve(t.domains, t'.domains)
    ensures Stuck(t', e, a)
  {
    var d, p :| d in t.domains && p in t.domains[d].retiredProvenances && p in Awaited(t.cleanups[(e, a)], d);
    assert DomainEvolves(t.domains[d], t'.domains[d]);
    assert CleanupEvolves(t.cleanups[(e, a)], t'.cleanups[(e, a)]);
    assert p in t'.domains[d].retiredProvenances && p in Awaited(t'.cleanups[(e, a)], d);
  }

  lemma StuckNotEnded(t: Table, t': Table, e: Epoch, a: Domain)
    requires Stuck(t, e, a) && IssuersGood(t) && CleanupRecordsGood(t.cleanups)
    ensures !Ended(t, t', e, a)
  {
    var d, p :| d in t.domains && p in t.domains[d].retiredProvenances && p in Awaited(t.cleanups[(e, a)], d);
    var c := t.cleanups[(e, a)];
    assert IssuerGood(t.domains[d], t.ledgers.Keys);
    assert CleanupRecordGood(c);
    assert c.oldIssuers.At(d) + c.newIssuers.At(d) == Awaited(c, d);
  }

  /** Only its own completion or abort takes a cleanup out of the authorized stage. */
  lemma EndedByAction(h: History, op: Op, t': Table, e: Epoch, a: Domain)
    requires Next(h, op) == Some(t') && AuthorizedIn(Last(h), e, a) && !Ends(op, e, a)
    ensures AuthorizedIn(t', e, a)
  {
    match op
    case Initialize(_, _, _) => InitializeOpens(h, op, t');
    case Advance(_, _, _, _, _, _, _, _) => assert NextAdvance(h, op) == Some(t');
    case Authorize(_, _, _, _, _) => AuthorizeAdds(h, op, t');
    case Abort(_, _, _, _, _) => assert NextAbort(h, op) == Some(t');
    case Rebind(_, _, _, _, _) => assert NextRebind(h, op) == Some(t');
    case Complete(_, _, _, _, _) => assert NextComplete(h, op) == Some(t');
    case Bind(_, _, _, _) => BindKeepsStage(h, op, t', e, a);
    case _ => CleanupsStandOther(h, op, t');
  }

  lemma CleanupsStandOther(h: History, op: Op, t': Table)
    requires op.PreRestart? || op.PostRestart? || op.ReconcileRestart? || op.Checkpoint? || op.IntentWrite?
    requires Next(h, op) == Some(t')
    ensures t'.cleanups == Last(h).cleanups
  {
    WritesElsewhere(h, op, t');
  }

  lemma AuthorizeAdds(h: History, op: Op, t': Table)
    requires op.Authorize? && NextAuthorize(h, op) == Some(t')
    ensures forall k <- Last(h).cleanups :: k in t'.cleanups && t'.cleanups[k] == Last(h).cleanups[k]
    ensures t'.cleanups.Keys == Last(h).cleanups.Keys + {AuthorizeKey(op.auth)}
  {
    var seen := DomainsAt(h, op.at).value;
    AuthorizeCommits(h, op, seen);
    AuthorizePuts(Last(h), op.auth, seen, t');
  }

  lemma BindKeepsStage(h: History, op: Op, t': Table, e: Epoch, a: Domain)
    requires op.Bind? && NextBind(h, op) == Some(t') && AuthorizedIn(Last(h), e, a)
    ensures AuthorizedIn(t', e, a)
  {
    ReboundKeepsStage(Last(h), op.target, WithBinding(op.binding, Holder(Last(h), op.target).value.bound), e, a);
  }

  lemma ReboundKeepsStage(t: Table, x: Target, b: Bindings, e: Epoch, a: Domain)
    requires Holder(t, x).Some? && AuthorizedIn(t, e, a)
    ensures AuthorizedIn(Rebound(t, x, b), e, a)
  {
  }

  /** Every control file of the run passed the provenance checks. */
  ghost predicate ControlsBound(ops: seq<Op>) {
    forall k :: 0 <= k < |ops| ==> ControlBound(ops[k])
  }

  lemma StuckNext(h: seq<Table>, ops: seq<Op>, m: nat, e: Epoch, a: Domain)
    requires Run(h, ops) && ControlsBound(ops) && m < |ops| && Stuck(h[m], e, a)
    ensures !Ends(ops[m], e, a) && Stuck(h[m + 1], e, a)
  {
    IssuerSafety(h, ops, m);
    CleanupRecordsAt(h, ops, m);
    if Ends(ops[m], e, a) {
      EndWrites(h, ops, m, e, a);
      StuckNotEnded(h[m], h[m + 1], e, a);
    } else {
      Committed(h, ops, m);
      EndedByAction(h[..m + 1], ops[m], h[m + 1], e, a);
      StatesEvolve(h, ops, m, m + 1);
      StuckStays(h[m], h[m + 1], e, a);
    }
  }

  lemma CleanupRecordsAt(h: seq<Table>, ops: seq<Op>, m: nat)
    requires Run(h, ops) && m < |h|
    ensures CleanupRecordsGood(h[m].cleanups)
  {
    StateGood(h, ops, m);
  }

  lemma {:induction false} StuckForever(h: seq<Table>, ops: seq<Op>, i: nat, j: nat, e: Epoch, a: Domain)
    requires Run(h, ops) && ControlsBound(ops) && i <= j < |h| && Stuck(h[i], e, a)
    ensures Stuck(h[j], e, a)
    decreases j
  {
    if i < j {
      var m := j - 1;
      StuckForever(h, ops, i, m, e, a);
      StuckNext(h, ops, m, e, a);
    }
  }

  /** After one of two authorized cleanups completes, no later action completes or aborts the other:
      it is authorized in every later state. */
  lemma CompletionBlocksOther(h: seq<Table>, ops: seq<Op>, m: nat, n: nat, e: Epoch, d: Domain)
    requires Run(h, ops) && ControlsBound(ops) && m < n < |ops|
    requires ops[m].Complete? && Ends(ops[m], e, d) && AuthorizedIn(h[m], e, Other(d))
    ensures !Ends(ops[n], e, Other(d)) && AuthorizedIn(h[n + 1], e, Other(d))
  {
    CompletionSticks(h, ops, m, e, d);
    StuckForever(h, ops, m + 1, n, e, Other(d));
    StuckNext(h, ops, n, e, Other(d));
  }

  // ---------------------------------------------------------------- who finished a cleanup

  predicate AuthorizesKey(op: Op, k: (Epoch, Domain)) {
    op.Authorize? && AuthorizeKey(op.auth) == k
  }

  /** Only an authorization adds a cleanup record. */
  lemma CleanupThere(h: History, op: Op, t': Table, k: (Epoch, Domain))
    requires Next(h, op) == Some(t') && k in t'.cleanups && !AuthorizesKey(op, k)
    ensures k in Last(h).cleanups
  {
    match op
    case Initialize(_, _, _) => InitializeOpens(h, op, t');
    case Advance(_, _, _, _, _, _, _, _) => assert NextAdvance(h, op) == Some(t');
    case Authorize(_, _, _, _, _) => AuthorizeAdds(h, op, t');
    case Bind(_, _, _, _) => BindAddsNone(h, op, t');
    case Abort(_, _, _, _, _) => EndingAddsNone(h, op, t');
    case Rebind(_, _, _, _, _) => EndingAddsNone(h, op, t');
    case Complete(_, _, _, _, _) => EndingAddsNone(h, op, t');
    case _ => CleanupsStandOther(h, op, t');
  }

  lemma EndingAddsNone(h: History, op: Op, t': Table)
    requires op.Abort? || op.Rebind? || op.Complete?
    requires Next(h, op) == Some(t')
    ensures t'.cleanups.Keys == Last(h).cleanups.Keys
  {
    if op.Abort? {
      assert NextAbort(h, op) == Some(t');
    } else if op.Rebind? {
      assert NextRebind(h, op) == Some(t');
    } else {
      assert NextComplete(h, op) == Some(t');
    }
  }

  lemma BindAddsNone(h: History, op: Op, t': Table)
    requires op.Bind? && NextBind(h, op) == Some(t')
    ensures t'.cleanups.Keys == Last(h).cleanups.Keys
  {
    ReboundAddsNone(Last(h), op.target, WithBinding(op.binding, Holder(Last(h), op.target).value.bound));
  }

  lemma ReboundAddsNone(t: Table, x: Target, b: Bindings)
    requires Holder(t, x).Some?
    ensures Rebound(t, x, b).cleanups.Keys == t.cleanups.Keys
  {
    match x { case OnLedger(_) => case OnCleanup(_, _) => }
  }

  lemma CleanupAdded(h: seq<Table>, ops: seq<Op>, m: nat, k: (Epoch, Domain))
    requires Run(h, ops) && m < |ops| && k in h[m + 1].cleanups
    ensures k in h[m].cleanups || AuthorizesKey(ops[m], k)
  {
    Committed(h, ops, m);
    if !AuthorizesKey(ops[m], k) {
      CleanupThere(h[..m + 1], ops[m], h[m + 1], k);
    }
  }

  lemma {:induction false} AuthorizedBy(h: seq<Table>, ops: seq<Op>, i: nat, k: (Epoch, Domain)) returns (a: nat)
    requires Run(h, ops) && i < |h| && k in h[i].cleanups
    ensures a < i && AuthorizesKey(ops[a], k)
    decreases i
  {
    if i > 0 {
      var m := i - 1;
      CleanupAdded(h, ops, m, k);
      if AuthorizesKey(ops[m], k) {
        a := m;
      } else {
        a := AuthorizedBy(h, ops, m, k);
      }
    }
  }

  lemma CompletedNow(h: seq<Table>, ops: seq<Op>, m: nat, e: Epoch, d: Domain)
    requires Run(h, ops) && m < |ops| && (e, d) in h[m + 1].cleanups && h[m + 1].cleanups[(e, d)].stage == CleanupComplete
    requires (e, d) in h[m].cleanups ==> h[m].cleanups[(e, d)].stage != CleanupComplete
    ensures ops[m].Complete? && Ends(ops[m], e, d) && (e, d) in h[m].cleanups
  {
    Committed(h, ops, m);
    if AuthorizesKey(ops[m], (e, d)) {
      AuthorizeWrites(h, ops, m);
    } else {
      CleanupThere(h[..m + 1], ops[m], h[m + 1], (e, d));
      CleanupKept(h, ops, m, m + 1, (e, d));
      if !Ends(ops[m], e, d) {
        EndedByAction(h[..m + 1], ops[m], h[m + 1], e, d);
      } else if ops[m].Abort? {
        AbortWrites(h, ops, m);
      }
    }
  }

  /** Action `a` authorized the cleanup and action `b` completed it. */
  ghost predicate FinishedBy(ops: seq<Op>, i: nat, e: Epoch, d: Domain, a: nat, b: nat) {
    && a < b < i <= |ops|
    && AuthorizesKey(ops[a], (e, d))
    && ops[b].Complete? && Ends(ops[b], e, d)
  }

  /** Behind every finished cleanup there are the action that authorized it and a later one that
      completed it. */
  lemma {:induction false} CleanupFinishedBy(h: seq<Table>, ops: seq<Op>, i: nat, e: Epoch, d: Domain)
    requires Run(h, ops) && i < |h| && (e, d) in h[i].cleanups && h[i].cleanups[(e, d)].stage == CleanupComplete
    ensures exists a: nat, b: nat :: FinishedBy(ops, i, e, d, a, b)
    decreases i
  {
    if i > 0 {
      var m := i - 1;
      if (e, d) in h[m].cleanups && h[m].cleanups[(e, d)].stage == CleanupComplete {
        CleanupFinishedBy(h, ops, m, e, d);
        var a: nat, b: nat :| FinishedBy(ops, m, e, d, a, b);
        assert FinishedBy(ops, i, e, d, a, b);
      } else {
        CompletedNow(h, ops, m, e, d);
        var a := AuthorizedBy(h, ops, m, (e, d));
        assert FinishedBy(ops, i, e, d, a, m);
      }
    }
  }

  // ---------------------------------------------------------------- the epoch is never left

  /** What the race leaves behind: both still authorized, one aborted, or one stuck. */
  ghost predicate Jammed(t: Table, e: Epoch) {
    || (AuthorizedIn(t, e, MailAction) && AuthorizedIn(t, e, ReportLink))
    || (exists d :: (e, d) in t.cleanups && t.cleanups[(e, d)].stage == Aborted)
    || (exists d :: Stuck(t, e, d))
  }

  lemma JammedNext(h: seq<Table>, ops: seq<Op>, m: nat, e: Epoch)
    requires Run(h, ops) && ControlsBound(ops) && m < |ops| && Jammed(h[m], e)
    ensures Jammed(h[m + 1], e)
  {
    if d :| Stuck(h[m], e, d) {
      StuckNext(h, ops, m, e, d);
    } else if d :| (e, d) in h[m].cleanups && h[m].cleanups[(e, d)].stage == Aborted {
      CleanupKept(h, ops, m, m + 1, (e, d));
    } else {
      BothNext(h, ops, m, e);
    }
  }

  lemma BothNext(h: seq<Table>, ops: seq<Op>, m: nat, e: Epoch)
    requires Run(h, ops) && m < |ops| && AuthorizedIn(h[m], e, MailAction) && AuthorizedIn(h[m], e, ReportLink)
    ensures Jammed(h[m + 1], e)
  {
    if d: Domain :| Ends(ops[m], e, d) {
      if ops[m].Complete? {
        assert AuthorizedIn(h[m], e, Other(d));
        CompletionSticks(h, ops, m, e, d);
      } else {
        AbortWrites(h, ops, m);
      }
    } else {
      Committed(h, ops, m);
      EndedByAction(h[..m + 1], ops[m], h[m + 1], e, MailAction);
      EndedByAction(h[..m + 1], ops[m], h[m + 1], e, ReportLink);
    }
  }

  lemma {:induction false} JammedForever(h: seq<Table>, ops: seq<Op>, i: nat, j: nat, e: Epoch)
    requires Run(h, ops) && ControlsBound(ops) && i <= j < |h| && Jammed(h[i], e)
    ensures Jammed(h[j], e)
    decreases j
  {
    if i < j {
      var m := j - 1;
      JammedForever(h, ops, i, m, e);
      JammedNext(h, ops, m, e);
    }
  }

  /** The cost of the race: once both cleanups of an epoch are authorized, both domains stay in that
      epoch in every later state, whatever any gate does. */
  lemma RaceEndsTheChain(h: seq<Table>, ops: seq<Op>, i: nat, j: nat, e: Epoch, d: Domain)
    requires Run(h, ops) && ControlsBound(ops) && i <= j < |h|
    requires AuthorizedIn(h[i], e, MailAction) && AuthorizedIn(h[i], e, ReportLink)
    ensures d in h[j].domains && h[j].domains[d].epoch == e
  {
    AuthorizedCurrent(h, ops, i, e, d);
    JammedForever(h, ops, i, j, e);
    var x := NotFinished(h[j], e);
    match x { case MailAction => case ReportLink => }
    NotRetiredStaysCurrent(h, ops, i, j, e, x);
    SameEpochAt(h, ops, j, x, d);
  }

  lemma NotFinished(t: Table, e: Epoch) returns (x: Domain)
    requires Jammed(t, e)
    ensures (e, x) in t.cleanups && t.cleanups[(e, x)].stage != CleanupComplete
  {
    if d :| Stuck(t, e, d) {
      x := d;
    } else if d :| (e, d) in t.cleanups && t.cleanups[(e, d)].stage == Aborted {
      x := d;
    } else {
      x := MailAction;
    }
  }

  lemma SameEpochAt(h: seq<Table>, ops: seq<Op>, j: nat, x: Domain, d: Domain)
    requires Run(h, ops) && j < |h| && x in h[j].domains
    ensures d in h[j].domains && h[j].domains[d].epoch == h[j].domains[x].epoch
  {
    StateGood(h, ops, j);
    match d { case MailAction => case ReportLink => }
    match x { case MailAction => case ReportLink => }
  }
}
