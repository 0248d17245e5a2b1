/** The gate as it runs: an object over the shared table that reads record by record, lets other actors
    commit in between, retries its cleanup authorization, and records which commits were its own. */
module HmacGate {
  import opened Optional
  import opened HmacKeyring
  import opened HmacTable
  import opened HmacRun
  import opened HmacInvariant
  import opened HmacRunGood
  import opened HmacAtomic
  import opened HmacCleanup
  import opened HmacFresh
  import opened HmacWorker

  datatype Outcome = Committed | Refused(code: Refusal)

  datatype Refusal =
    | StateMissing
    | StageOrderViolation
    | WorkerRestartStateInvalid
    | LiveEvidenceInvalid
    | CleanupReconcileCasFailed
    | CleanupCompleteCasFailed
    | CutoverClosed
    | StageCasFailed
    | CleanupManifestInvalid
    | CleanupCandidateIncomplete
    | TrustedClockUnavailable
    | PreviousWindowActive
    | CleanupStateInvalid
    | CleanupProvenanceNotDistinct
    | CleanupPrepareCasFailed

  /** What the other actors do, and what the clock shows, during one attempt of the retry loop. */
  datatype Attempt = Attempt(before: seq<Op>, between: seq<Op>, late: seq<Op>, clock: Option<int>)

  const ATTEMPTS: nat := 12

  /** The verdict on the two records of one attempt, in the order the checks are made. */
  function AuthorizeVerdict(q: AuthorizeRequest, seen: Both<DomainRecord>): Option<Refusal> {
    var r := seen.At(q.domain);
    if !(r.previous.Some? && r.t0.Some? && r.deadline.Some? && q.now >= r.deadline.value && !r.cleanupAuthorized) then
      Some(PreviousWindowActive)
    else if !(AuthorizeDomainChecks(q, MailAction, seen.mail) && AuthorizeDomainChecks(q, ReportLink, seen.report)) then
      Some(CleanupStateInvalid)
    else if r.issuers - Issuers(q.control).At(q.domain) == {} then Some(CleanupProvenanceNotDistinct)
    else None
  }

  predicate DigestsReviewed(q: AuthorizeRequest) {
    && q.candidateDigests.Keys == ALL_TASKS && q.rollbackDigests.Keys == ALL_TASKS
    && forall task <- ALL_TASKS :: q.candidateDigests[task] != q.rollbackDigests[task]
  }

  lemma VerdictDecides(q: AuthorizeRequest, seen: Both<DomainRecord>)
    requires DigestsReviewed(q)
    ensures AuthorizeVerdict(q, seen).None? <==> AuthorizeChecks(q, seen)
  {
  }

  /** The guard and the manifest check, with the reads they were made on. */
  predicate EvidenceRead(h: History, q: AuthorizeRequest, atGuard: nat, atGuards: Both<nat>, atOther: nat) {
    && atGuards.mail < |h| && atGuards.report < |h|
    && GuardPassed(h, q, atGuard, atGuards) && ManifestPassed(h, q, atOther)
  }

  /** The two predicates below are sealed: what they stand for takes part in a proof only where `Open` is
      mentioned. The methods hand them on; the lemmas that use them open them. */
  predicate Open(k: nat) {
    k >= 0
  }

  ghost predicate EvidenceKept(h: History, q: AuthorizeRequest, atGuard: nat, atGuards: Both<nat>, atOther: nat) {
    forall k: nat {:trigger Open(k)} :: Open(k) ==> EvidenceRead(h, q, atGuard, atGuards, atOther)
  }

  /** What the action makes of the newest table: None when it is refused. */
  ghost predicate Yields(h: History, op: Op, next: Option<Table>) {
    forall k: nat {:trigger Open(k)} :: Open(k) ==> Next(h, op) == next
  }

  lemma KeepEvidence(h: History, q: AuthorizeRequest, atGuard: nat, atGuards: Both<nat>, atOther: nat)
    requires EvidenceRead(h, q, atGuard, atGuards, atOther)
    ensures EvidenceKept(h, q, atGuard, atGuards, atOther)
  {
  }

  lemma GrewThrough<S, T>(a: seq<S>, b: seq<S>, c: seq<S>, x: seq<T>, y: seq<T>, z: seq<T>)
    requires a <= b && b <= c && x <= y && y <= z
    ensures a <= c && x <= z
    ensures |c| == |a| ==> a == b == c
    ensures |z| == |x| ==> x == y == z
  {
  }

  /** Evidence once read stays read when the history grows, and does not depend on the attempt's clock. */
  lemma EvidenceStays(
    h: History, h': History, q: AuthorizeRequest, q': AuthorizeRequest, atGuard: nat, atGuards: Both<nat>, atOther: nat)
    requires h <= h' && EvidenceKept(h, q, atGuard, atGuards, atOther) && q' == q.(now := q'.now)
    ensures EvidenceKept(h', q', atGuard, atGuards, atOther)
  {
    assert Open(0);
    assert forall k :: 0 <= k < |h| ==> h'[k] == h[k];
    assert EvidenceRead(h', q', atGuard, atGuards, atOther);
  }

  /** Everything is checked; what remains are the conditions of the transaction. */
  predicate AuthorizeChecked(h: History, op: Op, seen: Both<DomainRecord>)
    requires op.Authorize?
  {
    && op.at.mail < |h| && op.at.report < |h| && DomainsAt(h, op.at) == Some(seen) && AuthorizeChecks(op.auth, seen)
    && EvidenceRead(h, op.auth, op.atGuard, op.atGuards, op.atOther)
  }

  lemma CheckedCommits(h: History, op: Op, seen: Both<DomainRecord>)
    requires op.Authorize? && AuthorizeChecked(h, op, seen)
    ensures Next(h, op).Some? <==> AuthorizeHolds(Last(h), op.auth, seen)
  {
    AuthorizeCommits(h, op, seen);
  }

  /** Reads at the newest table leave nothing for the transaction to disagree with, except that the
      cleanup record may already exist. */
  lemma NothingMoved(t: Table, q: AuthorizeRequest, seen: Both<DomainRecord>)
    requires AuthorizeChecks(q, seen)
    requires Find(t.domains, MailAction) == Some(seen.mail) && Find(t.domains, ReportLink) == Some(seen.report)
    ensures AuthorizeHolds(t, q, seen) <==> AuthorizeKey(q) !in t.cleanups
  {
  }

  /** A transaction on records just read is cancelled only by an existing cleanup record. */
  lemma Cancelled(h: History, op: Op, seen: Both<DomainRecord>, k: (Epoch, Domain))
    requires op.Authorize? && AuthorizeChecked(h, op, seen) && Next(h, op).None?
    requires op.at == Both(|h| - 1, |h| - 1) && k == (op.auth.control.epoch, op.auth.domain)
    ensures k in Last(h).cleanups
  {
    CheckedCommits(h, op, seen);
    NothingMoved(Last(h), op.auth, seen);
  }

  /** The verdict and the evidence of one attempt together: when its action, on records read from the
      newest table, does not commit, the cleanup record exists already. */
  lemma AttemptCancelled(
    h0: History, h: History, q: AuthorizeRequest, op: Op, seen: Both<DomainRecord>)
    requires h0 <= h && op.Authorize? && op.auth == q.(now := op.auth.now) && DigestsReviewed(q)
    requires EvidenceKept(h0, q, op.atGuard, op.atGuards, op.atOther)
    requires op.at == Both(|h| - 1, |h| - 1) && DomainsAt(h, op.at) == Some(seen)
    requires AuthorizeVerdict(op.auth, seen).None?
    ensures BlockedByKey(h, op, AuthorizeKey(q))
  {
    VerdictDecides(op.auth, seen);
    EvidenceStays(h0, h, q, op.auth, op.atGuard, op.atGuards, op.atOther);
    assert Open(0);
    if Next(h, op).None? {
      Cancelled(h, op, seen, AuthorizeKey(q));
    }
  }

  /** Nothing but an existing cleanup record stands in the way of the action; sealed as well. */
  ghost predicate BlockedByKey(h: History, op: Op, key: (Epoch, Domain)) {
    forall k: nat {:trigger Open(k)} :: Open(k) ==> Next(h, op).None? ==> key in Last(h).cleanups
  }

  lemma KeyBlocks(h: History, op: Op, key: (Epoch, Domain))
    requires BlockedByKey(h, op, key) && Yields(h, op, None)
    ensures key in Last(h).cleanups
  {
    assert Open(0);
  }

  lemma KeyStays(h: seq<Table>, ops: seq<Op>, before: History, k: (Epoch, Domain))
    requires Run(h, ops) && before <= h
    ensures k in Last(before).cleanups ==> k in Last(h).cleanups
  {
    var i := |before| - 1;
    assert h[i] == Last(before);
    if k in h[i].cleanups {
      CleanupKept(h, ops, i, |h| - 1, k);
    }
  }

  /** One atomic authorization of the reviewed request, at the clock reading of one attempt. */
  ghost predicate AuthorizedNow(q: AuthorizeRequest, attempts: seq<Attempt>, q': AuthorizeRequest, a: Table, b: Table) {
    exists i :: 0 <= i < |attempts| && attempts[i].clock == Some(q'.now)
                && q' == q.(now := q'.now) && AuthorizeWrote(q', a, b)
  }

  lemma CommittedNow(h: seq<Table>, ops: seq<Op>, q: AuthorizeRequest, attempts: seq<Attempt>, k: nat)
    requires Run(h, ops) && ops != [] && ops[|ops| - 1].Authorize? && k < |attempts| && attempts[k].clock.Some?
    requires ops[|ops| - 1].auth == q.(now := attempts[k].clock.value)
    ensures AuthorizedNow(q, attempts, ops[|ops| - 1].auth, h[|ops| - 1], h[|ops|])
  {
    AuthorizeWrites(h, ops, |ops| - 1);
    assert attempts[k].clock == Some(ops[|ops| - 1].auth.now);
  }

  lemma OwnGrows(own: seq<nat>, n: nat)
    requires forall i :: 0 <= i < |own| ==> own[i] < n
    ensures forall i :: 0 <= i < |own + [n]| ==> (own + [n])[i] < n + 1
  {
  }

  lemma GuardStaysPassed(h: History, h': History, q: AuthorizeRequest, n: nat)
    requires h <= h' && n < |h| && GuardPassed(h, q, n, Both(n, n))
    ensures GuardPassed(h', q, n, Both(n, n))
  {
    assert h'[n] == h[n];
  }

  /** The record modes in the order they are consulted. */
  const RESTART_MODES := [CandidateMode, CleanupMode, RollbackMode]

  predicate ProvenAt(h: History, n: nat, c: Control, mode: RestartMode, plan: string, attempt: string, after: int) {
    var r := RestartAt(h, n, RestartKey(c, mode));
    r.Some? && ProvesRestart(c, mode, r.value, plan, attempt, after)
  }

  function CompletionAt(h: History, n: nat, c: Control, mode: RestartMode): int {
    var r := RestartAt(h, n, RestartKey(c, mode));
    if r.Some? && r.value.completedAt.Some? then r.value.completedAt.value else 0
  }

  lemma RestartReadsStay(h: History, h': History, c: Control)
    requires h <= h'
    ensures forall n: nat, mode :: n < |h| ==>
              RestartAt(h', n, RestartKey(c, mode)) == RestartAt(h, n, RestartKey(c, mode))
  {
    assert forall k :: 0 <= k < |h| ==> h'[k] == h[k];
  }

  lemma YieldsNext(h: seq<Table>, ops: seq<Op>, op: Op, t: Table)
    requires Run(h, ops) && Yields(h, op, Some(t))
    ensures Run(h + [t], ops + [op])
  {
    assert Open(0);
    RunExtends(h, ops, op, t);
  }

  /** The actions on records that are all read from one table. */
  function AbortOn(q: ReconcileRequest, n: nat): Op {
    Abort(q, n, n, n, Both(n, n))
  }

  function CompleteOn(q: CompleteRequest, n: nat): Op {
    Complete(q, n, n, n, Both(n, n))
  }

  function AdvanceOn(
    q: TransitionRequest, n: nat, mode: RestartMode, plan: string, attempt: string, first: nat, restart: nat): Op
  {
    Advance(q, n, Both(n, n), mode, plan, attempt, first, restart)
  }

  lemma AdvanceUnmade(
    h: History, q: TransitionRequest, n: nat, mode: RestartMode, plan: string, attempt: string, first: nat, restart: nat)
    requires n == |h| - 1 && q.target != Initialized
    requires var l, seen := LedgerAt(h, n, q.control.epoch), DomainsAt(h, Both(n, n));
             || l.None? || seen.None? || l.value.stage != ExpectedStage(q.target)
             || seen.value.mail.legacyWorker != q.manifest.legacyWorker
             || !(CutoverOpen(q, seen.value, MailAction) && CutoverOpen(q, seen.value, ReportLink))
    ensures Yields(h, AdvanceOn(q, n, mode, plan, attempt, first, restart), None)
  {
  }

  lemma AbortUnmade(h: History, q: ReconcileRequest, n: nat)
    requires n == |h| - 1
    requires var c, seen := CleanupAt(h, n, q.control.epoch, q.domain), DomainsAt(h, Both(n, n));
             || c.None? || seen.None?
             || !AbortChecks(q, c.value, RestartAt(h, n, RestartKey(q.control, CleanupMode)),
                             IntentAt(h, n, c.value.intent), seen.value)
    ensures Yields(h, AbortOn(q, n), None)
  {
  }

  lemma CompleteUnmade(h: History, q: CompleteRequest, n: nat)
    requires n == |h| - 1
    requires var l, c := LedgerAt(h, n, q.control.epoch), CleanupAt(h, n, q.control.epoch, q.domain);
             var r, seen := RestartAt(h, n, RestartKey(q.control, q.restartMode)), DomainsAt(h, Both(n, n));
             || l.None? || c.None? || r.None? || seen.None?
             || !CompleteChecks(q, l.value, c.value, r.value, seen.value)
    ensures Yields(h, CompleteOn(q, n), None)
  {
  }

  /** An abort that is refused although nothing moved is one whose records do not allow it. */
  lemma NotOpen(h: seq<Table>, ops: seq<Op>, q: ReconcileRequest)
    requires Run(h, ops) && Yields(h, AbortOn(q, |h| - 1), None)
    ensures !AbortOpen(Last(h), q)
  {
    assert Open(0);
    AbortIff(h, ops, q, |h| - 1);
  }

  /** What a committed abort found, and what it wrote. */
  ghost predicate AbortedOn(q: ReconcileRequest, a: Table, b: Table) {
    && AbortWrote(q, a, b)
    && ShowsBaseline(a.cleanups[KeyOf(q)], RestartOf(a, q.control))
    && b.cleanups[KeyOf(q)].reconciledWorker == Some((BaselineWorker, RestartOf(a, q.control)))
    && IntentMoves(a, b, a.cleanups[KeyOf(q)].intent, IntentAborted)
  }

  lemma AbortsOn(h: seq<Table>, ops: seq<Op>, m: nat)
    requires Run(h, ops) && m < |ops| && ops[m].Abort?
    ensures AbortedOn(ops[m].rec, h[m], h[m + 1])
  {
    AbortWrites(h, ops, m);
    AbortNeedsBaseline(h, ops, m);
  }

  class LiveRolloutGate {
    var history: seq<Table>
    var log: seq<Op>
    /** The positions in the log of this gate's own commits. */
    ghost var own: seq<nat>

    ghost predicate Valid()
      reads this
    {
      && Run(history, log)
      && forall i :: 0 <= i < |own| ==> own[i] < |log|
    }

    constructor ()
      ensures Valid() && own == [] && log == []
    {
      history, log, own := [EMPTY_TABLE], [], [];
    }

    /** The log and the history have grown, and nothing of what was there changed. */
    twostate predicate Grew()
      reads this
    {
      old(history) <= history && old(log) <= log
    }

    /** Evaluates an action on the table as it is. */
    method Try(op: Op) returns (next: Option<Table>)
      requires Valid()
      ensures Yields(history, op, next)
    {
      next := Next(history, op);
    }

    method Commit(op: Op, t: Table)
      requires Valid() && Yields(history, op, Some(t))
      modifies `history, `log
      ensures Valid() && Grew() && history == old(history) + [t] && log == old(log) + [op]
    {
      YieldsNext(history, log, op, t);
      history, log := history + [t], log + [op];
    }

    /** Other actors try their actions; those whose checks or conditions fail leave no trace. */
    method Others(ops: seq<Op>)
      requires Valid()
      modifies `history, `log
      ensures Valid() && Grew()
      ensures |log| == |old(log)| ==> history == old(history)
    {
      for i := 0 to |ops|
        invariant Valid() && Grew()
        invariant |log| == |old(log)| ==> history == old(history)
      {
        var next := Try(ops[i]);
        if next.Some? {
          label Before:
          Commit(ops[i], next.value);
          GrewThrough(old(history), old@Before(history), history, old(log), old@Before(log), log);
        }
      }
    }

    /** This gate's own transaction, given the checks have passed: it commits if its conditions hold. */
    method Transact(op: Op) returns (ok: bool)
      requires Valid()
      modifies this
      ensures Valid() && Grew()
      ensures Yields(old(history), op, if ok then Some(Last(history)) else None)
      ensures !ok ==> history == old(history) && log == old(log) && own == old(own)
      ensures ok ==> log == old(log) + [op] && own == old(own) + [|log| - 1]
    {
      var next := Try(op);
      ok := next.Some?;
      if ok {
        Commit(op, next.value);
        OwnGrows(own, |log| - 1);
        own := own + [|log| - 1];
      }
    }

    /** The two DOMAIN records, read one after the other. */
    method ReadDomains(a: Attempt) returns (at: Both<nat>, seen: Option<Both<DomainRecord>>)
      requires Valid()
      modifies `history, `log
      ensures Valid() && Grew()
      ensures at.mail < |history| && at.report < |history| && seen == DomainsAt(history, at)
      ensures |log| == |old(log)| ==> at == Both(|history| - 1, |history| - 1)
    {
      Others(a.before);
      var mail := |history| - 1;
      label Between:
      Others(a.between);
      GrewThrough(old(history), old@Between(history), history, old(log), old@Between(log), log);
      at := Both(mail, |history| - 1);
      seen := DomainsAt(history, at);
    }

    /** This gate's transaction, after other actors had their chance. */
    method WriteBack(op: Op, late: seq<Op>) returns (ok: bool)
      requires Valid()
      modifies this
      ensures Valid() && Grew()
      ensures ok ==> own == old(own) + [|log| - 1] && |log| > |old(log)| && log[|log| - 1] == op
      ensures !ok ==> own == old(own) && Yields(history, op, None)
      ensures !ok && |log| == |old(log)| ==> history == old(history)
    {
      ghost var h0, l0 := history, log;
      Others(late);
      ghost var h1, l1 := history, log;
      ok := Transact(op);
      GrewThrough(h0, h1, history, l0, l1, log);
    }

    /** The reads and checks of one attempt; without a refusal, the action they amount to. */
    method ReadAndCheck(q: AuthorizeRequest, atGuard: nat, atGuards: Both<nat>, atOther: nat, a: Attempt)
      returns (refusal: Option<Refusal>, op: Op)
      requires Valid() && DigestsReviewed(q) && EvidenceKept(history, q, atGuard, atGuards, atOther)
      modifies `history, `log
      ensures Valid() && Grew() && op.Authorize?
      ensures refusal.None? ==> a.clock.Some? && op.auth == q.(now := a.clock.value)
      ensures refusal.None? && |log| == |old(log)| ==> BlockedByKey(history, op, AuthorizeKey(q))
      ensures refusal != Some(CleanupPrepareCasFailed)
    {
      var at, read := ReadDomains(a);
      op := Authorize(q, atGuard, atGuards, atOther, at);
      if read.None? {
        return Some(StateMissing), op;
      }
      if a.clock.None? {
        return Some(TrustedClockUnavailable), op;
      }
      var q' := q.(now := a.clock.value);
      op := op.(auth := q');
      refusal := AuthorizeVerdict(q', read.value);
      if refusal.None? && |log| == |old(log)| {
        AttemptCancelled(old(history), history, q, op, read.value);
      }
    }

    /** One attempt: the records are read, checked, and written back on the condition that they did not
        change. None means that the transaction was cancelled. */
    method AuthorizeAttempt(q: AuthorizeRequest, atGuard: nat, atGuards: Both<nat>, atOther: nat, a: Attempt)
      returns (r: Option<Outcome>)
      requires Valid() && DigestsReviewed(q) && EvidenceKept(history, q, atGuard, atGuards, atOther)
      modifies this
      ensures Valid() && Grew()
      ensures r != Some(Committed) ==> own == old(own)
      ensures r == Some(Committed) ==>
                && own == old(own) + [|log| - 1] && |log| > |old(log)|
                && a.clock.Some? && log[|log| - 1].Authorize? && log[|log| - 1].auth == q.(now := a.clock.value)
      ensures r.None? ==> AuthorizeKey(q) in Last(history).cleanups || |log| > |old(log)|
      ensures r != Some(Refused(CleanupPrepareCasFailed))
    {
      var refusal, op := ReadAndCheck(q, atGuard, atGuards, atOther, a);
      if refusal.Some? {
        return Some(Refused(refusal.value));
      }
      label Read:
      var ok := WriteBack(op, a.late);
      if !ok && |log| == |old(log)| {
        KeyBlocks(history, op, AuthorizeKey(q));
      }
      GrewThrough(old(history), old@Read(history), history, old(log), old@Read(log), log);
      r := if ok then Some(Committed) else None;
    }

    /** The retry loop; `k` is the number of attempts whose transaction was cancelled. */
    method Retry(q: AuthorizeRequest, atGuard: nat, atGuards: Both<nat>, atOther: nat, attempts: seq<Attempt>)
      returns (r: Option<Outcome>, k: nat)
      requires Valid() && DigestsReviewed(q) && EvidenceKept(history, q, atGuard, atGuards, atOther)
      modifies this
      ensures Valid() && Grew() && k <= |attempts|
      ensures r != Some(Committed) ==> own == old(own)
      ensures r == Some(Committed) ==>
                && own == old(own) + [|log| - 1] && |log| > |old(log)| && log[|log| - 1].Authorize?
                && k < |attempts| && attempts[k].clock.Some? && log[|log| - 1].auth == q.(now := attempts[k].clock.value)
      ensures r.None? ==> k == |attempts|
      ensures r != Some(Refused(CleanupPrepareCasFailed))
      ensures AuthorizeKey(q) in Last(history).cleanups || |log| >= |old(log)| + k
    {
      r, k := None, 0;
      while k < |attempts|
        invariant Valid() && Grew() && own == old(own) && r.None? && k <= |attempts|
        invariant AuthorizeKey(q) in Last(history).cleanups || |log| >= |old(log)| + k
      {
        label Attempt:
        EvidenceStays(old(history), history, q, q, atGuard, atGuards, atOther);
        r := AuthorizeAttempt(q, atGuard, atGuards, atOther, attempts[k]);
        GrewThrough(old(history), old@Attempt(history), history, old(log), old@Attempt(log), log);
        KeyStays(history, log, old@Attempt(history), AuthorizeKey(q));
        if r.Some? {
          return;
        }
        k := k + 1;
      }
    }

    /** The authorization as a whole. It commits at most once; it gives up only after twelve cancelled
        transactions, each lost to another actor's commit unless the cleanup record exists already. */
    method AuthorizeCleanupCas(
      q: AuthorizeRequest, atGuard: nat, atGuards: Both<nat>, atOther: nat, attempts: seq<Attempt>)
      returns (r: Outcome)
      requires Valid() && DigestsReviewed(q) && EvidenceKept(history, q, atGuard, atGuards, atOther)
      requires |attempts| == ATTEMPTS
      modifies this
      ensures Valid() && Grew()
      ensures r.Refused? ==> own == old(own)
      ensures r.Committed? ==>
                && own == old(own) + [|log| - 1] && |log| > |old(log)| && log[|log| - 1].Authorize?
                && AuthorizedNow(q, attempts, log[|log| - 1].auth, history[|log| - 1], history[|log|])
      ensures r == Refused(CleanupPrepareCasFailed) ==>
                AuthorizeKey(q) in Last(history).cleanups || |log| >= |old(log)| + ATTEMPTS
    {
      var outcome, k := Retry(q, atGuard, atGuards, atOther, attempts);
      if outcome == Some(Committed) {
        CommittedNow(history, log, q, attempts, k);
      }
      r := if outcome.Some? then outcome.value else Refused(CleanupPrepareCasFailed);
    }

    /** The guard and the manifest check, each on reads of its own. */
    method ReadEvidence(q: AuthorizeRequest, first: Attempt, liveEvidence: bool)
      returns (refusal: Option<Refusal>, guard: nat, other: nat)
      requires Valid()
      modifies `history, `log
      ensures Valid() && Grew()
      ensures refusal.None? ==> EvidenceKept(history, q, guard, Both(guard, guard), other) && DigestsReviewed(q)
      ensures refusal.None? ==> liveEvidence
    {
      Others(first.before);
      label Guarded:
      guard, other := |history| - 1, 0;
      if !GuardPassed(history, q, guard, Both(guard, guard)) {
        return Some(StageOrderViolation), guard, other;
      }
      Others(first.between);
      GrewThrough(old(history), old@Guarded(history), history, old(log), old@Guarded(log), log);
      GuardStaysPassed(old@Guarded(history), history, q, guard);
      other := |history| - 1;
      refusal := if !liveEvidence then Some(LiveEvidenceInvalid)
                 else if !ManifestPassed(history, q, other) then Some(CleanupManifestInvalid)
                 else if !DigestsReviewed(q) then Some(CleanupCandidateIncomplete)
                 else None;
      if refusal.None? {
        KeepEvidence(history, q, guard, Both(guard, guard), other);
      }
    }

    /** Preparation: the evidence first, then the retry loop, which does not look at it again. */
    method PrepareCleanup(q: AuthorizeRequest, first: Attempt, liveEvidence: bool, attempts: seq<Attempt>)
      returns (r: Outcome)
      requires Valid() && |attempts| == ATTEMPTS
      modifies this
      ensures Valid() && Grew()
      ensures r.Refused? ==> own == old(own)
      ensures r.Committed? ==>
                && own == old(own) + [|log| - 1] && |log| > |old(log)| && log[|log| - 1].Authorize?
                && AuthorizedNow(q, attempts, log[|log| - 1].auth, history[|log| - 1], history[|log|])
                && liveEvidence && DigestsReviewed(q)
    {
      var refusal, guard, other := ReadEvidence(q, first, liveEvidence);
      if refusal.Some? {
        return Refused(refusal.value);
      }
      label Checked:
      r := AuthorizeCleanupCas(q, guard, Both(guard, guard), other, attempts);
      GrewThrough(old(history), old@Checked(history), history, old(log), old@Checked(log), log);
    }

    /** The newest of the restarts that are on record as completed after `after`; each of the three
        records is read separately. */
    method CompletedRestartMode(c: Control, plan: string, attempt: string, after: int, others: seq<seq<Op>>)
      returns (best: Option<(RestartMode, nat)>, at: seq<nat>)
      requires Valid() && |others| == |RESTART_MODES|
      modifies `history, `log
      ensures Valid() && Grew() && |at| == |RESTART_MODES| && forall i :: 0 <= i < |at| ==> at[i] < |history|
      ensures best.None? ==> forall i :: 0 <= i < |at| ==> !ProvenAt(history, at[i], c, RESTART_MODES[i], plan, attempt, after)
      ensures best.Some? ==>
                && ProvenAt(history, best.value.1, c, best.value.0, plan, attempt, after)
                && forall i :: 0 <= i < |at| && ProvenAt(history, at[i], c, RESTART_MODES[i], plan, attempt, after) ==>
                     CompletionAt(history, at[i], c, RESTART_MODES[i]) <= CompletionAt(history, best.value.1, c, best.value.0)
    {
      best, at := None, [];
      while |at| < |RESTART_MODES|
        invariant Valid() && Grew() && |at| <= |RESTART_MODES| && forall i :: 0 <= i < |at| ==> at[i] < |history|
        invariant best.None? ==>
          forall i :: 0 <= i < |at| ==> !ProvenAt(history, at[i], c, RESTART_MODES[i], plan, attempt, after)
        invariant best.Some? ==>
          && ProvenAt(history, best.value.1, c, best.value.0, plan, attempt, after)
          && forall i :: 0 <= i < |at| && ProvenAt(history, at[i], c, RESTART_MODES[i], plan, attempt, after) ==>
               CompletionAt(history, at[i], c, RESTART_MODES[i]) <= CompletionAt(history, best.value.1, c, best.value.0)
        decreases |RESTART_MODES| - |at|
      {
        var mode, n := RESTART_MODES[|at|], |history| - 1;
        if ProvenAt(history, n, c, mode, plan, attempt, after)
           && (best.None? || CompletionAt(history, n, c, mode) > CompletionAt(history, best.value.1, c, best.value.0)) {
          best := Some((mode, n));
        }
        at := at + [n];
        label Read:
        Others(others[|at| - 1]);
        GrewThrough(old(history), old@Read(history), history, old(log), old@Read(log), log);
        RestartReadsStay(old@Read(history), history, c);
      }
    }

    /** The cutover check, then the ledger read. */
    method ReadTransition(
      q: TransitionRequest, mode: RestartMode, plan: string, attempt: string, first: nat, restart: nat,
      others: seq<seq<Op>>)
      returns (refusal: Option<Refusal>, op: Op)
      requires Valid() && |others| >= 3 && q.target != Initialized
      modifies `history, `log
      ensures Valid() && Grew() && IsMove(op, q.control.epoch, q.target) && op.move == q
      ensures |log| == |old(log)| ==>
                history == old(history) && op == AdvanceOn(q, |history| - 1, mode, plan, attempt, first, restart)
      ensures |log| == |old(log)| && refusal.Some? ==> Yields(history, op, None)
    {
      var at, seen := ReadDomains(Attempt(others[0], others[1], [], None));
      label Checked:
      Others(others[2]);
      GrewThrough(old(history), old@Checked(history), history, old(log), old@Checked(log), log);
      var n := |history| - 1;
      var ledger := LedgerAt(history, n, q.control.epoch);
      op := Advance(q, n, at, mode, plan, attempt, first, restart);
      refusal := if seen.None? then Some(StateMissing)
                 else if seen.value.mail.legacyWorker != q.manifest.legacyWorker
                         || !(CutoverOpen(q, seen.value, MailAction) && CutoverOpen(q, seen.value, ReportLink)) then
                   Some(CutoverClosed)
                 else if ledger.None? then Some(StateMissing)
                 else if ledger.value.stage != ExpectedStage(q.target) then Some(StageOrderViolation)
                 else None;
      if |log| == |old(log)| && refusal.Some? {
        AdvanceUnmade(history, q, n, mode, plan, attempt, first, restart);
      }
    }

    /** One step of the ledger: the cutover check, the ledger read, one conditional transaction. The
        restart evidence, used by the MCP cutover only, was read before. When nobody else acts, the step is
        refused only if it could not commit. */
    method TransitionLedger(
      q: TransitionRequest, mode: RestartMode, plan: string, attempt: string, first: nat, restart: nat,
      others: seq<seq<Op>>)
      returns (r: Outcome)
      requires Valid() && |others| == 4 && q.target != Initialized
      modifies this
      ensures Valid() && Grew()
      ensures r.Refused? ==> own == old(own)
      ensures r.Committed? ==>
                && own == old(own) + [|log| - 1] && |log| > |old(log)|
                && IsMove(log[|log| - 1], q.control.epoch, q.target) && log[|log| - 1].move == q
      ensures r.Refused? && |log| == |old(log)| ==>
                Yields(history, AdvanceOn(q, |history| - 1, mode, plan, attempt, first, restart), None)
    {
      var refusal, op := ReadTransition(q, mode, plan, attempt, first, restart, others);
      if refusal.Some? {
        return Refused(refusal.value);
      }
      label Read:
      var ok := WriteBack(op, others[3]);
      GrewThrough(old(history), old@Read(history), history, old(log), old@Read(log), log);
      r := if ok then Committed else Refused(StageCasFailed);
    }

    /** The MCP cutover. Its commit has a restart behind it that was requested and completed after the
        worker was verified. */
    method McpStableAndOldDrained(
      q: TransitionRequest, plan: string, attempt: string, liveEvidence: bool, early: seq<seq<Op>>,
      others: seq<seq<Op>>)
      returns (r: Outcome)
      requires Valid() && q.target == McpStable && |early| == |RESTART_MODES| && |others| == 4
      modifies this
      ensures Valid() && Grew()
      ensures r.Refused? ==> own == old(own)
      ensures r.Committed? ==>
                && own == old(own) + [|log| - 1] && |log| > |old(log)| && liveEvidence
                && IsMove(log[|log| - 1], q.control.epoch, McpStable)
                && FreshCutover(log, q.control.epoch, |log| - 1)
    {
      var first := |history| - 1;
      var ledger := LedgerAt(history, first, q.control.epoch);
      if ledger.None? || ledger.value.stage != WorkerVerified {
        return Refused(StageOrderViolation);
      }
      if !liveEvidence {
        return Refused(LiveEvidenceInvalid);
      }
      var best, _ := CompletedRestartMode(q.control, plan, attempt, ledger.value.updatedAt, early);
      if best.None? {
        return Refused(WorkerRestartStateInvalid);
      }
      label Proven:
      r := TransitionLedger(q, best.value.0, plan, attempt, first, best.value.1, others);
      GrewThrough(old(history), old@Proven(history), history, old(log), old@Proven(log), log);
      if r.Committed? {
        CutoverFresh(history, log, |log| - 1, q.control.epoch);
      }
    }

    /** What completing a cleanup reads, record by record, and checks. */
    method ReadCompletion(q: CompleteRequest, others: seq<seq<Op>>) returns (refusal: Option<Refusal>, op: Op)
      requires Valid() && |others| >= 4
      modifies `history, `log
      ensures Valid() && Grew() && op.Complete? && op.done == q
      ensures |log| == |old(log)| ==> history == old(history) && op == CompleteOn(q, |history| - 1)
      ensures |log| == |old(log)| && refusal.Some? ==> Yields(history, op, None)
    {
      var n := |history| - 1;
      var ledger := LedgerAt(history, n, q.control.epoch);
      var cleanup := CleanupAt(history, n, q.control.epoch, q.domain);
      Others(others[0]);
      label Second:
      var m := |history| - 1;
      var restart := RestartAt(history, m, RestartKey(q.control, q.restartMode));
      Others(others[1]);
      GrewThrough(old(history), old@Second(history), history, old(log), old@Second(log), log);
      label Third:
      var at, seen := ReadDomains(Attempt(others[2], others[3], [], None));
      GrewThrough(old(history), old@Third(history), history, old(log), old@Third(log), log);
      op := Complete(q, n, n, m, at);
      refusal := if ledger.None? || cleanup.None? || restart.None? || seen.None? then Some(StateMissing)
                 else if !CompleteChecks(q, ledger.value, cleanup.value, restart.value, seen.value) then
                   Some(CleanupStateInvalid)
                 else None;
      if |log| == |old(log)| && refusal.Some? {
        CompleteUnmade(history, q, n);
      }
    }

    method WriteCompletion(op: Op, late: seq<Op>) returns (ok: bool)
      requires Valid() && op.Complete?
      modifies this
      ensures Valid() && Grew()
      ensures ok ==> own == old(own) + [|log| - 1] && |log| > |old(log)| && CompleteWrote(op.done, history[|log| - 1], history[|log|])
      ensures !ok ==> own == old(own) && Yields(history, op, None)
      ensures !ok && |log| == |old(log)| ==> history == old(history)
    {
      ok := WriteBack(op, late);
      if ok {
        CompleteWrites(history, log, |log| - 1);
      }
    }

    /** The end of a cleanup. When nobody else acts, it is refused only if it could not commit. */
    method CompleteCleanup(q: CompleteRequest, others: seq<seq<Op>>) returns (r: Outcome)
      requires Valid() && |others| == 5
      modifies this
      ensures Valid() && Grew()
      ensures r.Refused? ==> own == old(own)
      ensures r.Committed? ==>
                && own == old(own) + [|log| - 1] && |log| > |old(log)|
                && CompleteWrote(q, history[|log| - 1], history[|log|])
      ensures r.Refused? && |log| == |old(log)| ==> Yields(history, CompleteOn(q, |history| - 1), None)
    {
      var refusal, op := ReadCompletion(q, others);
      if refusal.Some? {
        return Refused(refusal.value);
      }
      label Read:
      var ok := WriteCompletion(op, others[4]);
      GrewThrough(old(history), old@Read(history), history, old(log), old@Read(log), log);
      r := if ok then Committed else Refused(CleanupCompleteCasFailed);
    }

    /** What aborting a cleanup reads, record by record, and checks. */
    method ReadAbort(q: ReconcileRequest, others: seq<seq<Op>>) returns (refusal: Option<Refusal>, op: Op)
      requires Valid() && |others| >= 4
      modifies `history, `log
      ensures Valid() && Grew() && op.Abort? && op.rec == q
      ensures |log| == |old(log)| ==> history == old(history) && op == AbortOn(q, |history| - 1)
      ensures |log| == |old(log)| && refusal.Some? ==> Yields(history, op, None)
    {
      var n := |history| - 1;
      var cleanup := CleanupAt(history, n, q.control.epoch, q.domain);
      Others(others[0]);
      label Second:
      var m := |history| - 1;
      var restart := RestartAt(history, m, RestartKey(q.control, CleanupMode));
      var intent := if cleanup.Some? then IntentAt(history, m, cleanup.value.intent) else None;
      Others(others[1]);
      GrewThrough(old(history), old@Second(history), history, old(log), old@Second(log), log);
      label Third:
      var at, seen := ReadDomains(Attempt(others[2], others[3], [], None));
      GrewThrough(old(history), old@Third(history), history, old(log), old@Third(log), log);
      op := Abort(q, n, m, m, at);
      refusal := if cleanup.None? || seen.None? then Some(StateMissing)
                 else if !AbortChecks(q, cleanup.value, restart, intent, seen.value) then Some(CleanupStateInvalid)
                 else None;
      if |log| == |old(log)| && refusal.Some? {
        AbortUnmade(history, q, n);
      }
    }

    method WriteAbort(op: Op, late: seq<Op>) returns (ok: bool)
      requires Valid() && op.Abort?
      modifies this
      ensures Valid() && Grew()
      ensures ok ==> own == old(own) + [|log| - 1] && |log| > |old(log)| && AbortedOn(op.rec, history[|log| - 1], history[|log|])
      ensures !ok ==> own == old(own) && Yields(history, op, None)
      ensures !ok && |log| == |old(log)| ==> history == old(history)
    {
      ok := WriteBack(op, late);
      if ok {
        AbortsOn(history, log, |log| - 1);
      }
    }

    /** The abort of a cleanup. It commits only when the restart record shows the worker of before the cleanup;
        when nobody else acts, it is refused only if the records do not allow it. */
    method AbortCleanup(q: ReconcileRequest, others: seq<seq<Op>>) returns (r: Outcome)
      requires Valid() && |others| == 5
      modifies this
      ensures Valid() && Grew()
      ensures r.Refused? ==> own == old(own)
      ensures r.Committed? ==>
                && own == old(own) + [|log| - 1] && |log| > |old(log)|
                && AbortedOn(q, history[|log| - 1], history[|log|])
      ensures r.Refused? && |log| == |old(log)| ==> !AbortOpen(Last(history), q)
    {
      var refusal, op := ReadAbort(q, others);
      if refusal.Some? {
        if |log| == |old(log)| {
          NotOpen(history, log, q);
        }
        return Refused(refusal.value);
      }
      label Read:
      var ok := WriteAbort(op, others[4]);
      GrewThrough(old(history), old@Read(history), history, old(log), old@Read(log), log);
      if !ok && |log| == |old(log)| {
        NotOpen(history, log, q);
      }
      r := if ok then Committed else Refused(CleanupReconcileCasFailed);
    }
  }
}
