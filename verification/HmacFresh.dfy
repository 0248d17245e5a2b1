/** The MCP cutover rests on a restart made for it: requested after the worker was verified, completed
    after it was requested, and read by the cutover before it commits. */
module HmacFresh {
  import opened Optional
  import opened HmacKeyring
  import opened HmacTable
  import opened HmacRun
  import opened HmacInvariant
  import opened HmacRunGood
  import opened HmacAtomic
  import opened HmacEpochs

  predicate IsMove(op: Op, e: Epoch, target: LedgerStage) {
    op.Advance? && op.move.control.epoch == e && op.move.target == target
  }

  predicate IsRequest(op: Op, k: (Epoch, Provenance)) {
    op.PreRestart? && RestartKey(op.restart.control, op.restart.mode) == k
  }

  predicate IsCompletion(op: Op, k: (Epoch, Provenance)) {
    op.PostRestart? && RestartKey(op.restart.control, op.restart.mode) == k
  }

  // ---------------------------------------------------------------- who moved a ledger

  lemma MoverOf(h: History, op: Op, t': Table, e: Epoch)
    requires Next(h, op) == Some(t') && e in Last(h).ledgers && e in t'.ledgers
    ensures || t'.ledgers[e].stage == Last(h).ledgers[e].stage
            || (IsMove(op, e, t'.ledgers[e].stage) && t'.ledgers[e].updatedAt == op.move.now)
  {
    if op.Initialize? {
      InitializeOpens(h, op, t');
    } else if op.Advance? {
      LedgerMoved(h, op, t', e);
    } else if op.Bind? {
      LedgerBound(h, op, t', e);
    } else {
      LedgersStand(h, op, t');
    }
  }

  lemma LedgerMoved(h: History, op: Op, t': Table, e: Epoch)
    requires op.Advance? && NextAdvance(h, op) == Some(t') && e in Last(h).ledgers && e in t'.ledgers
    ensures || t'.ledgers[e].stage == Last(h).ledgers[e].stage
            || (IsMove(op, e, t'.ledgers[e].stage) && t'.ledgers[e].updatedAt == op.move.now)
  {
  }

  lemma LedgerBound(h: History, op: Op, t': Table, e: Epoch)
    requires op.Bind? && NextBind(h, op) == Some(t') && e in Last(h).ledgers && e in t'.ledgers
    ensures t'.ledgers[e].stage == Last(h).ledgers[e].stage
  {
  }

  /** The ledger of `e` as it shows in a state. */
  ghost predicate AtLeast(t: Table, e: Epoch, target: LedgerStage) {
    e in t.ledgers && Rank(t.ledgers[e].stage) >= Rank(target)
  }

  lemma StepBehind(h: seq<Table>, ops: seq<Op>, m: nat, e: Epoch, target: LedgerStage)
    requires Run(h, ops) && m < |ops| && target != Initialized
    requires AtLeast(h[m + 1], e, target) && !AtLeast(h[m], e, target)
    ensures IsMove(ops[m], e, target) && h[m + 1].ledgers[e].updatedAt == ops[m].move.now
  {
    StagesInOrder(h, ops, m);
    Committed(h, ops, m);
    MoverOf(h[..m + 1], ops[m], h[m + 1], e);
  }

  lemma SameStageSameTime(h: seq<Table>, ops: seq<Op>, i: nat, j: nat, e: Epoch)
    requires Run(h, ops) && i <= j < |h| && e in h[i].ledgers
    ensures e in h[j].ledgers && Rank(h[j].ledgers[e].stage) >= Rank(h[i].ledgers[e].stage)
    ensures h[j].ledgers[e].stage == h[i].ledgers[e].stage ==> h[j].ledgers[e].updatedAt == h[i].ledgers[e].updatedAt
  {
    StatesEvolve(h, ops, i, j);
    assert LedgerEvolves(h[i].ledgers[e], h[j].ledgers[e]);
  }

  ghost predicate MovedAt(h: seq<Table>, ops: seq<Op>, i: nat, e: Epoch, target: LedgerStage, v: nat)
    requires |h| == |ops| + 1 && i < |h| && e in h[i].ledgers
  {
    && v < i && IsMove(ops[v], e, target)
    && (h[i].ledgers[e].stage == target ==> h[i].ledgers[e].updatedAt == ops[v].move.now)
  }

  /** Behind every stage a ledger has reached there is the action that moved it there. */
  lemma {:induction false} MovedBefore(h: seq<Table>, ops: seq<Op>, i: nat, e: Epoch, target: LedgerStage)
    requires Run(h, ops) && i < |h| && target != Initialized && AtLeast(h[i], e, target)
    ensures exists v: nat :: MovedAt(h, ops, i, e, target, v)
    decreases i
  {
    if i > 0 {
      var m := i - 1;
      if AtLeast(h[m], e, target) {
        MovedBefore(h, ops, m, e, target);
        var v: nat :| MovedAt(h, ops, m, e, target, v);
        SameStageSameTime(h, ops, m, i, e);
        assert MovedAt(h, ops, i, e, target, v);
      } else {
        StepBehind(h, ops, m, e, target);
        assert MovedAt(h, ops, i, e, target, m);
      }
    }
  }

  lemma MoveEffects(h: seq<Table>, ops: seq<Op>, m: nat, e: Epoch, target: LedgerStage)
    requires Run(h, ops) && m < |ops| && IsMove(ops[m], e, target)
    ensures target != Initialized && e in h[m].ledgers && e in h[m + 1].ledgers
    ensures h[m].ledgers[e].stage == ExpectedStage(target) && h[m + 1].ledgers[e].stage == target
  {
    Committed(h, ops, m);
    assert NextAdvance(h[..m + 1], ops[m]) == Some(h[m + 1]);
  }

  /** A ledger is moved to each stage at most once. */
  lemma MovedOnce(h: seq<Table>, ops: seq<Op>, v: nat, w: nat, e: Epoch, target: LedgerStage)
    requires Run(h, ops) && v < w < |ops| && IsMove(ops[v], e, target)
    ensures !IsMove(ops[w], e, target)
  {
    if IsMove(ops[w], e, target) {
      MoveEffects(h, ops, v, e, target);
      MoveEffects(h, ops, w, e, target);
      SameStageSameTime(h, ops, v + 1, w, e);
      assert false;
    }
  }

  // ---------------------------------------------------------------- who wrote a restart record

  lemma RestartsStand(h: History, op: Op, t': Table)
    requires !IsRestartAction(op) && Next(h, op) == Some(t')
    ensures t'.restarts == Last(h).restarts
  {
    match op
    case Initialize(_, _, _) => InitializeOpens(h, op, t');
    case Authorize(_, _, _, _, _) => AuthorizeCommits(h, op, DomainsAt(h, op.at).value);
    case Advance(_, _, _, _, _, _, _, _) => RestartsStandAdvance(h, op, t');
    case Bind(_, _, _, _) => RestartsStandBind(h, op, t');
    case Checkpoint(_, _, _, _) => assert NextCheckpoint(h, op) == Some(t');
    case IntentWrite(_, _) => assert NextIntentWrite(h, op) == Some(t');
    case _ => RestartsStandCleanup(h, op, t');
  }

  lemma RestartsStandAdvance(h: History, op: Op, t': Table)
    requires op.Advance? && NextAdvance(h, op) == Some(t')
    ensures t'.restarts == Last(h).restarts
  {
  }

  lemma RestartsStandCleanup(h: History, op: Op, t': Table)
    requires op.Abort? || op.Rebind? || op.Complete?
    requires Next(h, op) == Some(t')
    ensures t'.restarts == Last(h).restarts
  {
    match op
    case Abort(_, _, _, _, _) => assert NextAbort(h, op) == Some(t');
    case Rebind(_, _, _, _, _) => assert NextRebind(h, op) == Some(t');
    case Complete(_, _, _, _, _) => assert NextComplete(h, op) == Some(t');
  }

  lemma RestartsStandBind(h: History, op: Op, t': Table)
    requires op.Bind? && NextBind(h, op) == Some(t')
    ensures t'.restarts == Last(h).restarts
  {
  }

  lemma RestartWriter(h: History, op: Op, t': Table, k: (Epoch, Provenance))
    requires Next(h, op) == Some(t') && k in t'.restarts
    ensures || (k in Last(h).restarts && t'.restarts[k] == Last(h).restarts[k])
            || (IsRestartAction(op) && RestartKey(op.restart.control, op.restart.mode) == k)
  {
    if op.PreRestart? {
      assert NextPreRestart(h, op) == Some(t');
    } else if op.PostRestart? {
      assert NextPostRestart(h, op) == Some(t');
    } else if op.ReconcileRestart? {
      assert NextReconcileRestart(h, op) == Some(t');
    } else {
      RestartsStand(h, op, t');
    }
  }

  lemma RequestWrites(h: History, op: Op, t': Table)
    requires op.PreRestart? && NextPreRestart(h, op) == Some(t')
    ensures var k := RestartKey(op.restart.control, op.restart.mode);
            && k in t'.restarts && t'.restarts[k].requestedAt == op.restart.now
            && t'.restarts[k].afterCheckedAt == op.restart.checkedAt && t'.restarts[k].completedAt.None?
  {
  }

  lemma CompletionWrites(h: History, op: Op, t': Table)
    requires op.PostRestart? && NextPostRestart(h, op) == Some(t')
    ensures var k := RestartKey(op.restart.control, op.restart.mode);
            && k in Last(h).restarts && k in t'.restarts
            && t'.restarts[k] == Last(h).restarts[k].(stage := Completed, completedAt := Some(op.restart.checkedAt),
                                                      revision := t'.restarts[k].revision)
  {
  }

  lemma ReconcileWrites(h: History, op: Op, t': Table)
    requires op.ReconcileRestart? && NextReconcileRestart(h, op) == Some(t')
    ensures var k := RestartKey(op.restart.control, op.restart.mode);
            && k in Last(h).restarts && k in t'.restarts
            && t'.restarts[k] == Last(h).restarts[k].(stage := Reconciled, reconciledBy := t'.restarts[k].reconciledBy,
                                                      revision := t'.restarts[k].revision)
  {
  }

  /** Actions `p` and `s` requested and (when it was) completed the restart on record. */
  ghost predicate MadeBy(ops: seq<Op>, i: nat, k: (Epoch, Provenance), r: RestartRecord, p: nat, s: nat)
    requires i <= |ops|
  {
    && p < i && IsRequest(ops[p], k) && r.requestedAt == ops[p].restart.now && r.afterCheckedAt == ops[p].restart.checkedAt
    && (r.completedAt.Some? ==> p < s < i && IsCompletion(ops[s], k) && r.completedAt.value == ops[s].restart.checkedAt)
  }

  /** Every restart record was requested by one action and completed, if at all, by a later one. */
  lemma {:induction false} RestartMade(h: seq<Table>, ops: seq<Op>, i: nat, k: (Epoch, Provenance))
    requires Run(h, ops) && i < |h| && k in h[i].restarts
    ensures exists p: nat, s: nat :: MadeBy(ops, i, k, h[i].restarts[k], p, s)
    decreases i
  {
    if i > 0 {
      var m := i - 1;
      if k in h[m].restarts {
        RestartMade(h, ops, m, k);
        var p: nat, s: nat :| MadeBy(ops, m, k, h[m].restarts[k], p, s);
        RestartMadeOn(h, ops, m, i, k, p, s);
      } else {
        RestartMadeOn(h, ops, m, i, k, 0, 0);
      }
    }
  }

  lemma RestartMadeOn(h: seq<Table>, ops: seq<Op>, m: nat, i: nat, k: (Epoch, Provenance), p: nat, s: nat)
    requires Run(h, ops) && m < |ops| && i == m + 1 && k in h[i].restarts
    requires k in h[m].restarts ==> MadeBy(ops, m, k, h[m].restarts[k], p, s)
    ensures exists p': nat, s': nat :: MadeBy(ops, i, k, h[i].restarts[k], p', s')
  {
    Committed(h, ops, m);
    var before, op, t' := h[..m + 1], ops[m], h[i];
    if k in h[m].restarts && t'.restarts[k] == h[m].restarts[k] {
      assert MadeBy(ops, i, k, t'.restarts[k], p, s);
    } else {
      RestartWriter(before, op, t', k);
      if op.PreRestart? {
        RequestWrites(before, op, t');
        assert MadeBy(ops, i, k, t'.restarts[k], m, m);
      } else if op.PostRestart? {
        CompletionWrites(before, op, t');
        assert MadeBy(ops, i, k, t'.restarts[k], p, m);
      } else {
        ReconcileWrites(before, op, t');
        assert MadeBy(ops, i, k, t'.restarts[k], p, s);
      }
    }
  }

  // ---------------------------------------------------------------- the stages of a restart record

  predicate OnRestart(op: Op, k: (Epoch, Provenance)) {
    IsRestartAction(op) && RestartKey(op.restart.control, op.restart.mode) == k
  }

  /** The stage a restart action writes. */
  function StageWritten(op: Op): RestartStage
    requires IsRestartAction(op)
  {
    if op.PreRestart? then Requested else if op.PostRestart? then Completed else Reconciled
  }

  /** The order of the stages: a restart is requested anew only once the last one has ended, completed
      while it is requested, and reconciled once, before or after its completion. */
  predicate MayFollow(a: Option<RestartStage>, b: RestartStage) {
    match b
    case Requested => a != Some(Requested)
    case Completed => a == Some(Requested)
    case Reconciled => a == Some(Requested) || a == Some(Completed)
  }

  function StageOf(r: Option<RestartRecord>): Option<RestartStage> {
    if r.Some? then Some(r.value.stage) else None
  }

  /** One commit of a restart action: its stage follows the one on record, and the revision counts it. */
  predicate StageMoves(op: Op, before: Option<RestartRecord>, after: RestartRecord)
    requires IsRestartAction(op)
  {
    && after.stage == StageWritten(op)
    && MayFollow(StageOf(before), after.stage)
    && after.revision == (if before.Some? then before.value.revision else 0) + 1
  }

  lemma RestartStageNow(h: History, op: Op, t': Table)
    requires IsRestartAction(op) && Next(h, op) == Some(t')
    ensures var k := RestartKey(op.restart.control, op.restart.mode);
            k in t'.restarts && StageMoves(op, Find(Last(h).restarts, k), t'.restarts[k])
            && t'.restarts == Last(h).restarts[k := t'.restarts[k]]
  {
    if op.PreRestart? {
      assert NextPreRestart(h, op) == Some(t');
    } else if op.PostRestart? {
      assert NextPostRestart(h, op) == Some(t');
    } else {
      assert NextReconcileRestart(h, op) == Some(t');
    }
  }

  /** One step of a run moves a restart record by the action made on it, and by no other action. */
  lemma RestartStep(h: seq<Table>, ops: seq<Op>, m: nat, k: (Epoch, Provenance))
    requires Run(h, ops) && m < |ops|
    ensures if OnRestart(ops[m], k) then
              k in h[m + 1].restarts && StageMoves(ops[m], Find(h[m].restarts, k), h[m + 1].restarts[k])
            else Find(h[m + 1].restarts, k) == Find(h[m].restarts, k)
  {
    Committed(h, ops, m);
    if IsRestartAction(ops[m]) {
      RestartStageNow(h[..m + 1], ops[m], h[m + 1]);
    } else {
      RestartsStand(h[..m + 1], ops[m], h[m + 1]);
    }
  }

  /** The stages the actions on one restart record have written, in the order of their commits. */
  function Stages(ops: seq<Op>, k: (Epoch, Provenance)): seq<RestartStage> {
    if ops == [] then []
    else if OnRestart(ops[|ops| - 1], k) then Stages(ops[..|ops| - 1], k) + [StageWritten(ops[|ops| - 1])]
    else Stages(ops[..|ops| - 1], k)
  }

  function LastOf<T>(s: seq<T>): Option<T> {
    if s == [] then None else Some(s[|s| - 1])
  }

  predicate InOrder(s: seq<RestartStage>) {
    forall i :: 0 <= i < |s| ==> MayFollow(LastOf(s[..i]), s[i])
  }

  /** The record shows the last of the stages written to it, and its revision counts them. */
  predicate ShowsStages(s: seq<RestartStage>, r: Option<RestartRecord>) {
    InOrder(s) && StageOf(r) == LastOf(s) && (r.Some? ==> r.value.revision == |s|)
  }

  lemma OrderGrows(s: seq<RestartStage>, r: Option<RestartRecord>, op: Op, r': RestartRecord)
    requires ShowsStages(s, r) && IsRestartAction(op) && StageMoves(op, r, r')
    ensures ShowsStages(s + [StageWritten(op)], Some(r'))
  {
    var s' := s + [StageWritten(op)];
    forall i | 0 <= i < |s'|
      ensures MayFollow(LastOf(s'[..i]), s'[i])
    {
      assert s'[..i] == s[..i];
      assert s[..|s|] == s;
    }
  }

  lemma StagesNext(ops: seq<Op>, m: nat, k: (Epoch, Provenance))
    requires m < |ops|
    ensures Stages(ops[..m + 1], k)
            == if OnRestart(ops[m], k) then Stages(ops[..m], k) + [StageWritten(ops[m])] else Stages(ops[..m], k)
  {
    assert ops[..m + 1][..m] == ops[..m];
  }

  /** Over a whole run: the stages written to a restart record are in order, the record shows the last
      one and counts them all, and there is no record before the first. */
  lemma {:induction false} RestartOrder(h: seq<Table>, ops: seq<Op>, i: nat, k: (Epoch, Provenance))
    requires Run(h, ops) && i < |h|
    ensures ShowsStages(Stages(ops[..i], k), Find(h[i].restarts, k))
    decreases i
  {
    if i > 0 {
      var m := i - 1;
      RestartOrder(h, ops, m, k);
      RestartOrderNext(h, ops, m, k);
    }
  }

  lemma RestartOrderNext(h: seq<Table>, ops: seq<Op>, m: nat, k: (Epoch, Provenance))
    requires Run(h, ops) && m < |ops| && ShowsStages(Stages(ops[..m], k), Find(h[m].restarts, k))
    ensures ShowsStages(Stages(ops[..m + 1], k), Find(h[m + 1].restarts, k))
  {
    RestartStep(h, ops, m, k);
    StagesNext(ops, m, k);
    if OnRestart(ops[m], k) {
      OrderGrows(Stages(ops[..m], k), Find(h[m].restarts, k), ops[m], h[m + 1].restarts[k]);
    }
  }

  // ---------------------------------------------------------------- the cutover

  /** What the commit of the MCP cutover had read. */
  lemma CutoverProof(h: History, op: Op, t': Table)
    requires op.Advance? && op.move.target == McpStable && NextAdvance(h, op) == Some(t')
    ensures var e, k := op.move.control.epoch, RestartKey(op.move.control, op.mode);
            && op.atFirst < |h| && e in h[op.atFirst].ledgers && h[op.atFirst].ledgers[e].stage == WorkerVerified
            && op.atRestart < |h| && k in h[op.atRestart].restarts && k.0 == e
            && var r := h[op.atRestart].restarts[k];
               && r.completedAt.Some? && r.completedAt.value > h[op.atFirst].ledgers[e].updatedAt
               && r.completedAt.value > Max(r.requestedAt, r.afterCheckedAt)
  {
  }

  lemma RequestNeedsVerified(h: seq<Table>, ops: seq<Op>, p: nat, k: (Epoch, Provenance))
    requires Run(h, ops) && p < |ops| && IsRequest(ops[p], k)
    ensures AtLeast(h[p], k.0, WorkerVerified)
  {
    Committed(h, ops, p);
    assert NextPreRestart(h[..p + 1], ops[p]) == Some(h[p + 1]);
    LedgerSeen(h[..p + 1], ops[p].atLedger, k.0);
  }

  /** Verified, requested, completed, cut over: in this order, with increasing clock readings. */
  predicate Freshly(ops: seq<Op>, e: Epoch, v: nat, p: nat, s: nat, m: nat)
  {
    && v < p < s < m < |ops|
    && IsMove(ops[v], e, WorkerVerified)
    && IsMove(ops[m], e, McpStable)
    && var k := RestartKey(ops[m].move.control, ops[m].mode);
       && IsRequest(ops[p], k) && IsCompletion(ops[s], k)
       && ops[s].restart.checkedAt > ops[v].move.now
       && ops[s].restart.checkedAt > Max(ops[p].restart.now, ops[p].restart.checkedAt)
  }

  /** Action `m` is a cutover of epoch `e` with such actions before it. */
  ghost predicate FreshCutover(ops: seq<Op>, e: Epoch, m: nat) {
    exists v: nat, p: nat, s: nat :: Freshly(ops, e, v, p, s, m)
  }

  lemma CutoverFresh(h: seq<Table>, ops: seq<Op>, m: nat, e: Epoch)
    requires Run(h, ops) && m < |ops| && IsMove(ops[m], e, McpStable)
    ensures FreshCutover(ops, e, m)
  {
    var before, op := h[..m + 1], ops[m];
    var k := RestartKey(op.move.control, op.mode);
    Committed(h, ops, m);
    CutoverProof(before, op, h[m + 1]);
    MovedBefore(h, ops, op.atFirst, e, WorkerVerified);
    var v: nat :| MovedAt(h, ops, op.atFirst, e, WorkerVerified, v);
    RestartMade(h, ops, op.atRestart, k);
    var p: nat, s: nat :| MadeBy(ops, op.atRestart, k, h[op.atRestart].restarts[k], p, s);
    RequestNeedsVerified(h, ops, p, k);
    MovedBefore(h, ops, p, e, WorkerVerified);
    var w: nat :| MovedAt(h, ops, p, e, WorkerVerified, w);
    SameMove(h, ops, v, w, e, WorkerVerified);
    assert Freshly(ops, e, v, p, s, m);
  }

  lemma SameMove(h: seq<Table>, ops: seq<Op>, v: nat, w: nat, e: Epoch, target: LedgerStage)
    requires Run(h, ops) && v < |ops| && w < |ops| && IsMove(ops[v], e, target) && IsMove(ops[w], e, target)
    ensures v == w
  {
    if v < w {
      MovedOnce(h, ops, v, w, e, target);
    } else if w < v {
      MovedOnce(h, ops, w, v, e, target);
    }
  }

  /** MCP freshness: a ledger at mcp_stable_and_old_drained or beyond has such a restart behind it. */
  lemma McpFreshness(h: seq<Table>, ops: seq<Op>, i: nat, e: Epoch)
    requires Run(h, ops) && i < |h| && AtLeast(h[i], e, McpStable)
    ensures exists m: nat :: m < i && FreshCutover(ops, e, m)
  {
    MovedBefore(h, ops, i, e, McpStable);
    var m: nat :| MovedAt(h, ops, i, e, McpStable, m);
    CutoverFresh(h, ops, m, e);
  }
}
