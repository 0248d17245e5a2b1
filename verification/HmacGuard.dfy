/** The guard of a cleanup's preparation is evaluated before, and outside, its transaction. It keeps at
    most one cleanup authorized exactly in the runs where it still holds at every commit. */
module HmacGuard {
  import opened Optional
  import opened HmacKeyring
  import opened HmacTable
  import opened HmacRun
  import opened HmacInvariant
  import opened HmacRunGood
  import opened HmacAtomic
  import opened HmacCleanup

  predicate AuthorizedIn(t: Table, e: Epoch, d: Domain) {
    (e, d) in t.cleanups && t.cleanups[(e, d)].stage == Authorized
  }

  /** In no epoch are both domains' cleanups authorized. */
  ghost predicate AtMostOne(t: Table) {
    forall e :: !(AuthorizedIn(t, e, MailAction) && AuthorizedIn(t, e, ReportLink))
  }

  /** The guard, asked of the table itself. */
  predicate GuardNow(t: Table, e: Epoch) {
    !AuthorizedIn(t, e, MailAction) && !AuthorizedIn(t, e, ReportLink)
  }

  lemma OneAfterAuthorize(h: seq<Table>, ops: seq<Op>, j: nat)
    requires Run(h, ops) && j < |ops| && ops[j].Authorize? && AtMostOne(h[j])
    ensures AtMostOne(h[j + 1]) <==> GuardNow(h[j], ops[j].auth.control.epoch)
  {
    AuthorizeCleanupsOnly(h, ops, j);
    AuthorizedCounts(h[j], h[j + 1], ops[j].auth.control.epoch, ops[j].auth.domain);
  }

  lemma AuthorizedCounts(a: Table, b: Table, e: Epoch, d: Domain)
    requires AtMostOne(a) && !AuthorizedIn(a, e, d) && AuthorizedIn(b, e, d)
    requires forall f, x :: (f, x) != (e, d) ==> (AuthorizedIn(b, f, x) <==> AuthorizedIn(a, f, x))
    ensures AtMostOne(b) <==> GuardNow(a, e)
  {
    if GuardNow(a, e) {
      assert AtMostOne(b);
    } else {
      assert AuthorizedIn(a, e, Other(d));
      assert AuthorizedIn(b, e, Other(d));
    }
  }

  lemma AuthorizeCleanupsOnly(h: seq<Table>, ops: seq<Op>, j: nat)
    requires Run(h, ops) && j < |ops| && ops[j].Authorize?
    ensures var e, d := ops[j].auth.control.epoch, ops[j].auth.domain;
            && !AuthorizedIn(h[j], e, d) && AuthorizedIn(h[j + 1], e, d)
            && forall f, x :: (f, x) != (e, d) ==> (AuthorizedIn(h[j + 1], f, x) <==> AuthorizedIn(h[j], f, x))
  {
    Committed(h, ops, j);
    var before := h[..j + 1];
    AuthorizeCommits(before, ops[j], DomainsAt(before, ops[j].at).value);
    AuthorizePuts(h[j], ops[j].auth, DomainsAt(before, ops[j].at).value, h[j + 1]);
  }

  lemma AuthorizePuts(t: Table, q: AuthorizeRequest, seen: Both<DomainRecord>, t': Table)
    requires TryAuthorize(t, q, seen) == Some(t')
    ensures AuthorizeKey(q) !in t.cleanups && AuthorizeKey(q) in t'.cleanups
    ensures t'.cleanups[AuthorizeKey(q)].stage == Authorized
    ensures t'.cleanups == t.cleanups[AuthorizeKey(q) := t'.cleanups[AuthorizeKey(q)]]
  {
  }

  /** Apart from authorizing, no action adds an authorized cleanup. */
  lemma NoneAdded(h: History, op: Op, t': Table, e: Epoch, d: Domain)
    requires !op.Authorize? && Next(h, op) == Some(t') && AuthorizedIn(t', e, d)
    ensures AuthorizedIn(Last(h), e, d)
  {
    match op
    case Initialize(_, _, _) => assert NextInitialize(h, op) == Some(t');
    case Advance(_, _, _, _, _, _, _, _) => assert NextAdvance(h, op) == Some(t');
    case Abort(_, _, _, _, _) => assert NextAbort(h, op) == Some(t');
    case Rebind(_, _, _, _, _) => assert NextRebind(h, op) == Some(t');
    case Complete(_, _, _, _, _) => assert NextComplete(h, op) == Some(t');
    case Bind(_, _, _, _) => NoneBound(h, op, t', e, d);
    case _ => WritesElsewhere(h, op, t');
  }

  lemma NoneBound(h: History, op: Op, t': Table, e: Epoch, d: Domain)
    requires op.Bind? && NextBind(h, op) == Some(t') && AuthorizedIn(t', e, d)
    ensures AuthorizedIn(Last(h), e, d)
  {
  }

  lemma OneAfterOther(h: seq<Table>, ops: seq<Op>, j: nat)
    requires Run(h, ops) && j < |ops| && !ops[j].Authorize? && AtMostOne(h[j])
    ensures AtMostOne(h[j + 1])
  {
    Committed(h, ops, j);
    var t' := h[j + 1];
    forall e
      ensures !(AuthorizedIn(t', e, MailAction) && AuthorizedIn(t', e, ReportLink))
    {
      if AuthorizedIn(t', e, MailAction) && AuthorizedIn(t', e, ReportLink) {
        NoneAdded(h[..j + 1], ops[j], t', e, MailAction);
        NoneAdded(h[..j + 1], ops[j], t', e, ReportLink);
        assert false;
      }
    }
  }

  /** Every preparation's guard still held when its transaction committed. */
  ghost predicate GuardsFresh(h: seq<Table>, ops: seq<Op>, i: nat)
    requires |h| == |ops| + 1 && i <= |ops|
  {
    forall j :: 0 <= j < i && ops[j].Authorize? ==> GuardNow(h[j], ops[j].auth.control.epoch)
  }

  /** At most one cleanup is authorized in every state up to `i` if and only if every guard was fresh. */
  lemma {:induction false} OneCleanupIff(h: seq<Table>, ops: seq<Op>, i: nat)
    requires Run(h, ops) && i <= |ops|
    ensures GuardsFresh(h, ops, i) <==> forall k :: 0 <= k <= i ==> AtMostOne(h[k])
    decreases i
  {
    if i > 0 {
      var m := i - 1;
      OneCleanupIff(h, ops, m);
      if AtMostOne(h[m]) {
        if ops[m].Authorize? {
          OneAfterAuthorize(h, ops, m);
        } else {
          OneAfterOther(h, ops, m);
        }
      }
    } else {
      assert AtMostOne(h[0]);
    }
  }
}
