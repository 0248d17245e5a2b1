/** The migration runner: one transaction per migration, a record of what was applied, and refusal of
    applied migrations whose text has changed. */
module Migrations {
  import opened Optional

  /** A migration file. Digests are taken to be injective, so its text stands for its checksum. */
  datatype Migration = Migration(version: string, sql: string, controlsTransaction: bool)

  ghost predicate Distinct(ms: seq<Migration>) {
    forall i, j :: 0 <= i < j < |ms| ==> ms[i].version != ms[j].version
  }

  /** The record of the first `n` migrations. */
  function RecordOf(ms: seq<Migration>, n: nat): map<string, string>
    requires n <= |ms|
  {
    if n == 0 then map[] else RecordOf(ms, n - 1)[ms[n - 1].version := ms[n - 1].sql]
  }

  lemma {:induction false} RecordOfHas(ms: seq<Migration>, n: nat, i: nat)
    requires Distinct(ms) && n <= |ms| && i < |ms|
    ensures ms[i].version in RecordOf(ms, n) <==> i < n
    ensures i < n ==> RecordOf(ms, n)[ms[i].version] == ms[i].sql
  {
    if n > 0 {
      RecordOfHas(ms, n - 1, i);
    }
  }

  /** The first `n` migrations, and nothing else, were applied: once each, in order, as recorded. */
  ghost predicate AppliedExactly(recorded: map<string, string>, committed: seq<Migration>, ms: seq<Migration>, n: nat) {
    n <= |ms| && recorded == RecordOf(ms, n) && committed == ms[..n]
  }

  lemma AppliedKnows(recorded: map<string, string>, committed: seq<Migration>, ms: seq<Migration>, n: nat, i: nat)
    requires Distinct(ms) && AppliedExactly(recorded, committed, ms, n) && i < |ms|
    ensures ms[i].version in recorded <==> i < n
    ensures i < n ==> recorded[ms[i].version] == ms[i].sql
  {
    RecordOfHas(ms, n, i);
  }

  lemma AppliedNext(recorded: map<string, string>, committed: seq<Migration>, ms: seq<Migration>, n: nat)
    requires AppliedExactly(recorded, committed, ms, n) && n < |ms|
    ensures AppliedExactly(recorded[ms[n].version := ms[n].sql], committed + [ms[n]], ms, n + 1)
  {
  }

  // ---------------------------------------------------------------- what a run does

  datatype Step = Skip | Apply | Halt

  datatype Options = Options(dryRun: bool, rerun: Option<string>, fails: set<nat>)

  /** An earlier migration carries the same version. */
  predicate Repeats(ms: seq<Migration>, i: nat)
    requires i < |ms|
  {
    exists j :: 0 <= j < i && ms[j].version == ms[i].version
  }

  /** What happens to migration i: applied ones are skipped unless their text changed, a forced rerun is
      applied whatever the record says, and a text that controls the transaction or that the server rejects
      ends the run, as does a version that was recorded a moment before. `fails` are the positions the
      server rejects. */
  function StepAt(ms: seq<Migration>, i: nat, applied: map<string, string>, o: Options): Step
    requires i < |ms|
  {
    var m := ms[i];
    var tried := if o.dryRun then Skip else if m.controlsTransaction || i in o.fails then Halt else Apply;
    if o.rerun == Some(m.version) then tried
    else if m.version in applied then if applied[m.version] == m.sql then Skip else Halt
    else if tried == Apply && Repeats(ms, i) then Halt
    else tried
  }

  /** The migrations applied among the first i. */
  function Chosen(ms: seq<Migration>, i: nat, applied: map<string, string>, o: Options): seq<Migration>
    requires i <= |ms|
  {
    if i == 0 then []
    else if StepAt(ms, i - 1, applied, o) == Apply then Chosen(ms, i - 1, applied, o) + [ms[i - 1]]
    else Chosen(ms, i - 1, applied, o)
  }

  function Recorded(before: map<string, string>, done: seq<Migration>): map<string, string> {
    if done == [] then before else Recorded(before, done[..|done| - 1])[done[|done| - 1].version := done[|done| - 1].sql]
  }

  /** A run stops before the first migration that halts it. */
  ghost predicate StopsAt(ms: seq<Migration>, s: nat, applied: map<string, string>, o: Options) {
    && s <= |ms|
    && (forall i :: 0 <= i < s ==> StepAt(ms, i, applied, o) != Halt)
    && (s < |ms| ==> StepAt(ms, s, applied, o) == Halt)
  }

  lemma RecordedOne(before: map<string, string>, done: seq<Migration>, m: Migration)
    ensures Recorded(before, done + [m]) == Recorded(before, done)[m.version := m.sql]
  {
    assert (done + [m])[..|done|] == done;
  }

  lemma {:induction false} RecordedHas(before: map<string, string>, done: seq<Migration>, v: string)
    ensures v in Recorded(before, done) <==> v in before || exists i :: 0 <= i < |done| && done[i].version == v
    ensures (forall i :: 0 <= i < |done| ==> done[i].version != v) && v in before ==> Recorded(before, done)[v] == before[v]
    decreases |done|
  {
    if done != [] {
      var rest := done[..|done| - 1];
      RecordedHas(before, rest, v);
      if v in Recorded(before, done) && v !in before && done[|done| - 1].version != v {
        var i :| 0 <= i < |rest| && rest[i].version == v;
        assert done[i].version == v;
      }
      if exists i :: 0 <= i < |done| && done[i].version == v {
        var i :| 0 <= i < |done| && done[i].version == v;
        if i < |rest| { assert rest[i].version == v; }
      }
    }
  }

  lemma {:induction false} ChosenAmong(ms: seq<Migration>, i: nat, applied: map<string, string>, o: Options, k: nat)
    requires i <= |ms| && k < |Chosen(ms, i, applied, o)|
    ensures exists j :: 0 <= j < i && ms[j] == Chosen(ms, i, applied, o)[k]
  {
    if k < |Chosen(ms, i - 1, applied, o)| {
      ChosenAmong(ms, i - 1, applied, o, k);
    }
  }

  lemma {:induction false} ChosenHolds(ms: seq<Migration>, i: nat, applied: map<string, string>, o: Options, j: nat)
    requires j < i <= |ms| && StepAt(ms, j, applied, o) == Apply
    ensures ms[j] in Chosen(ms, i, applied, o)
  {
    if j < i - 1 {
      ChosenHolds(ms, i - 1, applied, o, j);
    } else {
      var rest := Chosen(ms, i - 1, applied, o);
      assert Chosen(ms, i, applied, o)[|rest|] == ms[j];
    }
  }

  /** A migration that is tried without force is on record by then exactly when its version repeats. */
  lemma StillToCome(ms: seq<Migration>, i: nat, applied: map<string, string>, o: Options)
    requires i < |ms| && !o.dryRun && o.rerun != Some(ms[i].version) && ms[i].version !in applied
    requires forall j :: 0 <= j < i ==> StepAt(ms, j, applied, o) != Halt
    ensures ms[i].version in Recorded(applied, Chosen(ms, i, applied, o)) <==> Repeats(ms, i)
  {
    var done := Chosen(ms, i, applied, o);
    RecordedHas(applied, done, ms[i].version);
    forall k | 0 <= k < |done| && done[k].version == ms[i].version ensures Repeats(ms, i) {
      ChosenAmong(ms, i, applied, o, k);
    }
    if Repeats(ms, i) {
      var j :| 0 <= j < i && ms[j].version == ms[i].version;
      assert StepAt(ms, j, applied, o) == Apply;
      ChosenHolds(ms, i, applied, o, j);
    }
  }

  /** What a try comes to, by what is on record when it is made. */
  lemma Tried(ms: seq<Migration>, i: nat, applied: map<string, string>, o: Options)
    requires i < |ms| && !o.dryRun && (o.rerun == Some(ms[i].version) || ms[i].version !in applied)
    requires forall j :: 0 <= j < i ==> StepAt(ms, j, applied, o) != Halt
    ensures var left := o.rerun == Some(ms[i].version) || ms[i].version !in Recorded(applied, Chosen(ms, i, applied, o));
            StepAt(ms, i, applied, o) == if !ms[i].controlsTransaction && i !in o.fails && left then Apply else Halt
  {
    if o.rerun != Some(ms[i].version) {
      StillToCome(ms, i, applied, o);
    }
  }

  lemma ChosenNext(ms: seq<Migration>, i: nat, applied: map<string, string>, o: Options, committed: seq<Migration>)
    requires i < |ms|
    ensures var done, next := Chosen(ms, i, applied, o), Chosen(ms, i + 1, applied, o);
            if StepAt(ms, i, applied, o) == Apply then
              && Recorded(applied, next) == Recorded(applied, done)[ms[i].version := ms[i].sql]
              && committed + next == committed + done + [ms[i]]
            else next == done
  {
    var done := Chosen(ms, i, applied, o);
    RecordedOne(applied, done, ms[i]);
    assert committed + (done + [ms[i]]) == committed + done + [ms[i]];
  }

  // ---------------------------------------------------------------- what a run means

  /** The migrations at the given positions. */
  function At(ms: seq<Migration>, ran: seq<nat>): (done: seq<Migration>)
    requires forall k :: 0 <= k < |ran| ==> ran[k] < |ms|
    ensures |done| == |ran| && forall k :: 0 <= k < |ran| ==> done[k] == ms[ran[k]]
  {
    seq(|ran|, k requires 0 <= k < |ran| => ms[ran[k]])
  }

  ghost predicate Increasing(ran: seq<nat>, stop: nat) {
    && (forall k :: 0 <= k < |ran| ==> ran[k] < stop)
    && (forall j, k :: 0 <= j < k < |ran| ==> ran[j] < ran[k])
  }

  /** Migration i is on record with another text, and is not forced. */
  ghost predicate Changed(ms: seq<Migration>, i: nat, before: map<string, string>, o: Options)
    requires i < |ms|
  {
    o.rerun != Some(ms[i].version) && ms[i].version in before && before[ms[i].version] != ms[i].sql
  }

  /** Migration i is to be executed: it is forced or not on record, and the run is no dry one. */
  ghost predicate Due(ms: seq<Migration>, i: nat, before: map<string, string>, o: Options)
    requires i < |ms|
  {
    !o.dryRun && (o.rerun == Some(ms[i].version) || ms[i].version !in before)
  }

  /** Executing migration i fails. */
  ghost predicate Fails(ms: seq<Migration>, i: nat, o: Options)
    requires i < |ms|
  {
    ms[i].controlsTransaction || i in o.fails || (o.rerun != Some(ms[i].version) && Repeats(ms, i))
  }

  /** A run ends before the first migration that was changed or that fails when it is due; exactly the due
      ones before that are executed, in order. */
  ghost predicate Ran(ms: seq<Migration>, before: map<string, string>, o: Options, stop: nat, ran: seq<nat>) {
    && stop <= |ms| && Increasing(ran, stop)
    && (forall i :: 0 <= i < stop ==> !Changed(ms, i, before, o) && !(Due(ms, i, before, o) && Fails(ms, i, o)))
    && (stop < |ms| ==> Changed(ms, stop, before, o) || (Due(ms, stop, before, o) && Fails(ms, stop, o)))
    && (forall i :: 0 <= i < stop ==> (i in ran <==> Due(ms, i, before, o)))
  }

  /** The positions of the migrations applied among the first i. */
  ghost function Positions(ms: seq<Migration>, i: nat, before: map<string, string>, o: Options): seq<nat>
    requires i <= |ms|
  {
    if i == 0 then []
    else if StepAt(ms, i - 1, before, o) == Apply then Positions(ms, i - 1, before, o) + [i - 1]
    else Positions(ms, i - 1, before, o)
  }

  lemma OneMore(ms: seq<Migration>, ran: seq<nat>, i: nat)
    requires Increasing(ran, i) && i < |ms|
    ensures Increasing(ran + [i], i + 1) && At(ms, ran + [i]) == At(ms, ran) + [ms[i]]
    ensures forall j :: j in ran + [i] <==> j in ran || j == i
  {
    assert (ran + [i])[|ran|] == i;
  }

  lemma {:induction false} PositionsAre(ms: seq<Migration>, i: nat, before: map<string, string>, o: Options)
    requires i <= |ms|
    ensures var ran := Positions(ms, i, before, o);
            && Increasing(ran, i) && At(ms, ran) == Chosen(ms, i, before, o)
            && forall j :: 0 <= j < i ==> (j in ran <==> StepAt(ms, j, before, o) == Apply)
  {
    if i > 0 {
      var p := i - 1;
      PositionsAre(ms, p, before, o);
      OneMore(ms, Positions(ms, p, before, o), p);
    }
  }

  lemma StepMeans(ms: seq<Migration>, i: nat, before: map<string, string>, o: Options)
    requires i < |ms|
    ensures StepAt(ms, i, before, o) == Halt <==>
            Changed(ms, i, before, o) || (Due(ms, i, before, o) && Fails(ms, i, o))
    ensures StepAt(ms, i, before, o) == Apply <==> Due(ms, i, before, o) && !Fails(ms, i, o)
  {
  }

  lemma RunMeans(ms: seq<Migration>, stop: nat, before: map<string, string>, o: Options)
    requires StopsAt(ms, stop, before, o)
    ensures Ran(ms, before, o, stop, Positions(ms, stop, before, o))
    ensures At(ms, Positions(ms, stop, before, o)) == Chosen(ms, stop, before, o)
  {
    PositionsAre(ms, stop, before, o);
    forall i: nat | i < |ms|
      ensures StepAt(ms, i, before, o) == Halt <==>
              Changed(ms, i, before, o) || (Due(ms, i, before, o) && Fails(ms, i, o))
      ensures StepAt(ms, i, before, o) == Apply <==> Due(ms, i, before, o) && !Fails(ms, i, o)
    {
      StepMeans(ms, i, before, o);
    }
  }

  lemma {:induction false} RecordedLast(before: map<string, string>, done: seq<Migration>, k: nat)
    requires k < |done| && forall j :: k < j < |done| ==> done[j].version != done[k].version
    ensures done[k].version in Recorded(before, done) && Recorded(before, done)[done[k].version] == done[k].sql
    decreases |done|
  {
    if k < |done| - 1 {
      RecordedLast(before, done[..|done| - 1], k);
    }
  }

  /** What is on record stays as it is through a run, unless it is forced. */
  lemma RecordStays(
    ms: seq<Migration>, before: map<string, string>, o: Options, stop: nat, ran: seq<nat>, v: string)
    requires Ran(ms, before, o, stop, ran) && v in before && o.rerun != Some(v)
    ensures v in Recorded(before, At(ms, ran)) && Recorded(before, At(ms, ran))[v] == before[v]
  {
    var done := At(ms, ran);
    forall k | 0 <= k < |done| ensures done[k].version != v {
      assert ran[k] in ran && Due(ms, ran[k], before, o);
    }
    RecordedHas(before, done, v);
  }

  /** A successful run that is no dry one leaves every migration it did not force on record with its text. */
  lemma AllOnRecord(ms: seq<Migration>, before: map<string, string>, o: Options, ran: seq<nat>, i: nat)
    requires Ran(ms, before, o, |ms|, ran) && !o.dryRun && i < |ms| && o.rerun != Some(ms[i].version)
    ensures var recorded := Recorded(before, At(ms, ran));
            ms[i].version in recorded && recorded[ms[i].version] == ms[i].sql
  {
    if ms[i].version in before {
      assert !Changed(ms, i, before, o);
      RecordStays(ms, before, o, |ms|, ran, ms[i].version);
    } else {
      var done := At(ms, ran);
      assert Due(ms, i, before, o) && i in ran;
      var k :| 0 <= k < |ran| && ran[k] == i;
      forall j | k < j < |done| ensures done[j].version != done[k].version {
        assert ran[j] in ran && !Fails(ms, ran[j], o);
        var y := ran[j];
        assert ran[k] < y;
        var repeats := Repeats(ms, y);
        assert ms[y].version == ms[i].version ==> repeats;
      }
      RecordedLast(before, done, k);
    }
  }

  // ---------------------------------------------------------------- runs over lists that change

  /** One call of the runner: the files it finds and its options. */
  datatype Request = Request(ms: seq<Migration>, o: Options)

  /** No run from i to j forces the version. */
  ghost predicate NotForced(rs: seq<Request>, i: nat, j: nat, v: string)
    requires i <= j < |rs|
  {
    forall k :: i <= k <= j ==> rs[k].o.rerun != Some(v)
  }

  /** The migrations of run i are on record with the texts it found, but for those forced since. */
  ghost predicate OnRecord(rs: seq<Request>, i: nat, j: nat, recorded: map<string, string>)
    requires i <= j < |rs|
  {
    forall x :: 0 <= x < |rs[i].ms| && NotForced(rs, i, j, rs[i].ms[x].version) ==>
      rs[i].ms[x].version in recorded && recorded[rs[i].ms[x].version] == rs[i].ms[x].sql
  }

  /** Runs i and j found the same text under every version that is in both and was not forced since run i. */
  ghost predicate SameTexts(rs: seq<Request>, i: nat, j: nat)
    requires i <= j < |rs|
  {
    forall x, y ::
      (0 <= x < |rs[i].ms| && 0 <= y < |rs[j].ms| && rs[i].ms[x].version == rs[j].ms[y].version
       && NotForced(rs, i, j, rs[i].ms[x].version)) ==> rs[i].ms[x].sql == rs[j].ms[y].sql
  }

  /** A version is executed a second time only when some run forces it. */
  ghost predicate OnceUnlessForced(committed: seq<Migration>, rs: seq<Request>) {
    forall p, q :: 0 <= p < q < |committed| && committed[p].version == committed[q].version ==>
      ForcedIn(rs, committed[q].version)
  }

  ghost predicate ForcedIn(rs: seq<Request>, v: string) {
    exists k :: 0 <= k < |rs| && rs[k].o.rerun == Some(v)
  }

  ghost predicate AllRecorded(committed: seq<Migration>, recorded: map<string, string>) {
    forall p :: 0 <= p < |committed| ==> committed[p].version in recorded
  }

  /** A later successful run found the texts an earlier one left on record. */
  lemma LaterAgrees(rs: seq<Request>, i: nat, j: nat, recorded: map<string, string>, ran: seq<nat>)
    requires i < j < |rs| && OnRecord(rs, i, j - 1, recorded) && Ran(rs[j].ms, recorded, rs[j].o, |rs[j].ms|, ran)
    ensures SameTexts(rs, i, j)
  {
    forall x, y | 0 <= x < |rs[i].ms| && 0 <= y < |rs[j].ms| && rs[i].ms[x].version == rs[j].ms[y].version
                  && NotForced(rs, i, j, rs[i].ms[x].version)
      ensures rs[i].ms[x].sql == rs[j].ms[y].sql
    {
      assert NotForced(rs, i, j - 1, rs[i].ms[x].version);
      assert !Changed(rs[j].ms, y, recorded, rs[j].o);
    }
  }

  lemma StillOnRecord(rs: seq<Request>, i: nat, j: nat, recorded: map<string, string>, stop: nat, ran: seq<nat>)
    requires i < j < |rs| && OnRecord(rs, i, j - 1, recorded) && Ran(rs[j].ms, recorded, rs[j].o, stop, ran)
    ensures OnRecord(rs, i, j, Recorded(recorded, At(rs[j].ms, ran)))
  {
    forall x | 0 <= x < |rs[i].ms| && NotForced(rs, i, j, rs[i].ms[x].version)
      ensures var v, after := rs[i].ms[x].version, Recorded(recorded, At(rs[j].ms, ran));
              v in after && after[v] == rs[i].ms[x].sql
    {
      assert NotForced(rs, i, j - 1, rs[i].ms[x].version);
      RecordStays(rs[j].ms, recorded, rs[j].o, stop, ran, rs[i].ms[x].version);
    }
  }

  lemma NowOnRecord(rs: seq<Request>, j: nat, recorded: map<string, string>, ran: seq<nat>)
    requires j < |rs| && Ran(rs[j].ms, recorded, rs[j].o, |rs[j].ms|, ran) && !rs[j].o.dryRun
    ensures OnRecord(rs, j, j, Recorded(recorded, At(rs[j].ms, ran)))
  {
    forall x | 0 <= x < |rs[j].ms| && NotForced(rs, j, j, rs[j].ms[x].version)
      ensures var v, after := rs[j].ms[x].version, Recorded(recorded, At(rs[j].ms, ran));
              v in after && after[v] == rs[j].ms[x].sql
    {
      AllOnRecord(rs[j].ms, recorded, rs[j].o, ran, x);
    }
  }

  lemma OnceStep(
    rs: seq<Request>, j: nat, recorded: map<string, string>, committed: seq<Migration>, stop: nat, ran: seq<nat>)
    requires j < |rs| && Ran(rs[j].ms, recorded, rs[j].o, stop, ran)
    requires OnceUnlessForced(committed, rs) && AllRecorded(committed, recorded)
    ensures OnceUnlessForced(committed + At(rs[j].ms, ran), rs)
    ensures AllRecorded(committed + At(rs[j].ms, ran), Recorded(recorded, At(rs[j].ms, ran)))
  {
    var ms, o, done := rs[j].ms, rs[j].o, At(rs[j].ms, ran);
    var all := committed + done;
    forall q | 0 <= q < |all| ensures all[q].version in Recorded(recorded, done) {
      RecordedHas(recorded, done, all[q].version);
      assert q >= |committed| ==> done[q - |committed|].version == all[q].version;
    }
    forall p, q | 0 <= p < q < |all| && all[p].version == all[q].version ensures ForcedIn(rs, all[q].version) {
      if q >= |committed| {
        var y := ran[q - |committed|];
        assert y in ran && Due(ms, y, recorded, o) && !Fails(ms, y, o);
        if p >= |committed| {
          assert ran[p - |committed|] < y;
          assert o.rerun != Some(ms[y].version) ==> Repeats(ms, y);
        }
        assert o.rerun == Some(all[q].version);
      }
    }
  }

  lemma PlainStep(recorded: map<string, string>, committed: seq<Migration>, ms: seq<Migration>, n: nat, i: nat, o: Options)
    requires Distinct(ms) && AppliedExactly(recorded, committed, ms, n) && i < |ms| && o.rerun.None?
    ensures StepAt(ms, i, recorded, o) ==
            if i < n || o.dryRun then Skip else if ms[i].controlsTransaction || i in o.fails then Halt else Apply
  {
    AppliedKnows(recorded, committed, ms, n, i);
  }

  /** With exactly the first n applied before, a plain run applies exactly those from n up to its stop. */
  lemma {:induction false} PlainRunChooses(
    recorded: map<string, string>, committed: seq<Migration>, ms: seq<Migration>, n: nat, i: nat, o: Options)
    requires Distinct(ms) && AppliedExactly(recorded, committed, ms, n) && i <= |ms| && o.rerun.None?
    requires forall j :: 0 <= j < i ==> StepAt(ms, j, recorded, o) != Halt
    ensures var k := if o.dryRun || i <= n then n else i;
            AppliedExactly(Recorded(recorded, Chosen(ms, i, recorded, o)), committed + Chosen(ms, i, recorded, o), ms, k)
  {
    if i > 0 {
      var p := i - 1;
      PlainRunChooses(recorded, committed, ms, n, p, o);
      PlainStep(recorded, committed, ms, n, p, o);
      var done := Chosen(ms, p, recorded, o);
      if StepAt(ms, p, recorded, o) == Apply {
        RecordedOne(recorded, done, ms[p]);
        AppliedNext(Recorded(recorded, done), committed + done, ms, p);
        assert committed + (done + [ms[p]]) == committed + done + [ms[p]];
      }
    } else {
      assert committed + [] == committed;
    }
  }

  class Database {
    var recorded: map<string, string>      // schema_migrations: version and checksum
    ghost var committed: seq<Migration>    // what was executed and committed, in order

    constructor ()
      ensures recorded == map[] && committed == []
    {
      recorded, committed := map[], [];
    }

    /** One transaction: the text is executed and recorded together, or nothing happens. */
    method ApplyOne(m: Migration, rerun: bool, fails: bool) returns (ok: bool)
      modifies this
      ensures ok <==> !m.controlsTransaction && !fails && (rerun || m.version !in old(recorded))
      ensures ok ==> recorded == old(recorded)[m.version := m.sql] && committed == old(committed) + [m]
      ensures !ok ==> recorded == old(recorded) && committed == old(committed)
    {
      if m.controlsTransaction {
        return false;
      }
      var left := if rerun then recorded - {m.version} else recorded;
      if fails || m.version in left {
        return false;
      }
      recorded := left[m.version := m.sql];
      committed := committed + [m];
      return true;
    }

    /** One run over the migrations in order. It succeeds exactly when none was changed since it was recorded
        and none that is due fails; otherwise it ends before the first that does, and neither that one nor any
        later one is executed. What is executed is recorded. */
    method Run(ms: seq<Migration>, o: Options) returns (code: nat, ghost stop: nat, ghost ran: seq<nat>)
      modifies this
      ensures Ran(ms, old(recorded), o, stop, ran)
      ensures code == if stop == |ms| then 0 else 1
      ensures code == 0 ==>
                forall i :: 0 <= i < |ms| && ms[i].version in old(recorded) && o.rerun != Some(ms[i].version) ==>
                  old(recorded)[ms[i].version] == ms[i].sql
      ensures forall i :: 0 <= i < |ms| && ms[i].version in old(recorded) && o.rerun != Some(ms[i].version)
                          && old(recorded)[ms[i].version] != ms[i].sql ==>
                code == 1 && forall k :: 0 <= k < |ran| ==> ran[k] < i
      ensures forall v :: v in old(recorded) && o.rerun != Some(v) ==> v in recorded && recorded[v] == old(recorded)[v]
      ensures code == 0 && !o.dryRun ==>
                forall i :: 0 <= i < |ms| && o.rerun != Some(ms[i].version) ==>
                  ms[i].version in recorded && recorded[ms[i].version] == ms[i].sql
      ensures recorded == Recorded(old(recorded), At(ms, ran))
      ensures committed == old(committed) + At(ms, ran)
      ensures StopsAt(ms, stop, old(recorded), o) && At(ms, ran) == Chosen(ms, stop, old(recorded), o)
    {
      code, stop := Process(ms, o);
      ghost var before := old(recorded);
      ran := Positions(ms, stop, before, o);
      RunMeans(ms, stop, before, o);
      forall i | 0 <= i < |ms| && ms[i].version in before && o.rerun != Some(ms[i].version) && before[ms[i].version] != ms[i].sql
        ensures stop <= i
      {
        assert Changed(ms, i, before, o);
      }
      forall v | v in before && o.rerun != Some(v) ensures v in recorded && recorded[v] == before[v] {
        RecordStays(ms, before, o, stop, ran, v);
      }
      if code == 0 && !o.dryRun {
        forall i | 0 <= i < |ms| && o.rerun != Some(ms[i].version)
          ensures ms[i].version in recorded && recorded[ms[i].version] == ms[i].sql
        {
          AllOnRecord(ms, before, o, ran, i);
        }
      }
    }

    /** The loop of a run. */
    method Process(ms: seq<Migration>, o: Options) returns (code: nat, ghost stop: nat)
      modifies this
      ensures StopsAt(ms, stop, old(recorded), o)
      ensures code == if stop == |ms| then 0 else 1
      ensures recorded == Recorded(old(recorded), Chosen(ms, stop, old(recorded), o))
      ensures committed == old(committed) + Chosen(ms, stop, old(recorded), o)
    {
      var applied := recorded;
      for i := 0 to |ms|
        invariant forall j :: 0 <= j < i ==> StepAt(ms, j, applied, o) != Halt
        invariant recorded == Recorded(applied, Chosen(ms, i, applied, o))
        invariant committed == old(committed) + Chosen(ms, i, applied, o)
      {
        var m := ms[i];
        ChosenNext(ms, i, applied, o, old(committed));
        if o.rerun != Some(m.version) && m.version in applied {
          if applied[m.version] != m.sql {
            return 1, i;
          }
        } else if !o.dryRun {
          Tried(ms, i, applied, o);
          var ok := ApplyOne(m, o.rerun == Some(m.version), i in o.fails);
          if !ok {
            return 1, i;
          }
        }
      }
      return 0, |ms|;
    }

    /** A run, dry or not, that finds exactly the first n migrations applied leaves exactly the first k
        applied: all of them when it succeeds, all before the one that halted it when it does not. */
    method RunPlain(ms: seq<Migration>, dryRun: bool, fails: set<nat>, ghost n: nat) returns (code: nat, ghost k: nat)
      requires Distinct(ms) && AppliedExactly(recorded, committed, ms, n)
      modifies this
      ensures AppliedExactly(recorded, committed, ms, k) && n <= k
      ensures dryRun ==> code == 0 && k == n
      ensures !dryRun ==> (code == 0 <==> k == |ms|)
      ensures code == 1 ==> ms[k].controlsTransaction || k in fails
      ensures forall j :: n <= j < k ==> !ms[j].controlsTransaction && j !in fails
      ensures n == |ms| ==> code == 0 && recorded == old(recorded) && committed == old(committed)
    {
      var o := Options(dryRun, None, fails);
      ghost var before, done := recorded, committed;
      ghost var s;
      ghost var ran;
      code, s, ran := Run(ms, o);
      PlainRunChooses(before, done, ms, n, s, o);
      forall j | 0 <= j < |ms|
        ensures StepAt(ms, j, before, o) ==
                if j < n || dryRun then Skip else if ms[j].controlsTransaction || j in fails then Halt else Apply
      {
        PlainStep(before, done, ms, n, j, o);
      }
      k := if dryRun || s <= n then n else s;
    }

    /** Any sequence of runs of the same migrations, each of which may be dry or fail anywhere. */
    method RunAll(ms: seq<Migration>, runs: seq<(bool, set<nat>)>) returns (codes: seq<nat>, ghost k: nat)
      requires Distinct(ms) && recorded == map[] && committed == []
      modifies this
      ensures AppliedExactly(recorded, committed, ms, k) && |codes| == |runs|
      ensures (exists i :: 0 <= i < |runs| && !runs[i].0 && codes[i] == 0) ==> k == |ms|
    {
      codes, k := [], 0;
      for i := 0 to |runs|
        invariant AppliedExactly(recorded, committed, ms, k) && |codes| == i
        invariant (exists j :: 0 <= j < i && !runs[j].0 && codes[j] == 0) ==> k == |ms|
      {
        var code;
        code, k := RunPlain(ms, runs[i].0, runs[i].1, k);
        codes := codes + [code];
      }
    }

    /** Any sequence of runs, each over files of its own. Two successful runs of which the earlier one was no
        dry one found the same text under every version they share, unless a run since forced it: once a
        migration has been applied, a run that finds it changed does not succeed. No version is executed
        twice unless it is forced. */
    method RunLists(rs: seq<Request>) returns (codes: seq<nat>)
      requires recorded == map[] && committed == []
      modifies this
      ensures |codes| == |rs|
      ensures forall i, j :: 0 <= i < j < |rs| && codes[i] == 0 && codes[j] == 0 && !rs[i].o.dryRun ==> SameTexts(rs, i, j)
      ensures OnceUnlessForced(committed, rs)
    {
      codes := [];
      for n := 0 to |rs|
        invariant |codes| == n && OnceUnlessForced(committed, rs) && AllRecorded(committed, recorded)
        invariant forall i :: 0 <= i < n && codes[i] == 0 && !rs[i].o.dryRun ==> OnRecord(rs, i, n - 1, recorded)
        invariant forall i, j :: 0 <= i < j < n && codes[i] == 0 && codes[j] == 0 && !rs[i].o.dryRun ==> SameTexts(rs, i, j)
      {
        ghost var before, done := recorded, committed;
        var code;
        ghost var stop, ran;
        code, stop, ran := Run(rs[n].ms, rs[n].o);
        OnceStep(rs, n, before, done, stop, ran);
        forall i | 0 <= i < n && codes[i] == 0 && !rs[i].o.dryRun
          ensures OnRecord(rs, i, n, recorded) && (code == 0 ==> SameTexts(rs, i, n))
        {
          StillOnRecord(rs, i, n, before, stop, ran);
          if code == 0 {
            LaterAgrees(rs, i, n, before, ran);
          }
        }
        if code == 0 && !rs[n].o.dryRun {
          NowOnRecord(rs, n, before, ran);
        }
        codes := codes + [code];
      }
    }
  }
}
