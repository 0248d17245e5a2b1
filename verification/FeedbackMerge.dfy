/** Sales feedback: folding duplicate events in place, and counting events when the notes of one client
    are merged. */
module FeedbackMerge {

  /** An event with its duplicate key (empty when it cannot be identified), whether it is dated, and its
      sender (empty when unknown). */
  datatype Event = Event(key: string, dated: bool, sender: string, text: string)

  // ---------------------------------------------------------------- the declarative form

  /** The events of one key, in order. */
  function Group(es: seq<Event>, k: string): seq<Event> {
    if es == [] then []
    else
      var g, e := Group(es[..|es| - 1], k), es[|es| - 1];
      if e.key == k then g + [e] else g
  }

  predicate AnyDated(g: seq<Event>) {
    exists i :: 0 <= i < |g| && g[i].dated
  }

  function FirstDated(g: seq<Event>): Event
    requires AnyDated(g)
  {
    if g[0].dated then g[0] else FirstDated(g[1..])
  }

  /** The first known sender of a group; empty when there is none. */
  function FirstSender(g: seq<Event>): string {
    if g == [] then "" else if g[0].sender != "" then g[0].sender else FirstSender(g[1..])
  }

  /** What stands for a group: its first dated event, else its first, with a missing sender filled in. */
  function Representative(g: seq<Event>): Event
    requires g != []
  {
    var e := if AnyDated(g) then FirstDated(g) else g[0];
    if e.sender == "" then e.(sender := FirstSender(g)) else e
  }

  /** Positions of unidentifiable events and of first occurrences of a key. */
  function Firsts(es: seq<Event>): (f: seq<nat>)
    ensures |f| <= |es| && forall t :: 0 <= t < |f| ==> f[t] < |es|
  {
    if es == [] then []
    else
      var n := |es| - 1;
      var f := Firsts(es[..n]);
      if es[n].key == "" || Group(es[..n], es[n].key) == [] then f + [n] else f
  }

  function Standing(es: seq<Event>, i: nat): Event
    requires i < |es|
  {
    var g := Group(es, es[i].key);
    if es[i].key == "" || g == [] then es[i] else Representative(g)
  }

  lemma {:induction false} InItsGroup(es: seq<Event>, i: nat)
    requires i < |es|
    ensures Group(es, es[i].key) != []
  {
    if i < |es| - 1 {
      InItsGroup(es[..|es| - 1], i);
    }
  }

  /** `out` is the folding of `es`: one entry per first position, in order. */
  ghost predicate Folded(es: seq<Event>, out: seq<Event>) {
    var f := Firsts(es);
    && |out| == |f|
    && forall t :: 0 <= t < |f| ==> out[t] == Standing(es, f[t])
  }

  // ---------------------------------------------------------------- the fold as it is computed

  /** What the loop keeps of a standing event and a duplicate of it. */
  function Keep(old_: Event, e: Event): Event {
    var keep, drop := if e.dated && !old_.dated then e else old_, if e.dated && !old_.dated then old_ else e;
    if keep.sender == "" && drop.sender != "" then keep.(sender := drop.sender) else keep
  }

  lemma {:induction false} FirstSenderGrows(g: seq<Event>, e: Event)
    ensures FirstSender(g + [e]) == if FirstSender(g) != "" then FirstSender(g) else e.sender
  {
    if g == [] {
      assert g + [e] == [e];
    } else {
      assert (g + [e])[1..] == g[1..] + [e];
      FirstSenderGrows(g[1..], e);
    }
  }

  lemma {:induction false} FirstDatedGrows(g: seq<Event>, e: Event)
    requires AnyDated(g + [e])
    ensures FirstDated(g + [e]) == if AnyDated(g) then FirstDated(g) else e
  {
    if g == [] {
      assert g + [e] == [e];
    } else {
      assert (g + [e])[1..] == g[1..] + [e];
      if !g[0].dated {
        var i :| 0 <= i < |g + [e]| && (g + [e])[i].dated;
        assert (g[1..] + [e])[i - 1].dated;
        FirstDatedGrows(g[1..], e);
        if AnyDated(g) {
          var j :| 0 <= j < |g| && g[j].dated;
          assert g[1..][j - 1].dated;
        } else {
          assert !AnyDated(g[1..]);
        }
      }
    }
  }

  lemma AnyDatedGrows(g: seq<Event>, e: Event)
    ensures AnyDated(g + [e]) <==> AnyDated(g) || e.dated
  {
    var h := g + [e];
    assert h[|g|] == e;
    if i :| 0 <= i < |g| && g[i].dated {
      assert h[i].dated;
    }
    if AnyDated(h) && !e.dated {
      var i :| 0 <= i < |h| && h[i].dated;
      assert g[i].dated;
    }
  }

  lemma FirstDatedIsDated(g: seq<Event>)
    requires AnyDated(g)
    ensures FirstDated(g).dated
  {
  }

  lemma RepresentativeAlone(e: Event)
    ensures Representative([e]) == e
  {
    assert [e][0] == e;
    assert FirstSender([e]) == e.sender;
  }

  /** Folding one more duplicate in is what the representative of the longer group says. */
  lemma RepresentativeGrows(g: seq<Event>, e: Event)
    requires g != []
    ensures Representative(g + [e]) == Keep(Representative(g), e)
  {
    var h := g + [e];
    AnyDatedGrows(g, e);
    FirstSenderGrows(g, e);
    if AnyDated(g) {
      FirstDatedIsDated(g);
      FirstDatedGrows(g, e);
    } else if e.dated {
      FirstDatedGrows(g, e);
      assert !g[0].dated;
    }
    assert h[0] == g[0];
  }

  lemma GroupStep(es: seq<Event>, n: nat, k: string)
    requires n < |es|
    ensures Group(es[..n + 1], k) == if es[n].key == k then Group(es[..n], k) + [es[n]] else Group(es[..n], k)
  {
    assert es[..n + 1][..n] == es[..n];
  }

  lemma FirstsStep(es: seq<Event>, n: nat)
    requires n < |es|
    ensures Firsts(es[..n + 1])
            == if es[n].key == "" || Group(es[..n], es[n].key) == [] then Firsts(es[..n]) + [n] else Firsts(es[..n])
  {
    assert es[..n + 1][..n] == es[..n];
  }

  /** The entries so far: unidentifiable events as they are, and for every key its place. */
  ghost predicate OutFits(es: seq<Event>, f: seq<nat>, out: seq<Event>, seen: map<string, nat>)
    requires forall t :: 0 <= t < |f| ==> f[t] < |es|
  {
    && |out| == |f|
    && (forall t :: 0 <= t < |f| && es[f[t]].key == "" ==> out[t] == es[f[t]])
    && (forall t :: 0 <= t < |f| && es[f[t]].key != "" ==> es[f[t]].key in seen && seen[es[f[t]].key] == t)
  }

  /** The keys seen among the first n events, each with the representative of its events. */
  ghost predicate SeenFits(es: seq<Event>, n: nat, f: seq<nat>, out: seq<Event>, seen: map<string, nat>)
    requires n <= |es| && |out| == |f| && forall t :: 0 <= t < |f| ==> f[t] < |es|
  {
    && (forall k :: k in seen <==> k != "" && Group(es[..n], k) != [])
    && (forall k <- seen :: seen[k] < |f| && es[f[seen[k]]].key == k && out[seen[k]] == Representative(Group(es[..n], k)))
  }

  /** Where the loop stands after `n` events. */
  ghost predicate FoldedUpTo(es: seq<Event>, n: nat, out: seq<Event>, seen: map<string, nat>)
    requires n <= |es|
  {
    var f := Firsts(es[..n]);
    OutFits(es, f, out, seen) && SeenFits(es, n, f, out, seen)
  }

  lemma GroupsStep(es: seq<Event>, n: nat)
    requires n < |es|
    ensures forall x :: Group(es[..n + 1], x) == if es[n].key == x then Group(es[..n], x) + [es[n]] else Group(es[..n], x)
  {
    forall x: string
      ensures Group(es[..n + 1], x) == if es[n].key == x then Group(es[..n], x) + [es[n]] else Group(es[..n], x)
    {
      GroupStep(es, n, x);
    }
  }

  lemma FoldUnkeyed(es: seq<Event>, n: nat, out: seq<Event>, seen: map<string, nat>)
    requires n < |es| && FoldedUpTo(es, n, out, seen) && es[n].key == ""
    ensures FoldedUpTo(es, n + 1, out + [es[n]], seen)
  {
    FirstsStep(es, n);
    var f := Firsts(es[..n]);
    assert Firsts(es[..n + 1]) == f + [n];
    OutUnkeyed(es, n, f, out, seen);
    SeenUnkeyed(es, n, f, out, seen);
  }

  lemma OutUnkeyed(es: seq<Event>, n: nat, f: seq<nat>, out: seq<Event>, seen: map<string, nat>)
    requires n < |es| && (forall t :: 0 <= t < |f| ==> f[t] < |es|) && es[n].key == "" && OutFits(es, f, out, seen)
    ensures OutFits(es, f + [n], out + [es[n]], seen)
  {
    var g := f + [n];
    forall t | 0 <= t < |f| ensures g[t] == f[t] && (out + [es[n]])[t] == out[t] {
    }
  }

  lemma SeenUnkeyed(es: seq<Event>, n: nat, f: seq<nat>, out: seq<Event>, seen: map<string, nat>)
    requires n < |es| && |out| == |f| && (forall t :: 0 <= t < |f| ==> f[t] < |es|)
    requires es[n].key == "" && SeenFits(es, n, f, out, seen)
    ensures SeenFits(es, n + 1, f + [n], out + [es[n]], seen)
  {
    GroupsStep(es, n);
    var g, out' := f + [n], out + [es[n]];
    forall k <- seen
      ensures seen[k] < |g| && es[g[seen[k]]].key == k && out'[seen[k]] == Representative(Group(es[..n + 1], k))
    {
      assert g[seen[k]] == f[seen[k]] && out'[seen[k]] == out[seen[k]];
    }
  }

  lemma FoldNew(es: seq<Event>, n: nat, out: seq<Event>, seen: map<string, nat>)
    requires n < |es| && FoldedUpTo(es, n, out, seen) && es[n].key !in seen && es[n].key != ""
    ensures FoldedUpTo(es, n + 1, out + [es[n]], seen[es[n].key := |out|])
  {
    FirstsStep(es, n);
    GroupsStep(es, n);
    var f := Firsts(es[..n]);
    assert Firsts(es[..n + 1]) == f + [n];
    OutNew(es, n, f, out, seen);
    SeenNew(es, n, f, out, seen);
  }

  lemma OutNew(es: seq<Event>, n: nat, f: seq<nat>, out: seq<Event>, seen: map<string, nat>)
    requires n < |es| && (forall t :: 0 <= t < |f| ==> f[t] < |es|) && es[n].key != "" && es[n].key !in seen
    requires OutFits(es, f, out, seen)
    ensures OutFits(es, f + [n], out + [es[n]], seen[es[n].key := |out|])
  {
    var g := f + [n];
    forall t | 0 <= t < |f| ensures g[t] == f[t] && es[f[t]].key != es[n].key {
    }
  }

  lemma SeenNew(es: seq<Event>, n: nat, f: seq<nat>, out: seq<Event>, seen: map<string, nat>)
    requires n < |es| && |out| == |f| && (forall t :: 0 <= t < |f| ==> f[t] < |es|)
    requires es[n].key != "" && es[n].key !in seen && SeenFits(es, n, f, out, seen)
    ensures SeenFits(es, n + 1, f + [n], out + [es[n]], seen[es[n].key := |out|])
  {
    GroupsStep(es, n);
    RepresentativeAlone(es[n]);
    assert Group(es[..n + 1], es[n].key) == [es[n]];
    var g, out', seen' := f + [n], out + [es[n]], seen[es[n].key := |out|];
    forall k <- seen'
      ensures seen'[k] < |g| && es[g[seen'[k]]].key == k && out'[seen'[k]] == Representative(Group(es[..n + 1], k))
    {
      if k != es[n].key {
        assert g[seen[k]] == f[seen[k]] && out'[seen[k]] == out[seen[k]];
        assert Group(es[..n + 1], k) == Group(es[..n], k);
      }
    }
  }

  lemma FoldAgain(es: seq<Event>, n: nat, out: seq<Event>, seen: map<string, nat>)
    requires n < |es| && FoldedUpTo(es, n, out, seen) && es[n].key in seen
    ensures FoldedUpTo(es, n + 1, out[seen[es[n].key] := Keep(out[seen[es[n].key]], es[n])], seen)
  {
    FirstsStep(es, n);
    var f := Firsts(es[..n]);
    assert Firsts(es[..n + 1]) == f;
    OutAgain(es, f, out, seen, seen[es[n].key], Keep(out[seen[es[n].key]], es[n]));
    SeenAgain(es, n, f, out, seen);
  }

  lemma OutAgain(es: seq<Event>, f: seq<nat>, out: seq<Event>, seen: map<string, nat>, j: nat, e: Event)
    requires (forall t :: 0 <= t < |f| ==> f[t] < |es|) && OutFits(es, f, out, seen)
    requires j < |f| && es[f[j]].key != ""
    ensures OutFits(es, f, out[j := e], seen)
  {
  }

  lemma SeenAgain(es: seq<Event>, n: nat, f: seq<nat>, out: seq<Event>, seen: map<string, nat>)
    requires n < |es| && |out| == |f| && (forall t :: 0 <= t < |f| ==> f[t] < |es|)
    requires SeenFits(es, n, f, out, seen) && es[n].key in seen
    ensures SeenFits(es, n + 1, f, out[seen[es[n].key] := Keep(out[seen[es[n].key]], es[n])], seen)
  {
    GroupsStep(es, n);
    var j := seen[es[n].key];
    RepresentativeGrows(Group(es[..n], es[n].key), es[n]);
    var out' := out[j := Keep(out[j], es[n])];
    forall k <- seen
      ensures seen[k] < |f| && es[f[seen[k]]].key == k && out'[seen[k]] == Representative(Group(es[..n + 1], k))
    {
      if k != es[n].key {
        assert seen[k] != j;
      }
    }
  }

  /** Folds the duplicates of an event list into the entry of their first occurrence. */
  method DedupFbEvents(es: seq<Event>) returns (out: seq<Event>)
    ensures Folded(es, out)
  {
    out := [];
    var seen: map<string, nat> := map[];
    for n := 0 to |es|
      invariant FoldedUpTo(es, n, out, seen)
    {
      var e := es[n];
      if e.key == "" {
        FoldUnkeyed(es, n, out, seen);
        out := out + [e];
      } else if e.key !in seen {
        FoldNew(es, n, out, seen);
        seen := seen[e.key := |out|];
        out := out + [e];
      } else {
        FoldAgain(es, n, out, seen);
        var j := seen[e.key];
        out := out[j := Keep(out[j], e)];
      }
    }
    FoldEnds(es, out, seen);
  }

  lemma FoldEnds(es: seq<Event>, out: seq<Event>, seen: map<string, nat>)
    requires FoldedUpTo(es, |es|, out, seen)
    ensures Folded(es, out)
  {
    assert es[..|es|] == es;
    var f := Firsts(es);
    forall t | 0 <= t < |f|
      ensures out[t] == Standing(es, f[t])
    {
      InItsGroup(es, f[t]);
    }
  }

  // ---------------------------------------------------------------- folding twice

  lemma {:induction false} GroupOfKey(es: seq<Event>, k: string)
    ensures forall i :: 0 <= i < |Group(es, k)| ==> Group(es, k)[i].key == k
  {
    if es != [] {
      GroupOfKey(es[..|es| - 1], k);
    }
  }

  lemma FirstDatedAmong(g: seq<Event>, k: string)
    requires AnyDated(g) && forall i :: 0 <= i < |g| ==> g[i].key == k
    ensures FirstDated(g).key == k
  {
  }

  lemma StandingKey(es: seq<Event>, i: nat)
    requires i < |es|
    ensures Standing(es, i).key == es[i].key
  {
    InItsGroup(es, i);
    var g := Group(es, es[i].key);
    GroupOfKey(es, es[i].key);
    if AnyDated(g) {
      FirstDatedAmong(g, es[i].key);
    }
  }

  /** First occurrences of different positions have different keys. */
  lemma {:induction false} FirstsDiffer(es: seq<Event>, t: nat, u: nat)
    requires t < u < |Firsts(es)| && es[Firsts(es)[t]].key != ""
    ensures es[Firsts(es)[t]].key != es[Firsts(es)[u]].key
    decreases |es|
  {
    var n := |es| - 1;
    var f, f' := Firsts(es), Firsts(es[..n]);
    if u < |f'| {
      FirstsDiffer(es[..n], t, u);
    } else {
      InItsGroup(es[..n], f[t]);
    }
  }

  /** A list in which no key repeats. */
  ghost predicate KeysDiffer(es: seq<Event>) {
    forall t, u :: 0 <= t < u < |es| && es[t].key != "" ==> es[t].key != es[u].key
  }

  lemma FoldedDiffer(es: seq<Event>, out: seq<Event>)
    requires Folded(es, out)
    ensures KeysDiffer(out)
  {
    var f := Firsts(es);
    forall t, u | 0 <= t < u < |out| && out[t].key != ""
      ensures out[t].key != out[u].key
    {
      StandingKey(es, f[t]);
      StandingKey(es, f[u]);
      FirstsDiffer(es, t, u);
    }
  }

  lemma {:induction false} GroupEmpty(es: seq<Event>, k: string)
    ensures Group(es, k) == [] <==> forall i :: 0 <= i < |es| ==> es[i].key != k
  {
    if es != [] {
      GroupEmpty(es[..|es| - 1], k);
    }
  }

  lemma {:induction false} GroupAlone(es: seq<Event>, i: nat)
    requires KeysDiffer(es) && i < |es| && es[i].key != ""
    ensures Group(es, es[i].key) == [es[i]]
  {
    var n := |es| - 1;
    if i < n {
      GroupAlone(es[..n], i);
    } else {
      GroupEmpty(es[..n], es[n].key);
    }
  }

  lemma {:induction false} AllFirst(es: seq<Event>)
    requires KeysDiffer(es)
    ensures |Firsts(es)| == |es| && forall t :: 0 <= t < |es| ==> Firsts(es)[t] == t
  {
    if es != [] {
      var n := |es| - 1;
      AllFirst(es[..n]);
      GroupEmpty(es[..n], es[n].key);
    }
  }

  /** Folding is idempotent. */
  lemma FoldIdempotent(es: seq<Event>, out: seq<Event>, again: seq<Event>)
    requires Folded(es, out) && Folded(out, again)
    ensures again == out
  {
    FoldedDiffer(es, out);
    AllFirst(out);
    forall t | 0 <= t < |out|
      ensures again[t] == out[t]
    {
      InItsGroup(out, t);
      if out[t].key != "" {
        GroupAlone(out, t);
        RepresentativeAlone(out[t]);
      }
    }
  }

  // ---------------------------------------------------------------- merging the notes of one client

  /** The identifiable keys of a list, in the order they first occur. */
  function KeysOf(es: seq<Event>): seq<string> {
    if es == [] then []
    else
      var ks, e := KeysOf(es[..|es| - 1]), es[|es| - 1];
      if e.key != "" && e.key !in ks then ks + [e.key] else ks
  }

  function Count(es: seq<Event>, k: string): nat {
    |Group(es, k)|
  }

  /** Events that cannot be identified. */
  function Unkeyed(es: seq<Event>): nat {
    Count(es, "")
  }

  ghost predicate NoRepeats(ks: seq<string>) {
    forall i, j :: 0 <= i < j < |ks| ==> ks[i] != ks[j]
  }

  lemma {:induction false} KeysOfDiffer(es: seq<Event>)
    ensures NoRepeats(KeysOf(es)) && forall k :: k in KeysOf(es) <==> k != "" && Group(es, k) != []
  {
    if es != [] {
      KeysOfDiffer(es[..|es| - 1]);
    }
  }

  function CountAll(es: seq<Event>, ks: seq<string>): nat {
    if ks == [] then 0 else CountAll(es, ks[..|ks| - 1]) + Count(es, ks[|ks| - 1])
  }

  lemma {:induction false} CountAllGrows(es: seq<Event>, e: Event, ks: seq<string>)
    requires NoRepeats(ks)
    ensures CountAll(es + [e], ks) == CountAll(es, ks) + (if e.key in ks then 1 else 0)
  {
    if ks != [] {
      var n := |ks| - 1;
      CountAllGrows(es, e, ks[..n]);
      assert (es + [e])[..|es|] == es;
      assert ks == ks[..n] + [ks[n]];
    }
  }

  lemma {:induction false} CountAllNothing(ks: seq<string>)
    ensures CountAll([], ks) == 0
  {
    if ks != [] {
      CountAllNothing(ks[..|ks| - 1]);
    }
  }

  /** Counting by keys counts every identifiable event once. */
  lemma {:induction false} CountByKeys(es: seq<Event>, ks: seq<string>)
    requires NoRepeats(ks) && forall i :: 0 <= i < |es| ==> es[i].key in ks
    ensures CountAll(es, ks) == |es|
  {
    if es == [] {
      CountAllNothing(ks);
    } else {
      var n := |es| - 1;
      CountByKeys(es[..n], ks);
      CountAllGrows(es[..n], es[n], ks);
      assert es == es[..n] + [es[n]];
    }
  }

  lemma {:induction false} SplitByKeys(es: seq<Event>, ks: seq<string>)
    requires NoRepeats(ks) && "" !in ks && forall i :: 0 <= i < |es| ==> es[i].key == "" || es[i].key in ks
    ensures |es| == Unkeyed(es) + CountAll(es, ks)
  {
    if es == [] {
      CountAllNothing(ks);
    } else {
      var n := |es| - 1;
      SplitByKeys(es[..n], ks);
      CountAllGrows(es[..n], es[n], ks);
      assert es == es[..n] + [es[n]];
    }
  }

  lemma {:induction false} FirstsByKeys(es: seq<Event>)
    ensures |Firsts(es)| == Unkeyed(es) + |KeysOf(es)|
  {
    if es != [] {
      var n := |es| - 1;
      FirstsByKeys(es[..n]);
      KeysOfDiffer(es[..n]);
    }
  }

  // ---------------------------------------------------------------- several notes

  function Flat(members: seq<seq<Event>>): seq<Event> {
    if members == [] then [] else Flat(members[..|members| - 1]) + members[|members| - 1]
  }

  function Total(members: seq<seq<Event>>, k: string): nat {
    if members == [] then 0 else Total(members[..|members| - 1], k) + Count(members[|members| - 1], k)
  }

  /** The most often one single note has the key. */
  function Most(members: seq<seq<Event>>, k: string): nat {
    if members == [] then 0
    else
      var m, c := Most(members[..|members| - 1], k), Count(members[|members| - 1], k);
      if c > m then c else m
  }

  /** Copies beyond the note that has a key most often, over all keys. */
  function Overlap(members: seq<seq<Event>>, ks: seq<string>): int {
    if ks == [] then 0
    else Overlap(members, ks[..|ks| - 1]) + Total(members, ks[|ks| - 1]) - Most(members, ks[|ks| - 1])
  }

  function Sum(raw: seq<nat>): nat {
    if raw == [] then 0 else Sum(raw[..|raw| - 1]) + raw[|raw| - 1]
  }

  /** The feedback count of the merged client. */
  function MergedFb(members: seq<seq<Event>>, raw: seq<nat>): int {
    var flat := Flat(members);
    if flat == [] then Sum(raw)
    else
      var unique, rest := |Firsts(flat)|, Sum(raw) - Overlap(members, KeysOf(flat));
      if unique >= rest then unique else rest
  }

  lemma {:induction false} GroupAppend(a: seq<Event>, b: seq<Event>, k: string)
    ensures Group(a + b, k) == Group(a, k) + Group(b, k)
  {
    if b == [] {
      assert a + b == a;
    } else {
      var n := |b| - 1;
      assert (a + b)[..|a + b| - 1] == a + b[..n];
      GroupAppend(a, b[..n], k);
    }
  }

  lemma {:induction false} TotalIsCount(members: seq<seq<Event>>, k: string)
    ensures Total(members, k) == Count(Flat(members), k)
  {
    if members != [] {
      TotalIsCount(members[..|members| - 1], k);
      GroupAppend(Flat(members[..|members| - 1]), members[|members| - 1], k);
    }
  }

  lemma {:induction false} MostBounds(members: seq<seq<Event>>, k: string)
    ensures Most(members, k) <= Total(members, k) && (Total(members, k) > 0 ==> Most(members, k) > 0)
    ensures forall c :: 0 <= c < |members| ==> Count(members[c], k) <= Most(members, k)
  {
    if members != [] {
      MostBounds(members[..|members| - 1], k);
    }
  }

  lemma {:induction false} OverlapBound(members: seq<seq<Event>>, ks: seq<string>)
    requires forall k <- ks :: Group(Flat(members), k) != []
    ensures 0 <= Overlap(members, ks) && Overlap(members, ks) + |ks| <= CountAll(Flat(members), ks)
  {
    if ks != [] {
      var n := |ks| - 1;
      assert forall k <- ks[..n] :: k in ks;
      OverlapBound(members, ks[..n]);
      TotalIsCount(members, ks[n]);
      MostBounds(members, ks[n]);
    }
  }

  /** Unique events are at most all events less the copies across notes. */
  lemma UniqueBound(members: seq<seq<Event>>)
    ensures |Firsts(Flat(members))| <= |Flat(members)| - Overlap(members, KeysOf(Flat(members)))
    ensures Overlap(members, KeysOf(Flat(members))) >= 0
  {
    var flat := Flat(members);
    var ks := KeysOf(flat);
    KeysOfDiffer(flat);
    FirstsByKeys(flat);
    KeysCover(flat);
    SplitByKeys(flat, ks);
    OverlapBound(members, ks);
  }

  lemma KeysCover(es: seq<Event>)
    ensures forall i :: 0 <= i < |es| ==> es[i].key == "" || es[i].key in KeysOf(es)
  {
    KeysOfDiffer(es);
    forall i | 0 <= i < |es| && es[i].key != ""
      ensures es[i].key in KeysOf(es)
    {
      InItsGroup(es, i);
    }
  }

  // ---------------------------------------------------------------- notes that share nothing

  /** No key occurs in two notes. */
  ghost predicate Unshared(members: seq<seq<Event>>, ks: seq<string>) {
    forall c, d, k :: 0 <= c < d < |members| && k in ks ==> Group(members[c], k) == [] || Group(members[d], k) == []
  }

  lemma {:induction false} MostOfOne(members: seq<seq<Event>>, k: string)
    requires forall c, d :: 0 <= c < d < |members| ==> Group(members[c], k) == [] || Group(members[d], k) == []
    ensures Most(members, k) == Total(members, k)
  {
    if members != [] {
      var n := |members| - 1;
      assert forall c :: 0 <= c < n ==> members[..n][c] == members[c];
      MostOfOne(members[..n], k);
      if Group(members[n], k) != [] {
        NoneHas(members[..n], k);
      }
    }
  }

  lemma {:induction false} NoneHas(members: seq<seq<Event>>, k: string)
    requires forall c :: 0 <= c < |members| ==> Group(members[c], k) == []
    ensures Total(members, k) == 0
  {
    if members != [] {
      assert forall c :: 0 <= c < |members| - 1 ==> members[..|members| - 1][c] == members[c];
      NoneHas(members[..|members| - 1], k);
    }
  }

  lemma {:induction false} NoOverlap(members: seq<seq<Event>>, ks: seq<string>)
    requires Unshared(members, ks)
    ensures Overlap(members, ks) == 0
  {
    if ks != [] {
      var n := |ks| - 1;
      assert forall k <- ks[..n] :: k in ks;
      NoOverlap(members, ks[..n]);
      assert ks[n] in ks;
      MostOfOne(members, ks[n]);
    }
  }

  lemma {:induction false} FlatAtMost(members: seq<seq<Event>>, raw: seq<nat>)
    requires |raw| == |members| && forall c :: 0 <= c < |members| ==> |members[c]| <= raw[c]
    ensures |Flat(members)| <= Sum(raw)
  {
    if members != [] {
      var n := |members| - 1;
      assert forall c :: 0 <= c < n ==> members[..n][c] == members[c] && raw[..n][c] == raw[c];
      FlatAtMost(members[..n], raw[..n]);
    }
  }

  /** Notes that share no event keep all they count, also what carries no key or was not taken apart; notes
      without a single event taken apart keep their counts as they are. */
  lemma UnsharedCountsAdd(members: seq<seq<Event>>, raw: seq<nat>)
    requires |raw| == |members| && forall c :: 0 <= c < |members| ==> |members[c]| <= raw[c]
    requires Unshared(members, KeysOf(Flat(members)))
    ensures MergedFb(members, raw) == Sum(raw)
  {
    NoOverlap(members, KeysOf(Flat(members)));
    FlatAtMost(members, raw);
    UniqueBound(members);
  }

  // ---------------------------------------------------------------- a verbatim copy of a note

  lemma {:induction false} KeysOfAppend(a: seq<Event>, b: seq<Event>)
    requires forall i :: 0 <= i < |b| ==> b[i].key in KeysOf(a)
    ensures KeysOf(a + b) == KeysOf(a) && |Firsts(a + b)| == |Firsts(a)|
    decreases |b|
  {
    if b == [] {
      assert a + b == a;
    } else {
      var n := |b| - 1;
      assert (a + b)[..|a + b| - 1] == a + b[..n];
      assert b[n].key in KeysOf(a);
      KeysOfAppend(a, b[..n]);
      KeysOfDiffer(a);
      GroupAppend(a, b[..n], b[n].key);
    }
  }

  lemma {:induction false} OverlapCopied(members: seq<seq<Event>>, c: nat, ks: seq<string>)
    requires c < |members|
    ensures Overlap(members + [members[c]], ks) == Overlap(members, ks) + CountAll(members[c], ks)
  {
    var more := members + [members[c]];
    assert more[..|members|] == members;
    if ks != [] {
      var n := |ks| - 1;
      OverlapCopied(members, c, ks[..n]);
      MostBounds(members, ks[n]);
    }
  }

  lemma {:induction false} MemberInFlat(members: seq<seq<Event>>, c: nat, k: string)
    requires c < |members| && Group(members[c], k) != []
    ensures Group(Flat(members), k) != []
  {
    var n := |members| - 1;
    GroupAppend(Flat(members[..n]), members[n], k);
    if c < n {
      MemberInFlat(members[..n], c, k);
    }
  }

  lemma MemberKeys(members: seq<seq<Event>>, c: nat)
    requires c < |members| && forall i :: 0 <= i < |members[c]| ==> members[c][i].key != ""
    ensures forall i :: 0 <= i < |members[c]| ==> members[c][i].key in KeysOf(Flat(members))
  {
    KeysOfDiffer(Flat(members));
    forall i | 0 <= i < |members[c]|
      ensures members[c][i].key in KeysOf(Flat(members))
    {
      InItsGroup(members[c], i);
      MemberInFlat(members, c, members[c][i].key);
    }
  }

  lemma {:induction false} NothingFlat(members: seq<seq<Event>>, c: nat)
    requires c < |members| && Flat(members) == []
    ensures members[c] == []
  {
    if c < |members| - 1 {
      NothingFlat(members[..|members| - 1], c);
    }
  }

  /** Adding a verbatim copy of a note whose counted events all carry keys leaves the count unchanged. */
  lemma CopyChangesNothing(members: seq<seq<Event>>, raw: seq<nat>, c: nat)
    requires |raw| == |members| && c < |members| && raw[c] == |members[c]|
    requires forall i :: 0 <= i < |members[c]| ==> members[c][i].key != ""
    ensures MergedFb(members + [members[c]], raw + [raw[c]]) == MergedFb(members, raw)
  {
    var flat, m := Flat(members), members[c];
    var more := members + [m];
    assert more[..|members|] == members && Flat(more) == flat + m;
    assert (raw + [raw[c]])[..|raw|] == raw;
    if flat == [] {
      NothingFlat(members, c);
    } else {
      MemberKeys(members, c);
      KeysOfAppend(flat, m);
      KeysOfDiffer(flat);
      CountByKeys(m, KeysOf(flat));
      OverlapCopied(members, c, KeysOf(flat));
    }
  }

  // ---------------------------------------------------------------- the count as it is computed

  /** The keys of `ks` that `old_` does not have. */
  function NewKeys(ks: seq<string>, old_: seq<string>): seq<string> {
    if ks == [] then []
    else
      var r, k := NewKeys(ks[..|ks| - 1], old_), ks[|ks| - 1];
      if k in old_ then r else r + [k]
  }

  lemma {:induction false} InNewKeys(ks: seq<string>, old_: seq<string>, k: string)
    ensures k in NewKeys(ks, old_) <==> k in ks && k !in old_
  {
    if ks != [] {
      InNewKeys(ks[..|ks| - 1], old_, k);
    }
  }

  lemma {:induction false} KeysOfConcat(a: seq<Event>, b: seq<Event>)
    ensures KeysOf(a + b) == KeysOf(a) + NewKeys(KeysOf(b), KeysOf(a))
    decreases |b|
  {
    if b == [] {
      assert a + b == a;
    } else {
      var n := |b| - 1;
      assert (a + b)[..|a + b| - 1] == a + b[..n];
      KeysOfConcat(a, b[..n]);
      InNewKeys(KeysOf(b[..n]), KeysOf(a), b[n].key);
      var ks, k := KeysOf(b[..n]), b[n].key;
      if k != "" && k !in ks {
        assert (ks + [k])[..|ks|] == ks;
      }
    }
  }

  function Get(m: map<string, nat>, k: string): nat {
    if k in m then m[k] else 0
  }

  lemma CountsStep(es: seq<Event>, n: nat)
    requires n < |es|
    ensures forall x :: Count(es[..n + 1], x) == Count(es[..n], x) + (if es[n].key == x then 1 else 0)
  {
    GroupsStep(es, n);
  }

  /** One note's keys and how often it has them. */
  method MemberCounts(es: seq<Event>) returns (ks: seq<string>, counts: map<string, nat>)
    ensures ks == KeysOf(es)
    ensures forall k :: k != "" ==> Get(counts, k) == Count(es, k)
  {
    ks, counts := [], map[];
    for n := 0 to |es|
      invariant ks == KeysOf(es[..n])
      invariant forall k :: k != "" ==> Get(counts, k) == Count(es[..n], k)
    {
      var k := es[n].key;
      CountsStep(es, n);
      assert es[..n + 1][..n] == es[..n];
      if k != "" {
        if k !in ks {
          ks := ks + [k];
        }
        var counts' := counts[k := Get(counts, k) + 1];
        assert forall x :: Get(counts', x) == Get(counts, x) + (if x == k then 1 else 0);
        counts := counts';
      }
      assert forall x :: Count(es[..n + 1], x) == Count(es[..n], x) + (if k == x then 1 else 0);
    }
    assert es[..|es|] == es;
  }

  /** Adds one note's counts to the running totals and maxima. */
  method AddMember(
    ks: seq<string>, counts: map<string, nat>, order: seq<string>, total: map<string, nat>, most: map<string, nat>)
    returns (order': seq<string>, total': map<string, nat>, most': map<string, nat>)
    requires NoRepeats(ks)
    ensures order' == order + NewKeys(ks, order)
    ensures forall k :: Get(total', k) == Get(total, k) + (if k in ks then Get(counts, k) else 0)
    ensures forall k :: Get(most', k) == if k in ks && Get(counts, k) > Get(most, k) then Get(counts, k) else Get(most, k)
  {
    order', total', most' := order, total, most;
    for j := 0 to |ks|
      invariant order' == order + NewKeys(ks[..j], order)
      invariant forall k :: Get(total', k) == Get(total, k) + (if k in ks[..j] then Get(counts, k) else 0)
      invariant forall k ::
        Get(most', k) == if k in ks[..j] && Get(counts, k) > Get(most, k) then Get(counts, k) else Get(most, k)
    {
      var k := ks[j];
      assert k !in ks[..j];
      assert ks[..j + 1] == ks[..j] + [k];
      if k !in order {
        order' := order' + [k];
      }
      total' := total'[k := Get(total', k) + Get(counts, k)];
      if Get(counts, k) > Get(most', k) {
        most' := most'[k := Get(counts, k)];
      }
    }
    assert ks[..|ks|] == ks;
  }

  /** What the loop over the notes has gathered. */
  ghost predicate Gathered(
    members: seq<seq<Event>>, flat: seq<Event>, order: seq<string>, total: map<string, nat>, most: map<string, nat>)
  {
    && flat == Flat(members) && order == KeysOf(flat)
    && forall k :: k != "" ==> Get(total, k) == Total(members, k) && Get(most, k) == Most(members, k)
  }

  method Gather(members: seq<seq<Event>>)
    returns (flat: seq<Event>, order: seq<string>, total: map<string, nat>, most: map<string, nat>)
    ensures Gathered(members, flat, order, total, most)
  {
    flat, order, total, most := [], [], map[], map[];
    for c := 0 to |members|
      invariant Gathered(members[..c], flat, order, total, most)
    {
      assert members[..c + 1][..c] == members[..c];
      var ks, counts := MemberCounts(members[c]);
      KeysOfDiffer(members[c]);
      KeysOfConcat(flat, members[c]);
      AbsentCounts(members[c], ks);
      order, total, most := AddMember(ks, counts, order, total, most);
      flat := flat + members[c];
    }
    assert members[..|members|] == members;
  }

  lemma AbsentCounts(es: seq<Event>, ks: seq<string>)
    requires ks == KeysOf(es)
    ensures forall k :: k != "" && k !in ks ==> Count(es, k) == 0
  {
    KeysOfDiffer(es);
  }

  method SumOverlap(members: seq<seq<Event>>, order: seq<string>, total: map<string, nat>, most: map<string, nat>)
    returns (overlap: int)
    requires forall j :: 0 <= j < |order| ==>
               Get(total, order[j]) == Total(members, order[j]) && Get(most, order[j]) == Most(members, order[j])
    ensures overlap == Overlap(members, order)
  {
    overlap := 0;
    for j := 0 to |order|
      invariant overlap == Overlap(members, order[..j])
    {
      assert order[..j + 1][..j] == order[..j];
      overlap := overlap + Get(total, order[j]) - Get(most, order[j]);
    }
    assert order[..|order|] == order;
  }

  /** The merged feedback count. */
  method MergeFb(members: seq<seq<Event>>, raw: seq<nat>) returns (fb: int)
    ensures fb == MergedFb(members, raw)
  {
    var sum := SumRaw(raw);
    var flat, order, total, most := Gather(members);
    if flat == [] {
      return sum;
    }
    var unique := DedupFbEvents(flat);
    KeysOfDiffer(flat);
    assert forall j :: 0 <= j < |order| ==> order[j] in KeysOf(flat);
    var overlap := SumOverlap(members, order, total, most);
    fb := if |unique| >= sum - overlap then |unique| else sum - overlap;
  }

  method SumRaw(raw: seq<nat>) returns (sum: nat)
    ensures sum == Sum(raw)
  {
    sum := 0;
    for i := 0 to |raw|
      invariant sum == Sum(raw[..i])
    {
      assert raw[..i + 1][..i] == raw[..i];
      sum := sum + raw[i];
    }
    assert raw[..|raw|] == raw;
  }
}
