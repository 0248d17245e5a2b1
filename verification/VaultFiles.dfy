/** The exported vault on a file system that identifies names by a portable key, the manifest the
    exporter keeps beside it, and the loader that decides which notes may be published. */
module VaultFiles {
  import opened Optional

  /** A directory entry: the name it was created under, and its bytes. Digests are taken to be
      injective, so the bytes themselves stand for the digest. */
  datatype File = File(name: string, bytes: string)

  /** Entries by portable key: names that fold into one key are one file. */
  type Disk = map<string, File>

  datatype Manifest = Manifest(files: map<string, string>, active: set<string>, complete: bool)

  /** The planned notes in the order they are written; names do not repeat. */
  type Plan = seq<(string, string)>

  predicate Distinct(plan: Plan) {
    forall i, j :: 0 <= i < j < |plan| ==> plan[i].0 != plan[j].0
  }

  predicate StartsWith(s: string, p: string) {
    |p| <= |s| && s[..|p|] == p
  }

  predicate IsName(name: string) {
    && |name| >= 3 && name[|name| - 3..] == ".md"
    && '/' !in name && '\\' !in name
  }

  /** Entries the loader lists: directly in clients/ or docs/, with a lower-case .md suffix. */
  predicate Listed(rel: string) {
    || (StartsWith(rel, "clients/") && IsName(rel[8..]))
    || (StartsWith(rel, "docs/") && IsName(rel[5..]))
  }

  /** Paths the manifest may own. */
  predicate Managed(rel: string) {
    Listed(rel) && rel != "clients/.md" && rel != "docs/.md"
  }

  function ManagedPart(plan: Plan): (m: map<string, string>)
    ensures forall rel <- m :: Managed(rel) && exists i :: 0 <= i < |plan| && plan[i] == (rel, m[rel])
    ensures forall i :: 0 <= i < |plan| && Managed(plan[i].0) ==> plan[i].0 in m
  {
    if plan == [] then map[]
    else
      var (rel, bytes) := plan[|plan| - 1];
      var m := ManagedPart(plan[..|plan| - 1]);
      if Managed(rel) then m[rel := bytes] else m
  }

  // ---------------------------------------------------------------- reading the manifest

  predicate WellFormedManifest(m: Manifest) {
    && (forall rel <- m.files :: Managed(rel))
    && (forall rel <- m.active :: rel in m.files)
  }

  /** Distinct names of `s` have distinct portable keys. */
  ghost predicate Injective(key: string -> string, s: set<string>) {
    forall a, b :: a in s && b in s && key(a) == key(b) ==> a == b
  }

  /** The portable keys of a set of names. */
  function Keys(key: string -> string, s: set<string>): set<string> {
    set rel <- s :: key(rel)
  }

  /** An active note is listed by its directory and holds the bytes on record. */
  predicate OnDisk(key: string -> string, m: Manifest, disk: Disk, rel: string) {
    && rel in m.files && key(rel) in disk && Listed(disk[key(rel)].name)
    && disk[key(rel)].bytes == m.files[rel]
  }

  /** What the publishing loader demands of the manifest and of the entries on disk. */
  ghost predicate Publishable(key: string -> string, m: Option<Manifest>, disk: Disk) {
    && m.Some? && m.value.complete && WellFormedManifest(m.value)
    && Injective(key, m.value.files.Keys)
    && m.value.active != {}
    && forall rel <- m.value.active :: OnDisk(key, m.value, disk, rel)
  }

  // ---------------------------------------------------------------- writing

  function Written(key: string -> string, disk: Disk, rel: string, bytes: string): Disk {
    var k := key(rel);
    disk[k := File(if k in disk then disk[k].name else rel, bytes)]
  }

  function WrittenAll(key: string -> string, disk: Disk, plan: Plan): Disk {
    if plan == [] then disk
    else
      var (rel, bytes) := plan[|plan| - 1];
      Written(key, WrittenAll(key, disk, plan[..|plan| - 1]), rel, bytes)
  }

  /** After writing, an entry planned under a key that no later note shares holds its bytes; its name is
      the one it had, or the planned one. Entries of other keys are as they were. */
  lemma {:induction false} WrittenAllAt(key: string -> string, disk: Disk, plan: Plan, k: string)
    ensures var after := WrittenAll(key, disk, plan);
            && ((forall i :: 0 <= i < |plan| ==> key(plan[i].0) != k) ==>
                  (k in after <==> k in disk) && (k in disk ==> after[k] == disk[k]))
            && (forall i :: 0 <= i < |plan| && key(plan[i].0) == k ==>
                  k in after && (k in disk ==> after[k].name == disk[k].name))
            && (forall i :: 0 <= i < |plan| && key(plan[i].0) == k
                            && (forall j :: 0 <= j < |plan| && j != i ==> key(plan[j].0) != k) ==>
                  k in after && after[k] == File(if k in disk then disk[k].name else plan[i].0, plan[i].1))
  {
    if plan != [] {
      var n := |plan| - 1;
      var before := plan[..n];
      WrittenAllAt(key, disk, before, k);
      assert forall i :: 0 <= i < n ==> before[i] == plan[i];
    }
  }

  // ---------------------------------------------------------------- pruning

  /** Every entry sits under the portable key of its name. */
  ghost predicate Folded(key: string -> string, disk: Disk) {
    forall k <- disk :: key(disk[k].name) == k
  }

  /** Names on record that this export did not plan and that are not another spelling of a planned one. */
  function Stale(key: string -> string, previous: map<string, string>, current: map<string, string>): set<string> {
    set rel <- previous | rel !in current && key(rel) !in Keys(key, current.Keys)
  }

  /** What looks like an old note of this exporter, under the name its directory shows. */
  function Discovered(key: string -> string, disk: Disk, generated: (string, string) -> bool): map<string, string> {
    map rel <- (set k <- disk :: disk[k].name)
      | Managed(rel) && key(rel) in disk && generated(rel, disk[key(rel)].bytes) :: disk[key(rel)].bytes
  }

  predicate SameBytes(key: string -> string, disk: Disk, rel: string, bytes: string) {
    key(rel) in disk && disk[key(rel)].bytes == bytes
  }

  /** Stale notes still as they were exported: they go. */
  function Deletable(key: string -> string, disk: Disk, previous: map<string, string>, stale: set<string>): set<string> {
    set rel <- stale | rel in previous && SameBytes(key, disk, rel, previous[rel])
  }

  /** Stale notes that were edited since: they stay, and stay on record. */
  function Protected(key: string -> string, disk: Disk, previous: map<string, string>, stale: set<string>): set<string> {
    set rel <- stale | rel in previous && key(rel) in disk && !SameBytes(key, disk, rel, previous[rel])
  }

  datatype ExportOptions = ExportOptions(commit: bool, prune: bool, complete: bool, allowShrink: bool)

  datatype Outcome =
    | RefusedPartialPrune
    | RefusedShrinkWithoutPrune
    | RefusedEmptyPlan
    | RefusedShrunkPlan
    | DryRun
    | Done

  /** The manifest entries an export starts from: the old ones, and when pruning the discovered ones. */
  function OnRecord(
    key: string -> string, generated: (string, string) -> bool, m: Option<Manifest>, disk: Disk, o: ExportOptions)
    : map<string, string>
  {
    var old_ := if m.Some? then m.value.files else map[];
    if o.prune then Discovered(key, disk, generated) + old_ else old_
  }

  /** The refusal of an export, if it is refused. */
  function Refusal(previous: map<string, string>, current: map<string, string>, o: ExportOptions): Option<Outcome> {
    if o.prune && !o.complete then Some(RefusedPartialPrune)
    else if o.allowShrink && !o.prune then Some(RefusedShrinkWithoutPrune)
    else if o.prune && current == map[] then Some(RefusedEmptyPlan)
    else if o.prune && |current| * 2 < |previous| && !o.allowShrink then Some(RefusedShrunkPlan)
    else None
  }

  /** The entries a committed export leaves on record; `kept` are stale names it did not delete. */
  function NextFiles(previous: map<string, string>, current: map<string, string>, kept: set<string>, o: ExportOptions)
    : map<string, string>
  {
    if o.prune then (map rel <- kept | rel in previous :: previous[rel]) + current else previous + current
  }

  function NextActive(m: Option<Manifest>, current: map<string, string>, o: ExportOptions): set<string> {
    if o.complete then current.Keys else (if m.Some? then m.value.active else {}) + current.Keys
  }

  /** What a committed export remembers of itself for the theorem about runs. */
  datatype Export = Export(notes: map<string, string>, complete: bool)

  /** The manifest tells the last committed export, when that was a complete one, exactly. */
  ghost predicate Tells(m: Option<Manifest>, last: Option<Export>) {
    && m.Some? == last.Some?
    && (m.Some? ==>
          && WellFormedManifest(m.value)
          && m.value.complete == last.value.complete
          && (last.value.complete ==>
                && m.value.active == last.value.notes.Keys
                && forall rel <- last.value.notes :: rel in m.value.files && m.value.files[rel] == last.value.notes[rel]))
  }

  /** What a committed export makes of the disk and the manifest. */
  ghost predicate Exported(
    key: string -> string, generated: (string, string) -> bool, m: Option<Manifest>, disk: Disk, plan: Plan, o: ExportOptions,
    kept: set<string>, m': Option<Manifest>, disk': Disk)
  {
    var current, previous := ManagedPart(plan), OnRecord(key, generated, m, disk, o);
    var stale := if o.prune then Stale(key, previous, current) else {};
    var deletions, written := Deletable(key, disk, previous, stale), WrittenAll(key, disk, plan);
    var live := Deletable(key, written, previous, deletions);
    && m' == Some(Manifest(NextFiles(previous, current, kept, o), NextActive(m, current, o), o.complete))
    && disk' == written - Keys(key, live)
    && Protected(key, disk, previous, stale) <= kept <= Protected(key, disk, previous, stale) + deletions
    && OneEach(key, live, deletions - kept)
  }

  /** The names of the planned notes an export owns. */
  function PlannedNames(plan: Plan): set<string> {
    set i | 0 <= i < |plan| && Managed(plan[i].0) :: plan[i].0
  }

  /** The names a pruning export knows of: those in the manifest, and those of the entries that look like
      old notes of this exporter. */
  function KnownNames(generated: (string, string) -> bool, m: Option<Manifest>, disk: Disk): set<string> {
    (if m.Some? then m.value.files.Keys else {})
    + set k <- disk | Managed(disk[k].name) && generated(disk[k].name, disk[k].bytes) :: disk[k].name
  }

  /** The outcome by the options, the plan and the names known before, in the order of the checks. */
  ghost predicate OutcomeFits(planned: set<string>, known: set<string>, o: ExportOptions, r: Outcome) {
    && (r == RefusedPartialPrune <==> o.prune && !o.complete)
    && (r == RefusedShrinkWithoutPrune <==> o.allowShrink && !o.prune)
    && (r == RefusedEmptyPlan <==> o.prune && o.complete && planned == {})
    && (r == RefusedShrunkPlan <==>
          o.prune && o.complete && planned != {} && !o.allowShrink && 2 * |planned| < |known|)
    && (r == DryRun <==> !o.commit && Allowed(planned, known, o))
    && (r == Done <==> o.commit && Allowed(planned, known, o))
  }

  /** What an export must meet: without pruning it must not ask to shrink; with pruning it must be complete,
      plan a note and, unless it may shrink, plan at least half as many names as are known. */
  ghost predicate Allowed(planned: set<string>, known: set<string>, o: ExportOptions) {
    if o.prune then o.complete && planned != {} && (o.allowShrink || |known| <= 2 * |planned|) else !o.allowShrink
  }

  lemma OnRecordNames(
    key: string -> string, generated: (string, string) -> bool, m: Option<Manifest>, disk: Disk, o: ExportOptions)
    requires Folded(key, disk) && o.prune
    ensures OnRecord(key, generated, m, disk, o).Keys == KnownNames(generated, m, disk)
  {
  }

  lemma ManagedKeys(plan: Plan)
    ensures ManagedPart(plan).Keys == PlannedNames(plan)
  {
  }

  lemma Counted(previous: map<string, string>, current: map<string, string>, known: set<string>, o: ExportOptions)
    requires o.prune ==> previous.Keys == known
    ensures var refusal := Refusal(previous, current, o);
            var r := if refusal.Some? then refusal.value else if o.commit then Done else DryRun;
            OutcomeFits(current.Keys, known, o, r)
  {
    assert |current| == |current.Keys| && |previous| == |previous.Keys|;
    assert current == map[] <==> current.Keys == {};
  }

  /** The refusals are decided by counting names. */
  lemma RefusalIff(
    key: string -> string, generated: (string, string) -> bool, m: Option<Manifest>, disk: Disk, plan: Plan, o: ExportOptions)
    requires Folded(key, disk)
    ensures var refusal := Refusal(OnRecord(key, generated, m, disk, o), ManagedPart(plan), o);
            var r := if refusal.Some? then refusal.value else if o.commit then Done else DryRun;
            OutcomeFits(PlannedNames(plan), KnownNames(generated, m, disk), o, r)
  {
    var previous, current, known := OnRecord(key, generated, m, disk, o), ManagedPart(plan), KnownNames(generated, m, disk);
    ManagedKeys(plan);
    assert o.prune ==> previous.Keys == known by {
      if o.prune {
        OnRecordNames(key, generated, m, disk, o);
      }
    }
    Counted(previous, current, known, o);
  }

  lemma {:induction false} FewerKeys(key: string -> string, s: set<string>)
    ensures |Keys(key, s)| <= |s|
    decreases s
  {
    if s != {} {
      var rel :| rel in s;
      FewerKeys(key, s - {rel});
      assert Keys(key, s) == Keys(key, s - {rel}) + {key(rel)};
    } else {
      assert Keys(key, s) == {};
    }
  }

  lemma Smaller<T>(a: set<T>, b: set<T>)
    requires a <= b
    ensures |a| <= |b|
  {
    assert b == a + (b - a);
  }

  /** An export removes no more entries than there are names known, and none when it does not prune. */
  lemma RemovesAtMost(
    key: string -> string, generated: (string, string) -> bool, m: Option<Manifest>, disk: Disk, plan: Plan, o: ExportOptions,
    kept: set<string>, m': Option<Manifest>, disk': Disk)
    requires Folded(key, disk) && Exported(key, generated, m, disk, plan, o, kept, m', disk')
    ensures if o.prune then |disk.Keys - disk'.Keys| <= |KnownNames(generated, m, disk)| else disk.Keys <= disk'.Keys
  {
    var current, previous := ManagedPart(plan), OnRecord(key, generated, m, disk, o);
    var stale := if o.prune then Stale(key, previous, current) else {};
    var written := WrittenAll(key, disk, plan);
    var live := Deletable(key, written, previous, Deletable(key, disk, previous, stale));
    forall k | k in disk ensures k in written {
      WrittenAllAt(key, disk, plan, k);
      if i :| 0 <= i < |plan| && key(plan[i].0) == k {
        assert k in written;
      }
    }
    assert disk.Keys - disk'.Keys <= Keys(key, live);
    if o.prune {
      OnRecordNames(key, generated, m, disk, o);
      Smaller(disk.Keys - disk'.Keys, Keys(key, live));
      FewerKeys(key, live);
      Smaller(live, previous.Keys);
    }
  }

  /** `chosen` has exactly one name of `s` for every portable key of `s`. */
  ghost predicate OneEach(key: string -> string, s: set<string>, chosen: set<string>) {
    && chosen <= s
    && Injective(key, chosen)
    && forall rel <- s :: key(rel) in Keys(key, chosen)
  }

  lemma SameKeys(key: string -> string, s: set<string>, chosen: set<string>)
    requires OneEach(key, s, chosen)
    ensures Keys(key, s) == Keys(key, chosen)
  {
  }

  lemma UnlinkStep(
    key: string -> string, disk: Disk, previous: map<string, string>, seen: set<string>, gone: set<string>, rel: string)
    requires rel in previous && rel !in seen && OneEach(key, Deletable(key, disk, previous, seen), gone)
    ensures var left := disk - Keys(key, gone);
            if SameBytes(key, left, rel, previous[rel]) then
              && left - {key(rel)} == disk - Keys(key, gone + {rel})
              && OneEach(key, Deletable(key, disk, previous, seen + {rel}), gone + {rel})
            else OneEach(key, Deletable(key, disk, previous, seen + {rel}), gone)
  {
    var left := disk - Keys(key, gone);
    if SameBytes(key, left, rel, previous[rel]) {
      assert key(rel) !in Keys(key, gone);
      assert Keys(key, gone + {rel}) == Keys(key, gone) + {key(rel)};
      assert Deletable(key, disk, previous, seen + {rel}) == Deletable(key, disk, previous, seen) + {rel};
    } else if SameBytes(key, disk, rel, previous[rel]) {
      assert Deletable(key, disk, previous, seen + {rel}) == Deletable(key, disk, previous, seen) + {rel};
    } else {
      assert Deletable(key, disk, previous, seen + {rel}) == Deletable(key, disk, previous, seen);
    }
  }

  ghost predicate Split<T(!new)>(all: set<T>, a: set<T>, b: set<T>) {
    a + b == all && a !! b
  }

  lemma SplitMoves<T(!new)>(all: set<T>, a: set<T>, b: set<T>, x: T)
    requires Split(all, a, b) && x in a
    ensures Split(all, a - {x}, b + {x})
  {
  }

  lemma SplitGrows<T(!new)>(all: set<T>, a: set<T>, b: set<T>, x: T)
    requires Split(all, a, b) && x !in all
    ensures Split(all + {x}, a + {x}, b) && Split(all + {x}, a, b + {x})
  {
  }

  lemma UnlinkEnd(
    key: string -> string, all: set<string>, live: set<string>, seen: set<string>, kept: set<string>, gone: set<string>)
    requires Split(all, {}, seen) && Split(seen, kept, gone) && OneEach(key, live, gone)
    ensures seen == all && kept <= all && OneEach(key, live, all - kept) && Keys(key, live) == Keys(key, gone)
  {
    assert seen == all && gone == all - kept;
    SameKeys(key, live, gone);
  }

  lemma OnRecordManaged(
    key: string -> string, generated: (string, string) -> bool, m: Option<Manifest>, disk: Disk, o: ExportOptions)
    requires m.Some? ==> WellFormedManifest(m.value)
    ensures forall rel <- OnRecord(key, generated, m, disk, o) :: Managed(rel)
    ensures m.Some? ==> m.value.files.Keys <= OnRecord(key, generated, m, disk, o).Keys
  {
  }

  /** The manifest an export writes is well formed and tells that export. */
  lemma TellsNext(
    m: Option<Manifest>, last: Option<Export>, previous: map<string, string>, current: map<string, string>,
    kept: set<string>, o: ExportOptions)
    requires Tells(m, last) && (m.Some? ==> m.value.files.Keys <= previous.Keys)
    requires o.prune ==> o.complete
    requires (forall rel <- previous :: Managed(rel)) && (forall rel <- current :: Managed(rel))
    ensures Tells(Some(Manifest(NextFiles(previous, current, kept, o), NextActive(m, current, o), o.complete)),
                  Some(Export(current, o.complete)))
  {
    var files := NextFiles(previous, current, kept, o);
    assert forall rel <- current :: rel in files && files[rel] == current[rel];
  }

  /** Planned names share no portable key with each other. */
  ghost predicate Apart(key: string -> string, plan: Plan) {
    forall i, j :: 0 <= i < j < |plan| ==> key(plan[i].0) != key(plan[j].0)
  }

  lemma KeptSplit(edited: set<string>, deletions: set<string>, retained: set<string>)
    requires retained <= deletions && edited !! deletions
    ensures edited <= edited + retained <= edited + deletions
    ensures deletions - (edited + retained) == deletions - retained
  {
  }

  lemma KeysGrow(key: string -> string, all: set<string>, todo: set<string>, rel: string)
    requires rel in todo && todo <= all
    ensures Keys(key, all - (todo - {rel})) == Keys(key, all - todo) + {key(rel)}
  {
    assert all - (todo - {rel}) == (all - todo) + {rel};
  }

  lemma DistinctGrows(key: string -> string, all: set<string>, todo: set<string>, rel: string)
    requires rel in todo && todo <= all && Injective(key, all - todo) && key(rel) !in Keys(key, all - todo)
    ensures Injective(key, all - (todo - {rel}))
  {
    assert all - (todo - {rel}) == (all - todo) + {rel};
  }

  class ExportedVault {
    const key: string -> string
    const generated: (string, string) -> bool
    var disk: Disk
    var manifest: Option<Manifest>
    /** The last committed export. */
    ghost var last: Option<Export>

    ghost predicate Valid()
      reads this
    {
      Folded(key, disk) && Tells(manifest, last)
    }

    constructor (key: string -> string, generated: (string, string) -> bool)
      ensures Valid() && disk == map[] && manifest.None?
      ensures this.key == key && this.generated == generated
    {
      this.key, this.generated, disk, manifest, last := key, generated, map[], None, None;
    }

    /** A user adds or edits a file, under any spelling of its name. */
    method UserWrites(rel: string, bytes: string)
      requires Valid()
      modifies `disk
      ensures Valid() && disk == Written(key, old(disk), rel, bytes)
    {
      disk := Written(key, disk, rel, bytes);
    }

    method UserDeletes(rel: string)
      requires Valid()
      modifies `disk
      ensures Valid() && disk == old(disk) - {key(rel)}
    {
      disk := disk - {key(rel)};
    }

    method WriteNotes(plan: Plan)
      requires Folded(key, disk)
      modifies `disk
      ensures Folded(key, disk) && disk == WrittenAll(key, old(disk), plan)
    {
      for i := 0 to |plan|
        invariant Folded(key, disk) && disk == WrittenAll(key, old(disk), plan[..i])
      {
        assert plan[..i + 1][..i] == plan[..i];
        disk := Written(key, disk, plan[i].0, plan[i].1);
      }
      assert plan[..|plan|] == plan;
    }

    /** One deletion looks at the entry again before it removes it. */
    method UnlinkOne(
      rel: string, previous: map<string, string>, ghost start: Disk, ghost seen: set<string>, ghost gone: set<string>)
      returns (removed: bool)
      requires Folded(key, disk) && disk == start - Keys(key, gone) && rel in previous && rel !in seen
      requires OneEach(key, Deletable(key, start, previous, seen), gone)
      modifies `disk
      ensures Folded(key, disk)
      ensures removed ==> disk == start - Keys(key, gone + {rel})
                          && OneEach(key, Deletable(key, start, previous, seen + {rel}), gone + {rel})
      ensures !removed ==> disk == old(disk) && OneEach(key, Deletable(key, start, previous, seen + {rel}), gone)
    {
      UnlinkStep(key, start, previous, seen, gone, rel);
      removed := SameBytes(key, disk, rel, previous[rel]);
      if removed {
        disk := disk - {key(rel)};
      }
    }

    /** The deletions: what is no longer as exported stays, and of several spellings of one name only the
        first is deleted. Whatever is not deleted is kept on record. */
    method Unlink(deletions: set<string>, previous: map<string, string>) returns (kept: set<string>)
      requires Folded(key, disk) && deletions <= previous.Keys
      modifies `disk
      ensures Folded(key, disk) && kept <= deletions
      ensures var live := Deletable(key, old(disk), previous, deletions);
              disk == old(disk) - Keys(key, live) && OneEach(key, live, deletions - kept)
    {
      kept := {};
      var todo := deletions;
      ghost var seen: set<string>, gone: set<string> := {}, {};
      assert Deletable(key, disk, previous, {}) == {};
      while todo != {}
        invariant Split(deletions, todo, seen) && Split(seen, kept, gone)
        invariant Folded(key, disk) && disk == old(disk) - Keys(key, gone)
        invariant OneEach(key, Deletable(key, old(disk), previous, seen), gone)
        decreases todo
      {
        var rel :| rel in todo;
        SplitMoves(deletions, todo, seen, rel);
        SplitGrows(seen, kept, gone, rel);
        var removed := UnlinkOne(rel, previous, old(disk), seen, gone);
        todo, seen := todo - {rel}, seen + {rel};
        if removed {
          gone := gone + {rel};
        } else {
          kept := kept + {rel};
        }
      }
      UnlinkEnd(key, deletions, Deletable(key, old(disk), previous, seen), seen, kept, gone);
    }

    /** The changing part of an export: the notes, the deletions, the manifest. */
    method Apply(plan: Plan, current: map<string, string>, previous: map<string, string>, o: ExportOptions)
      returns (kept: set<string>)
      requires Valid() && current == ManagedPart(plan) && previous == OnRecord(key, generated, manifest, disk, o)
      requires o.prune ==> o.complete
      modifies this
      ensures Valid() && last == Some(Export(current, o.complete))
      ensures Exported(key, generated, old(manifest), old(disk), plan, o, kept, manifest, disk)
    {
      var stale := if o.prune then Stale(key, previous, current) else {};
      var deletions := Deletable(key, disk, previous, stale);
      var edited := Protected(key, disk, previous, stale);
      WriteNotes(plan);
      var retained := Unlink(deletions, previous);
      kept := edited + retained;
      KeptSplit(edited, deletions, retained);
      OnRecordManaged(key, generated, old(manifest), old(disk), o);
      TellsNext(manifest, last, previous, current, kept, o);
      manifest := Some(Manifest(NextFiles(previous, current, kept, o), NextActive(manifest, current, o), o.complete));
      last := Some(Export(current, o.complete));
    }

    /** The whole export: refusals first, then nothing (a dry run) or the changes. */
    method WriteVault(plan: Plan, o: ExportOptions) returns (r: Outcome, kept: set<string>)
      requires Valid() && Distinct(plan)
      modifies this
      ensures Valid()
      ensures var current, previous := ManagedPart(plan), OnRecord(key, generated, old(manifest), old(disk), o);
              r == match Refusal(previous, current, o) { case Some(x) => x case None => if o.commit then Done else DryRun }
      ensures OutcomeFits(PlannedNames(plan), KnownNames(generated, old(manifest), old(disk)), o, r)
      ensures r == Done && !o.prune ==> old(disk).Keys <= disk.Keys
      ensures r == Done && o.prune && !o.allowShrink ==>
                |old(disk).Keys - disk.Keys| <= |KnownNames(generated, old(manifest), old(disk))| <= 2 * |PlannedNames(plan)|
      ensures r != Done ==> disk == old(disk) && manifest == old(manifest) && last == old(last)
      ensures r == Done ==>
                && Exported(key, generated, old(manifest), old(disk), plan, o, kept, manifest, disk)
                && last == Some(Export(ManagedPart(plan), o.complete))
    {
      var current := ManagedPart(plan);
      var previous := OnRecord(key, generated, manifest, disk, o);
      kept := {};
      var refusal := Refusal(previous, current, o);
      RefusalIff(key, generated, manifest, disk, plan, o);
      if refusal.Some? {
        return refusal.value, kept;
      }
      if !o.commit {
        return DryRun, kept;
      }
      kept := Apply(plan, current, previous, o);
      r := Done;
      RemovesAtMost(key, generated, old(manifest), old(disk), plan, o, kept, manifest, disk);
    }

    /** The publishing loader: it refuses unless the manifest is a complete one whose names are distinct
        by portable key and whose active notes are on disk exactly as exported. */
    method LoadActive() returns (r: Option<set<string>>)
      requires Valid()
      ensures r.Some? <==> Publishable(key, manifest, disk)
      ensures r.Some? ==>
                && r.value == Keys(key, manifest.value.active)
                && last.Some? && last.value.complete && r.value == Keys(key, last.value.notes.Keys)
                && forall rel <- last.value.notes :: SameBytes(key, disk, rel, last.value.notes[rel])
    {
      if manifest.None? || !manifest.value.complete {
        return None;
      }
      var m := manifest.value;
      var distinct := DistinctKeys(key, m.files.Keys);
      if !distinct || m.active == {} {
        return None;
      }
      var todo, active := m.active, {};
      while todo != {}
        invariant todo <= m.active && active == Keys(key, m.active - todo)
        invariant forall rel <- m.active - todo :: OnDisk(key, m, disk, rel)
        decreases todo
      {
        var rel :| rel in todo;
        if !OnDisk(key, m, disk, rel) {
          return None;
        }
        KeysGrow(key, m.active, todo, rel);
        todo, active := todo - {rel}, active + {key(rel)};
      }
      assert m.active - todo == m.active;
      r := Some(active);
    }
  }

  method DistinctKeys(key: string -> string, names: set<string>) returns (distinct: bool)
    ensures distinct <==> Injective(key, names)
  {
    var todo, seen := names, {};
    while todo != {}
      invariant todo <= names && seen == Keys(key, names - todo) && Injective(key, names - todo)
      decreases todo
    {
      var rel :| rel in todo;
      if key(rel) in seen {
        return false;
      }
      KeysGrow(key, names, todo, rel);
      DistinctGrows(key, names, todo, rel);
      todo, seen := todo - {rel}, seen + {key(rel)};
    }
    assert names - todo == names;
    return true;
  }
}
