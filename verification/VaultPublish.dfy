/** What an export guarantees to the publishing loader, and what pruning may delete. */
module VaultPublish {
  import opened Optional
  import opened VaultFiles
  import VaultPlan

  lemma ManagedAt(plan: Plan, rel: string) returns (i: nat)
    requires rel in ManagedPart(plan)
    ensures i < |plan| && plan[i] == (rel, ManagedPart(plan)[rel])
  {
    i :| 0 <= i < |plan| && plan[i] == (rel, ManagedPart(plan)[rel]);
  }

  /** A planned note is on disk with its planned bytes after the export; its entry keeps the spelling
      it had before. */
  lemma PlannedOnDisk(
    key: string -> string, generated: (string, string) -> bool, m: Option<Manifest>, disk: Disk, plan: Plan, o: ExportOptions,
    kept: set<string>, m': Option<Manifest>, disk': Disk, rel: string)
    requires Apart(key, plan) && Exported(key, generated, m, disk, plan, o, kept, m', disk') && rel in ManagedPart(plan)
    ensures key(rel) in disk'
    ensures disk'[key(rel)] == File(if key(rel) in disk then disk[key(rel)].name else rel, ManagedPart(plan)[rel])
  {
    var current := ManagedPart(plan);
    var i := ManagedAt(plan, rel);
    WrittenAllAt(key, disk, plan, key(rel));
    var written := WrittenAll(key, disk, plan);
    assert key(plan[i].0) == key(rel);
    assert written[key(rel)] == File(if key(rel) in disk then disk[key(rel)].name else rel, current[rel]);
    assert key(rel) in Keys(key, current.Keys);
    var previous := OnRecord(key, generated, m, disk, o);
    StaleApart(key, previous, current, rel);
  }

  lemma StaleApart(key: string -> string, previous: map<string, string>, current: map<string, string>, rel: string)
    requires rel in current
    ensures forall x <- Stale(key, previous, current) :: key(x) != key(rel)
  {
    assert key(rel) in Keys(key, current.Keys);
  }

  /** The entry under which a planned note lands is one the loader lists. */
  ghost predicate LandsListed(key: string -> string, disk: Disk, notes: map<string, string>) {
    forall rel <- notes :: key(rel) in disk ==> Listed(disk[key(rel)].name)
  }

  lemma RecordedBytes(previous: map<string, string>, current: map<string, string>, kept: set<string>, o: ExportOptions)
    ensures forall rel <- current :: rel in NextFiles(previous, current, kept, o)
                                     && NextFiles(previous, current, kept, o)[rel] == current[rel]
  {
  }

  /** What the loader needs after a complete export besides distinct names on record. */
  lemma RecordWellFormed(
    key: string -> string, generated: (string, string) -> bool, m: Option<Manifest>, disk: Disk, plan: Plan, o: ExportOptions,
    kept: set<string>, m': Option<Manifest>, disk': Disk)
    requires o.complete && Exported(key, generated, m, disk, plan, o, kept, m', disk')
    requires m.Some? ==> WellFormedManifest(m.value)
    ensures m'.Some? && WellFormedManifest(m'.value)
  {
    OnRecordManaged(key, generated, m, disk, o);
    RecordedBytes(OnRecord(key, generated, m, disk, o), ManagedPart(plan), kept, o);
  }

  lemma PublishableByRecord(
    key: string -> string, generated: (string, string) -> bool, m: Option<Manifest>, disk: Disk, plan: Plan, o: ExportOptions,
    kept: set<string>, m': Option<Manifest>, disk': Disk)
    requires Apart(key, plan) && o.complete && Exported(key, generated, m, disk, plan, o, kept, m', disk')
    requires m'.Some? && WellFormedManifest(m'.value)
    ensures Publishable(key, m', disk') <==>
              && ManagedPart(plan) != map[]
              && Injective(key, m'.value.files.Keys)
              && LandsListed(key, disk, ManagedPart(plan))
    ensures m'.value.active == ManagedPart(plan).Keys
  {
    var current, previous := ManagedPart(plan), OnRecord(key, generated, m, disk, o);
    RecordedBytes(previous, current, kept, o);
    forall rel <- current
      ensures OnDisk(key, m'.value, disk', rel) <==> (key(rel) in disk ==> Listed(disk[key(rel)].name))
    {
      PlannedOnDisk(key, generated, m, disk, plan, o, kept, m', disk', rel);
    }
    assert m'.value.active == current.Keys;
    if current != map[] {
      var rel :| rel in current;
      assert rel in m'.value.active;
    }
  }

  // ---------------------------------------------------------------- which names stay on record

  /** The stale names whose entry a prune finds as it was exported, also after the notes were written. */
  function Live(
    key: string -> string, generated: (string, string) -> bool, m: Option<Manifest>, disk: Disk, plan: Plan, o: ExportOptions)
    : set<string>
  {
    var previous := OnRecord(key, generated, m, disk, o);
    var stale := Stale(key, previous, ManagedPart(plan));
    Deletable(key, WrittenAll(key, disk, plan), previous, Deletable(key, disk, previous, stale))
  }

  /** The stale names that stay on record whatever is deleted: those of edited notes. */
  function Stays(
    key: string -> string, generated: (string, string) -> bool, m: Option<Manifest>, disk: Disk, plan: Plan, o: ExportOptions)
    : set<string>
  {
    var previous := OnRecord(key, generated, m, disk, o);
    var stale := Stale(key, previous, ManagedPart(plan));
    Protected(key, disk, previous, stale) + (Deletable(key, disk, previous, stale) - Live(key, generated, m, disk, plan, o))
  }

  /** Per portable key a prune leaves every staying name and all live ones but one; at most one is left. */
  ghost predicate AtMostOneLeft(key: string -> string, stays: set<string>, live: set<string>) {
    && Injective(key, stays)
    && (forall a, b, c :: a in stays && b in live && c in live && key(a) == key(b) && key(a) == key(c) ==> b == c)
    && (forall a, b, c :: a in live && b in live && c in live && key(a) == key(b) && key(a) == key(c) ==> a == b || a == c || b == c)
  }

  /** Before an export: no two names that will be on record after it fold into one key. */
  ghost predicate NamesStayApart(
    key: string -> string, generated: (string, string) -> bool, m: Option<Manifest>, disk: Disk, plan: Plan, o: ExportOptions)
  {
    if o.prune then AtMostOneLeft(key, Stays(key, generated, m, disk, plan, o), Live(key, generated, m, disk, plan, o))
    else Injective(key, OnRecord(key, generated, m, disk, o).Keys + ManagedPart(plan).Keys)
  }

  /** What a prune leaves: every staying name, and of the live names of one key all but exactly one. */
  lemma PruneLeaves(
    key: string -> string, generated: (string, string) -> bool, m: Option<Manifest>, disk: Disk, plan: Plan, o: ExportOptions,
    kept: set<string>, m': Option<Manifest>, disk': Disk)
    requires o.prune && Exported(key, generated, m, disk, plan, o, kept, m', disk')
    ensures var stays, live := Stays(key, generated, m, disk, plan, o), Live(key, generated, m, disk, plan, o);
      && stays !! live && stays <= kept <= stays + live
      && OneEach(key, live, live - kept)
  {
    var previous, current := OnRecord(key, generated, m, disk, o), ManagedPart(plan);
    var stale := Stale(key, previous, current);
    KeptAndLive(key, Protected(key, disk, previous, stale), Deletable(key, disk, previous, stale),
                Live(key, generated, m, disk, plan, o), kept);
  }

  lemma KeptAndLive(key: string -> string, edited: set<string>, deletions: set<string>, live: set<string>, kept: set<string>)
    requires edited !! deletions && live <= deletions && edited <= kept <= edited + deletions
    requires OneEach(key, live, deletions - kept)
    ensures var stays := edited + (deletions - live);
            stays !! live && stays <= kept <= stays + live && OneEach(key, live, live - kept)
  {
    assert deletions - kept == live - kept;
  }

  lemma LeftApart(key: string -> string, stays: set<string>, live: set<string>, kept: set<string>)
    requires stays !! live && stays <= kept <= stays + live && OneEach(key, live, live - kept)
    ensures Injective(key, kept) <==> AtMostOneLeft(key, stays, live)
  {
    if Injective(key, kept) {
      LeftOnlyOne(key, stays, live, kept);
    }
    if AtMostOneLeft(key, stays, live) {
      forall a, b | a in kept && b in kept && key(a) == key(b)
        ensures a == b
      {
        if a in live {
          var r := Removed(key, live, kept, a);
        }
        if b in live {
          var r := Removed(key, live, kept, b);
        }
      }
    }
  }

  /** The deleted name of a live name's key. */
  lemma Removed(key: string -> string, live: set<string>, kept: set<string>, a: string) returns (r: string)
    requires a in live && OneEach(key, live, live - kept)
    ensures r in live && r !in kept && key(r) == key(a)
  {
    assert key(a) in Keys(key, live - kept);
    r :| r in live - kept && key(r) == key(a);
  }

  lemma LeftOnlyOne(key: string -> string, stays: set<string>, live: set<string>, kept: set<string>)
    requires stays !! live && stays <= kept <= stays + live && OneEach(key, live, live - kept) && Injective(key, kept)
    ensures AtMostOneLeft(key, stays, live)
  {
    assert forall b, c :: b in live && c in live && b !in kept && c !in kept && key(b) == key(c) ==> b == c;
  }

  /** When is what a complete export leaves behind publishable? Exactly when it plans a note, no two names
      that will be on record fold into one key, and no planned note lands under an unlisted spelling; all
      of it can be told before the export. */
  lemma PublishableIff(
    key: string -> string, generated: (string, string) -> bool, m: Option<Manifest>, disk: Disk, plan: Plan, o: ExportOptions,
    kept: set<string>, m': Option<Manifest>, disk': Disk)
    requires Apart(key, plan) && o.complete && Exported(key, generated, m, disk, plan, o, kept, m', disk')
    requires m.Some? ==> WellFormedManifest(m.value)
    ensures Publishable(key, m', disk') <==>
              && ManagedPart(plan) != map[]
              && NamesStayApart(key, generated, m, disk, plan, o)
              && LandsListed(key, disk, ManagedPart(plan))
    ensures m'.value.active == ManagedPart(plan).Keys
  {
    RecordWellFormed(key, generated, m, disk, plan, o, kept, m', disk');
    PublishableByRecord(key, generated, m, disk, plan, o, kept, m', disk');
    RecordApart(key, generated, m, disk, plan, o, kept, m', disk');
  }

  lemma RecordApart(
    key: string -> string, generated: (string, string) -> bool, m: Option<Manifest>, disk: Disk, plan: Plan, o: ExportOptions,
    kept: set<string>, m': Option<Manifest>, disk': Disk)
    requires Apart(key, plan) && Exported(key, generated, m, disk, plan, o, kept, m', disk')
    ensures Injective(key, m'.value.files.Keys) <==> NamesStayApart(key, generated, m, disk, plan, o)
  {
    var previous, current := OnRecord(key, generated, m, disk, o), ManagedPart(plan);
    if o.prune {
      PlannedApart(key, plan);
      KeptIsStale(key, generated, m, disk, plan, o, kept, m', disk');
      PrunedRecord(key, previous, current, kept, o);
      PruneLeaves(key, generated, m, disk, plan, o, kept, m', disk');
      LeftApart(key, Stays(key, generated, m, disk, plan, o), Live(key, generated, m, disk, plan, o), kept);
    } else {
      assert m'.value.files.Keys == previous.Keys + current.Keys;
    }
  }

  lemma PlannedApart(key: string -> string, plan: Plan)
    requires Apart(key, plan)
    ensures Injective(key, ManagedPart(plan).Keys)
  {
    var current := ManagedPart(plan);
    forall a, b | a in current && b in current && a != b
      ensures key(a) != key(b)
    {
      var i := ManagedAt(plan, a);
      var j := ManagedAt(plan, b);
      if i < j {
        assert key(plan[i].0) != key(plan[j].0);
      } else {
        assert key(plan[j].0) != key(plan[i].0);
      }
    }
  }

  /** Pruning leaves a record that is injective as far as what it kept is. */
  lemma PrunedRecord(key: string -> string, previous: map<string, string>, current: map<string, string>, kept: set<string>, o: ExportOptions)
    requires o.prune && Injective(key, current.Keys) && kept <= Stale(key, previous, current)
    ensures Injective(key, NextFiles(previous, current, kept, o).Keys) <==> Injective(key, kept)
  {
    var files := NextFiles(previous, current, kept, o);
    assert files.Keys == kept + current.Keys;
    forall x, rel | x in kept && rel in current
      ensures key(x) != key(rel)
    {
      StaleApart(key, previous, current, rel);
    }
  }

  lemma KeptIsStale(
    key: string -> string, generated: (string, string) -> bool, m: Option<Manifest>, disk: Disk, plan: Plan, o: ExportOptions,
    kept: set<string>, m': Option<Manifest>, disk': Disk)
    requires o.prune && Exported(key, generated, m, disk, plan, o, kept, m', disk')
    ensures kept <= Stale(key, OnRecord(key, generated, m, disk, o), ManagedPart(plan))
    ensures kept <= OnRecord(key, generated, m, disk, o).Keys
    ensures m'.value.files == NextFiles(OnRecord(key, generated, m, disk, o), ManagedPart(plan), kept, o)
  {
  }

  /** After a committed complete export with prune, from a manifest and discovered notes that are jointly
      injective on portable keys, the loader accepts and returns exactly the plan's keys, provided no
      planned note landed under an unlisted spelling. */
  lemma PruneMakesPublishable(
    key: string -> string, generated: (string, string) -> bool, m: Option<Manifest>, disk: Disk, plan: Plan, o: ExportOptions,
    kept: set<string>, m': Option<Manifest>, disk': Disk)
    requires Apart(key, plan) && o.complete && o.prune && Exported(key, generated, m, disk, plan, o, kept, m', disk')
    requires m.Some? ==> WellFormedManifest(m.value)
    requires Refusal(OnRecord(key, generated, m, disk, o), ManagedPart(plan), o).None?
    requires Injective(key, OnRecord(key, generated, m, disk, o).Keys)
    ensures Publishable(key, m', disk') <==> LandsListed(key, disk, ManagedPart(plan))
    ensures Keys(key, m'.value.active) == Keys(key, ManagedPart(plan).Keys)
  {
    PublishableIff(key, generated, m, disk, plan, o, kept, m', disk');
    var names := OnRecord(key, generated, m, disk, o).Keys;
    OnRecordAlready(key, generated, m, disk, plan, o);
    ApartLeaves(key, names, Stays(key, generated, m, disk, plan, o), Live(key, generated, m, disk, plan, o));
    assert ManagedPart(plan) != map[];
  }

  lemma OnRecordAlready(
    key: string -> string, generated: (string, string) -> bool, m: Option<Manifest>, disk: Disk, plan: Plan, o: ExportOptions)
    ensures Stays(key, generated, m, disk, plan, o) <= OnRecord(key, generated, m, disk, o).Keys
    ensures Live(key, generated, m, disk, plan, o) <= OnRecord(key, generated, m, disk, o).Keys
  {
  }

  lemma ApartLeaves(key: string -> string, names: set<string>, stays: set<string>, live: set<string>)
    requires Injective(key, names) && stays <= names && live <= names
    ensures AtMostOneLeft(key, stays, live)
  {
  }

  /** A complete export without prune keeps old spellings on record: it is publishable only as long as none
      of them folds into a planned name or another old one. */
  lemma UnprunedIff(
    key: string -> string, generated: (string, string) -> bool, m: Option<Manifest>, disk: Disk, plan: Plan, o: ExportOptions,
    kept: set<string>, m': Option<Manifest>, disk': Disk)
    requires Apart(key, plan) && !o.prune && o.complete && Exported(key, generated, m, disk, plan, o, kept, m', disk')
    requires m.Some? ==> WellFormedManifest(m.value)
    ensures Publishable(key, m', disk') <==>
              && ManagedPart(plan) != map[]
              && Injective(key, (if m.Some? then m.value.files.Keys else {}) + ManagedPart(plan).Keys)
              && LandsListed(key, disk, ManagedPart(plan))
  {
    PublishableIff(key, generated, m, disk, plan, o, kept, m', disk');
  }

  // ---------------------------------------------------------------- what a prune deletes

  /** An entry goes if and only if some stale name of its key is on record with exactly its bytes. */
  lemma DeletedIff(
    key: string -> string, generated: (string, string) -> bool, m: Option<Manifest>, disk: Disk, plan: Plan, o: ExportOptions,
    kept: set<string>, m': Option<Manifest>, disk': Disk, k: string)
    requires o.prune && Exported(key, generated, m, disk, plan, o, kept, m', disk')
    requires k in disk && forall i :: 0 <= i < |plan| ==> key(plan[i].0) != k
    ensures var previous := OnRecord(key, generated, m, disk, o);
            k !in disk' <==> exists rel :: rel in Stale(key, previous, ManagedPart(plan)) && key(rel) == k
                                          && previous[rel] == disk[k].bytes
    ensures k in disk' ==> disk'[k] == disk[k]
  {
    var previous, current := OnRecord(key, generated, m, disk, o), ManagedPart(plan);
    var stale, written := Stale(key, previous, current), WrittenAll(key, disk, plan);
    WrittenAllAt(key, disk, plan, k);
    DeletedKey(key, disk, written, previous, stale, k);
  }

  /** The keys of the notes deleted: an unwritten entry is among them if and only if a stale name of its
      key is on record with its bytes. */
  lemma DeletedKey(
    key: string -> string, disk: Disk, written: Disk, previous: map<string, string>, stale: set<string>, k: string)
    requires k in disk && k in written && written[k] == disk[k] && stale <= previous.Keys
    ensures k in Keys(key, Deletable(key, written, previous, Deletable(key, disk, previous, stale))) <==>
            exists rel :: rel in stale && key(rel) == k && previous[rel] == disk[k].bytes
  {
    var live := Deletable(key, written, previous, Deletable(key, disk, previous, stale));
    if rel :| rel in stale && key(rel) == k && previous[rel] == disk[k].bytes {
      assert rel in live;
      assert k in Keys(key, live);
    }
  }

  /** An edited note, whose bytes are not those on record, survives a prune if and only if no other
      spelling of its name is stale on record with the edited bytes. */
  lemma EditedNoteKeptIff(
    key: string -> string, generated: (string, string) -> bool, m: Option<Manifest>, disk: Disk, plan: Plan, o: ExportOptions,
    kept: set<string>, m': Option<Manifest>, disk': Disk, rel: string)
    requires o.prune && Exported(key, generated, m, disk, plan, o, kept, m', disk')
    requires m.Some? && rel in m.value.files && key(rel) in disk && disk[key(rel)].bytes != m.value.files[rel]
    requires forall i :: 0 <= i < |plan| ==> key(plan[i].0) != key(rel)
    ensures var previous := OnRecord(key, generated, m, disk, o);
            (key(rel) in disk' && disk'[key(rel)] == disk[key(rel)]) <==>
            forall other :: other in Stale(key, previous, ManagedPart(plan)) && key(other) == key(rel) && other != rel ==>
              previous[other] != disk[key(rel)].bytes
  {
    DeletedIff(key, generated, m, disk, plan, o, kept, m', disk', key(rel));
    var previous := OnRecord(key, generated, m, disk, o);
    assert previous[rel] == m.value.files[rel];
  }

  /** With jointly injective names, a prune never deletes an edited note. */
  lemma EditedNoteKept(
    key: string -> string, generated: (string, string) -> bool, m: Option<Manifest>, disk: Disk, plan: Plan, o: ExportOptions,
    kept: set<string>, m': Option<Manifest>, disk': Disk, rel: string)
    requires o.prune && Exported(key, generated, m, disk, plan, o, kept, m', disk')
    requires m.Some? && rel in m.value.files && key(rel) in disk && disk[key(rel)].bytes != m.value.files[rel]
    requires forall i :: 0 <= i < |plan| ==> key(plan[i].0) != key(rel)
    requires Injective(key, OnRecord(key, generated, m, disk, o).Keys)
    ensures key(rel) in disk' && disk'[key(rel)] == disk[key(rel)]
  {
    EditedNoteKeptIff(key, generated, m, disk, plan, o, kept, m', disk', rel);
  }

  /** What the user put beside the exporter's notes is never touched. */
  lemma ForeignNoteKept(
    key: string -> string, generated: (string, string) -> bool, m: Option<Manifest>, disk: Disk, plan: Plan, o: ExportOptions,
    kept: set<string>, m': Option<Manifest>, disk': Disk, k: string)
    requires Exported(key, generated, m, disk, plan, o, kept, m', disk') && k in disk
    requires forall i :: 0 <= i < |plan| ==> key(plan[i].0) != k
    requires forall rel :: rel in OnRecord(key, generated, m, disk, o) ==> key(rel) != k
    ensures k in disk' && disk'[k] == disk[k]
  {
    WrittenAllAt(key, disk, plan, k);
  }

  // ---------------------------------------------------------------- refusals at real inputs

  function Lower(c: char): char {
    if 'A' <= c <= 'Z' then c + ('a' - 'A') else c
  }

  /** A portable key that folds case. */
  function CaseFolded(name: string): string {
    seq(|name|, i requires 0 <= i < |name| => Lower(name[i]))
  }

  const NEVER: (string, string) -> bool := (rel, bytes) => false
  const WHOLE := ExportOptions(true, false, true, false)

  lemma OneManaged(rel: string, bytes: string)
    requires Managed(rel)
    ensures ManagedPart([(rel, bytes)]) == map[rel := bytes]
  {
    assert [(rel, bytes)][..0] == [];
    assert ManagedPart([]) == map[];
  }

  /** The first export of a single note into an empty vault is accepted. */
  lemma FirstAccepted(key: string -> string, rel: string, bytes: string, kept: set<string>, m': Option<Manifest>, disk': Disk)
    requires Managed(rel)
    requires Exported(key, NEVER, None, map[], [(rel, bytes)], WHOLE, kept, m', disk')
    ensures Publishable(key, m', disk') && rel in m'.value.files
  {
    OneManaged(rel, bytes);
    UnprunedIff(key, NEVER, None, map[], [(rel, bytes)], WHOLE, kept, m', disk');
    assert ManagedPart([(rel, bytes)]).Keys == {rel};
  }

  /** An old spelling of the planned note on record makes the loader refuse. */
  lemma AliasBlocksLoader(
    key: string -> string, m: Option<Manifest>, disk: Disk, old_: string, new_: string, bytes: string, kept: set<string>,
    m': Option<Manifest>, disk': Disk)
    requires m.Some? && old_ in m.value.files && Managed(new_) && old_ != new_ && key(old_) == key(new_)
    requires Exported(key, NEVER, m, disk, [(new_, bytes)], WHOLE, kept, m', disk')
    ensures !Publishable(key, m', disk')
  {
    OneManaged(new_, bytes);
    assert old_ in m'.value.files && new_ in m'.value.files;
  }

  const UPPER := "docs/A.md"
  const LOWER := "docs/a.md"

  lemma OneKey()
    ensures Managed(UPPER) && Managed(LOWER) && UPPER != LOWER && CaseFolded(UPPER) == CaseFolded(LOWER)
  {
    assert UPPER[5..] == "A.md" && LOWER[5..] == "a.md";
    assert UPPER[5] == 'A' && LOWER[5] == 'a';
  }

  /** A note renamed in case only, exported twice without prune: the first export is accepted, the second
      is not. */
  method RenamedInCase() returns (first: Option<set<string>>, second: Option<set<string>>)
    ensures first.Some? && second.None?
  {
    OneKey();
    var v := new ExportedVault(CaseFolded, NEVER);
    var r, kept := v.WriteVault([(UPPER, "1")], WHOLE);
    OneManaged(UPPER, "1");
    FirstAccepted(v.key, UPPER, "1", kept, v.manifest, v.disk);
    first := v.LoadActive();
    ghost var m, disk := v.manifest, v.disk;
    r, kept := v.WriteVault([(LOWER, "2")], WHOLE);
    AliasBlocksLoader(v.key, m, disk, UPPER, LOWER, "2", kept, v.manifest, v.disk);
    second := v.LoadActive();
  }

  /** A user's file with an upper-case suffix where a note is planned: the export writes into it, and the
      loader does not list it. */
  method UpperCaseSuffix() returns (loaded: Option<set<string>>)
    ensures loaded.None?
  {
    var mine, planned := "docs/x.MD", "docs/x.md";
    var v := new ExportedVault(CaseFolded, NEVER);
    v.UserWrites(mine, "mine");
    assert Managed(planned) && !Listed(mine);
    OneManaged(planned, "1");
    assert CaseFolded(mine) == CaseFolded(planned);
    ghost var m, disk := v.manifest, v.disk;
    assert disk[CaseFolded(planned)].name == mine;
    var r, kept := v.WriteVault([(planned, "1")], WHOLE);
    UnprunedIff(v.key, v.generated, m, disk, [(planned, "1")], WHOLE, kept, v.manifest, v.disk);
    loaded := v.LoadActive();
  }

  // ---------------------------------------------------------------- over any run

  /** Whatever exports, edits, additions and deletions came before, a publishable state shows exactly the
      notes of the last committed export, which was complete, byte for byte. */
  lemma PublishedIsLastExport(key: string -> string, m: Option<Manifest>, last: Option<Export>, disk: Disk)
    requires Tells(m, last) && Publishable(key, m, disk)
    ensures last.Some? && last.value.complete && m.value.active == last.value.notes.Keys
    ensures forall rel <- last.value.notes :: SameBytes(key, disk, rel, last.value.notes[rel])
  {
    forall rel <- last.value.notes
      ensures SameBytes(key, disk, rel, last.value.notes[rel])
    {
      assert rel in m.value.active;
      assert OnDisk(key, m.value, disk, rel);
    }
  }

  /** What can happen to a vault: an export, or a user's addition, edit or deletion. */
  datatype Event = Export(plan: Plan, o: ExportOptions) | UserWrite(rel: string, bytes: string) | UserDelete(rel: string)

  predicate Happens(e: Event) {
    e.Export? ==> VaultFiles.Distinct(e.plan)
  }

  /** Event i is the last committed export. */
  predicate LastDone(events: seq<Event>, outcomes: seq<Option<Outcome>>, i: nat) {
    && |events| == |outcomes| && i < |events| && events[i].Export? && outcomes[i] == Some(Done)
    && forall j :: i < j < |events| ==> outcomes[j] != Some(Done)
  }

  /** The loaded keys are those of the notes of a complete export, and each note holds its bytes. */
  ghost predicate Shows(key: string -> string, disk: Disk, e: Event, loaded: set<string>) {
    && e.Export? && e.o.complete && loaded == Keys(key, ManagedPart(e.plan).Keys)
    && forall rel <- ManagedPart(e.plan) :: SameBytes(key, disk, rel, ManagedPart(e.plan)[rel])
  }

  /** What is remembered of the last committed export is that event. */
  ghost predicate Remembers(events: seq<Event>, outcomes: seq<Option<Outcome>>, last: Option<VaultFiles.Export>, at: nat) {
    last.Some? ==>
      LastDone(events, outcomes, at) && last == Some(VaultFiles.Export(ManagedPart(events[at].plan), events[at].o.complete))
  }

  lemma RemembersNext(
    events: seq<Event>, outcomes: seq<Option<Outcome>>, last: Option<VaultFiles.Export>, at: nat, e: Event, r: Option<Outcome>,
    last': Option<VaultFiles.Export>)
    requires Remembers(events, outcomes, last, at) && |events| == |outcomes|
    requires r == Some(Done) ==> e.Export? && last' == Some(VaultFiles.Export(ManagedPart(e.plan), e.o.complete))
    requires r != Some(Done) ==> last' == last
    ensures Remembers(events + [e], outcomes + [r], last', if r == Some(Done) then |events| else at)
  {
  }

  /** Any exports, additions, edits and deletions, in any order, and then the loader: it accepts only if the
      last committed export was complete, and then exactly the notes of that export, byte for byte. */
  method RunEvents(v: ExportedVault, events: seq<Event>)
    returns (outcomes: seq<Option<Outcome>>, loaded: Option<set<string>>)
    requires v.Valid() && v.manifest.None? && forall i :: 0 <= i < |events| ==> Happens(events[i])
    modifies v
    ensures v.Valid() && |outcomes| == |events|
    ensures loaded.Some? <==> Publishable(v.key, v.manifest, v.disk)
    ensures loaded.Some? ==>
              exists i: nat :: LastDone(events, outcomes, i) && Shows(v.key, v.disk, events[i], loaded.value)
  {
    outcomes := [];
    ghost var at := 0;
    for n := 0 to |events|
      invariant v.Valid() && |outcomes| == n && Remembers(events[..n], outcomes, v.last, at)
    {
      assert Happens(events[n]);
      ghost var last := v.last;
      var r := RunEvent(v, events[n]);
      RemembersNext(events[..n], outcomes, last, at, events[n], r, v.last);
      assert events[..n + 1] == events[..n] + [events[n]];
      at := if r == Some(Done) then n else at;
      outcomes := outcomes + [r];
    }
    assert events[..|events|] == events;
    loaded := v.LoadActive();
  }

  method RunEvent(v: ExportedVault, e: Event) returns (r: Option<Outcome>)
    requires v.Valid() && Happens(e)
    modifies v
    ensures v.Valid()
    ensures r == Some(Done) ==> e.Export? && v.last == Some(VaultFiles.Export(ManagedPart(e.plan), e.o.complete))
    ensures r != Some(Done) ==> v.last == old(v.last)
  {
    match e {
      case Export(plan, o) =>
        var done, kept := v.WriteVault(plan, o);
        r := Some(done);
      case UserWrite(rel, bytes) =>
        v.UserWrites(rel, bytes);
        r := None;
      case UserDelete(rel) =>
        v.UserDeletes(rel);
        r := None;
    }
  }

  // ---------------------------------------------------------------- plans of the planner

  /** The files of a plan: every note with some text. */
  function FilesOf(paths: seq<string>, text: string -> string): Plan {
    seq(|paths|, i requires 0 <= i < |paths| => (VaultPlan.Note(paths[i]), text(paths[i])))
  }

  /** The notes of the planner are a plan whose names share no portable key. */
  lemma PlannedFilesApart(key: string -> string, notes: set<string>, paths: seq<string>, text: string -> string)
    requires VaultPlan.Apart(key, notes) && (forall i :: 0 <= i < |paths| ==> paths[i] in notes)
    requires forall i, j :: 0 <= i < j < |paths| ==> paths[i] != paths[j]
    ensures Apart(key, FilesOf(paths, text)) && VaultFiles.Distinct(FilesOf(paths, text))
  {
    forall i, j | 0 <= i < j < |paths|
      ensures key(VaultPlan.Note(paths[i])) != key(VaultPlan.Note(paths[j]))
    {
      assert paths[i] in notes && paths[j] in notes;
    }
  }
}
