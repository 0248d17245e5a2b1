/** Filing documents under notes: which note serves a document, when two share one, and when the plan is
    refused. */
module VaultShelf {
  import opened Optional

  /** A document row. `base` is the safe file name of its title, `pinned` says that its kind demands a
      discriminator made from its external id. */
  datatype Doc = Doc(
    client: string, project: string, uri: string, sourceType: string, externalId: string, base: string, pinned: bool,
    campaign: bool)

  type SourceKey = (string, string)

  function KeyOf(d: Doc): Option<SourceKey> {
    if d.sourceType != "" && d.externalId != "" then Some((d.sourceType, d.externalId)) else None
  }

  function Ownership(d: Doc): (string, string) {
    (d.client, d.project)
  }

  /** What the planner knows of the documents it has placed. */
  datatype Shelf = Shelf(
    byUri: map<string, string>,
    bySource: map<SourceKey, string>,
    madeFor: map<string, SourceKey>,    // the identity a note was created for, when it had one
    owner: map<string, (string, string)>)

  const EMPTY_SHELF := Shelf(map[], map[], map[], map[])

  // ---------------------------------------------------------------- one document

  /** The decision for one document: reuse a note, refuse, or make a new one. */
  datatype Placement = Reuse(path: string) | Conflict | Fresh

  function Place(s: Shelf, d: Doc): Placement {
    var k := KeyOf(d);
    if k.Some? && k.value in s.bySource then
      var p := s.bySource[k.value];
      if p in s.owner && s.owner[p] == Ownership(d) then Reuse(p) else Conflict
    else if d.uri != "" && d.uri in s.byUri && !Distinct(s, d) then
      var p := s.byUri[d.uri];
      if p in s.owner && s.owner[p] == Ownership(d) then Reuse(p) else Conflict
    else Fresh
  }

  /** The note under the document's URI was made for another identity. */
  predicate Distinct(s: Shelf, d: Doc) {
    && d.uri in s.byUri && KeyOf(d).Some?
    && s.byUri[d.uri] in s.madeFor && s.madeFor[s.byUri[d.uri]] != KeyOf(d).value
  }

  function Reused(s: Shelf, d: Doc, p: string): Shelf {
    var k := KeyOf(d);
    if k.Some? && k.value in s.bySource then
      if d.uri != "" then s.(byUri := s.byUri[d.uri := p]) else s
    else if k.Some? then s.(bySource := s.bySource[k.value := p])
    else s
  }

  function Shelved(s: Shelf, d: Doc, p: string): Shelf {
    var k := KeyOf(d);
    s.(byUri := if d.uri != "" && d.uri !in s.byUri then s.byUri[d.uri := p] else s.byUri,
       bySource := if k.Some? then s.bySource[k.value := p] else s.bySource,
       madeFor := if k.Some? then s.madeFor[p := k.value] else s.madeFor,
       owner := s.owner[p := Ownership(d)])
  }

  /** The plan is refused for the document: another owner has its source, or it lacks the external id its
      file name needs. */
  predicate Refuses(s: Shelf, d: Doc) {
    Place(s, d) == Conflict || (Place(s, d) == Fresh && d.pinned && d.externalId == "")
  }

  // ---------------------------------------------------------------- all documents so far

  /** One document filed: the shelf it met, and the note it got. */
  datatype Filing = Filing(shelf: Shelf, doc: Doc, path: string)

  predicate Files(f: Filing) {
    match Place(f.shelf, f.doc)
    case Reuse(p) => f.path == p
    case Conflict => false
    case Fresh => f.path !in f.shelf.owner
  }

  function After(f: Filing): Shelf {
    if Place(f.shelf, f.doc).Reuse? then Reused(f.shelf, f.doc, f.path) else Shelved(f.shelf, f.doc, f.path)
  }

  /** The shelf is what filing the trail, one document after the other, makes of the empty one. */
  predicate Filed(trail: seq<Filing>, s: Shelf)
    decreases |trail|
  {
    if trail == [] then s == EMPTY_SHELF
    else
      var f := trail[|trail| - 1];
      Filed(trail[..|trail| - 1], f.shelf) && Files(f) && s == After(f)
  }

  lemma FiledNext(trail: seq<Filing>, f: Filing)
    requires Filed(trail, f.shelf) && Files(f)
    ensures Filed(trail + [f], After(f))
  {
    var more := trail + [f];
    assert more[..|more| - 1] == trail && more[|more| - 1] == f;
  }

  /** Every identity has one note; a note created for an identity serves no other under it. */
  ghost predicate ShelfGood(s: Shelf) {
    && (forall u <- s.byUri :: s.byUri[u] in s.owner)
    && (forall k <- s.bySource :: s.bySource[k] in s.owner && (s.bySource[k] in s.madeFor ==> s.madeFor[s.bySource[k]] == k))
    && (forall p <- s.madeFor :: p in s.owner && s.madeFor[p] in s.bySource && s.bySource[s.madeFor[p]] == p)
  }

  lemma GoodAfter(f: Filing)
    requires ShelfGood(f.shelf) && Files(f)
    ensures ShelfGood(After(f))
  {
  }

  lemma {:induction false} FiledGood(trail: seq<Filing>, s: Shelf)
    requires Filed(trail, s)
    ensures ShelfGood(s)
    decreases |trail|
  {
    if trail != [] {
      var f := trail[|trail| - 1];
      FiledGood(trail[..|trail| - 1], f.shelf);
      GoodAfter(f);
    }
  }

  /** A filed document's note belongs to its owner and is the one of its identity. */
  predicate PlacedAt(s: Shelf, d: Doc, p: string) {
    && p in s.owner && s.owner[p] == Ownership(d)
    && (KeyOf(d).Some? ==> KeyOf(d).value in s.bySource && s.bySource[KeyOf(d).value] == p)
  }

  lemma PlacedAfter(f: Filing)
    requires ShelfGood(f.shelf) && Files(f)
    ensures PlacedAt(After(f), f.doc, f.path)
    ensures forall d, p :: PlacedAt(f.shelf, d, p) ==> PlacedAt(After(f), d, p)
  {
  }

  lemma {:induction false} FiledPlaced(trail: seq<Filing>, s: Shelf, i: nat)
    requires Filed(trail, s) && i < |trail|
    ensures PlacedAt(s, trail[i].doc, trail[i].path)
    decreases |trail|
  {
    var f := trail[|trail| - 1];
    FiledGood(trail[..|trail| - 1], f.shelf);
    PlacedAfter(f);
    if i < |trail| - 1 {
      FiledPlaced(trail[..|trail| - 1], f.shelf, i);
    }
  }

  // ---------------------------------------------------------------- where the entries come from

  /** A note not made for an identity was made for a filed document without one. */
  lemma {:induction false} MadeForNobody(trail: seq<Filing>, s: Shelf, p: string) returns (i: nat)
    requires Filed(trail, s) && p in s.owner && p !in s.madeFor
    ensures i < |trail| && trail[i].path == p && KeyOf(trail[i].doc).None?
    decreases |trail|
  {
    var front, f := trail[..|trail| - 1], trail[|trail| - 1];
    if p in f.shelf.owner && p !in f.shelf.madeFor {
      i := MadeForNobody(front, f.shelf, p);
    } else {
      FiledGood(front, f.shelf);
      i := |trail| - 1;
    }
  }

  lemma {:induction false} SourceFiled(trail: seq<Filing>, s: Shelf, k: SourceKey) returns (i: nat)
    requires Filed(trail, s) && k in s.bySource
    ensures i < |trail| && trail[i].path == s.bySource[k] && KeyOf(trail[i].doc) == Some(k)
    decreases |trail|
  {
    var front, f := trail[..|trail| - 1], trail[|trail| - 1];
    if k in f.shelf.bySource && f.shelf.bySource[k] == s.bySource[k] {
      i := SourceFiled(front, f.shelf, k);
    } else {
      i := |trail| - 1;
    }
  }

  lemma {:induction false} UriFiled(trail: seq<Filing>, s: Shelf, u: string) returns (i: nat)
    requires Filed(trail, s) && u in s.byUri
    ensures i < |trail| && trail[i].path == s.byUri[u] && trail[i].doc.uri == u
    decreases |trail|
  {
    var front, f := trail[..|trail| - 1], trail[|trail| - 1];
    if u in f.shelf.byUri && f.shelf.byUri[u] == s.byUri[u] {
      i := UriFiled(front, f.shelf, u);
    } else {
      i := |trail| - 1;
    }
  }

  // ---------------------------------------------------------------- one note per identity

  predicate Identified(trail: seq<Filing>) {
    forall i :: 0 <= i < |trail| ==> KeyOf(trail[i].doc).Some?
  }

  /** The note serves a filed document without an identity. */
  predicate Anonymous(trail: seq<Filing>, p: string) {
    exists i :: 0 <= i < |trail| && trail[i].path == p && KeyOf(trail[i].doc).None?
  }

  /** Two filed documents that carry an identity share a note if they carry the same; and only if they do,
      unless the note serves a document that carries none, too. */
  lemma IdentityIsNote(trail: seq<Filing>, s: Shelf, i: nat, j: nat)
    requires Filed(trail, s) && i < |trail| && j < |trail| && KeyOf(trail[i].doc).Some? && KeyOf(trail[j].doc).Some?
    ensures KeyOf(trail[i].doc) == KeyOf(trail[j].doc) ==> trail[i].path == trail[j].path
    ensures trail[i].path == trail[j].path ==> KeyOf(trail[i].doc) == KeyOf(trail[j].doc) || Anonymous(trail, trail[i].path)
    ensures trail[i].path == trail[j].path ==> Ownership(trail[i].doc) == Ownership(trail[j].doc)
  {
    FiledGood(trail, s);
    FiledPlaced(trail, s, i);
    FiledPlaced(trail, s, j);
    var p := trail[i].path;
    if p !in s.madeFor {
      var n := MadeForNobody(trail, s, p);
    }
  }

  /** When all documents carry an identity, sharing a note is the same as sharing the identity. */
  lemma IdentityIffNote(trail: seq<Filing>, s: Shelf, i: nat, j: nat)
    requires Filed(trail, s) && Identified(trail) && i < |trail| && j < |trail|
    ensures trail[i].path == trail[j].path <==> KeyOf(trail[i].doc) == KeyOf(trail[j].doc)
  {
    IdentityIsNote(trail, s, i, j);
  }

  // ---------------------------------------------------------------- when identities merge

  /** No two identities have the same note. */
  ghost predicate IdentitiesApart(s: Shelf) {
    forall k, l :: k in s.bySource && l in s.bySource && s.bySource[k] == s.bySource[l] ==> k == l
  }

  /** The document brings a new identity to a note found by its URI, which was made for a document without
      one and has been given an identity since. */
  ghost predicate Merges(s: Shelf, d: Doc) {
    && KeyOf(d).Some? && KeyOf(d).value !in s.bySource
    && d.uri != "" && d.uri in s.byUri && s.byUri[d.uri] !in s.madeFor
    && exists k :: k in s.bySource && s.bySource[k] == s.byUri[d.uri]
  }

  /** One step: identities that were apart stay apart unless the document merges two. */
  lemma MergeStep(f: Filing)
    requires ShelfGood(f.shelf) && Files(f) && IdentitiesApart(f.shelf)
    ensures IdentitiesApart(After(f)) <==> !Merges(f.shelf, f.doc)
  {
    var s, k := f.shelf, KeyOf(f.doc);
    if Merges(s, f.doc) {
      var l :| l in s.bySource && s.bySource[l] == s.byUri[f.doc.uri];
      assert After(f).bySource[l] == After(f).bySource[k.value];
    } else if k.Some? && k.value !in s.bySource && Place(s, f.doc).Reuse? {
      assert f.path !in s.madeFor;
      assert forall l :: l in s.bySource ==> s.bySource[l] != f.path;
    }
  }

  /** Identities once merged stay so: the entries of identities never change. */
  lemma MergedStays(f: Filing)
    requires ShelfGood(f.shelf) && Files(f) && !IdentitiesApart(f.shelf)
    ensures !IdentitiesApart(After(f))
  {
    var s := f.shelf;
    var k, l :| k in s.bySource && l in s.bySource && s.bySource[k] == s.bySource[l] && k != l;
    assert After(f).bySource[k] == s.bySource[k] && After(f).bySource[l] == s.bySource[l];
  }

  ghost predicate SomeMerge(trail: seq<Filing>) {
    exists i :: 0 <= i < |trail| && Merges(trail[i].shelf, trail[i].doc)
  }

  lemma {:induction false} ApartIff(trail: seq<Filing>, s: Shelf)
    requires Filed(trail, s)
    ensures IdentitiesApart(s) <==> !SomeMerge(trail)
    decreases |trail|
  {
    if trail != [] {
      var front, f := trail[..|trail| - 1], trail[|trail| - 1];
      FiledGood(front, f.shelf);
      ApartIff(front, f.shelf);
      MergesLast(trail);
      if IdentitiesApart(f.shelf) {
        MergeStep(f);
      } else {
        MergedStays(f);
      }
    }
  }

  lemma MergesLast(trail: seq<Filing>)
    requires trail != []
    ensures var front, f := trail[..|trail| - 1], trail[|trail| - 1];
            SomeMerge(trail) <==> SomeMerge(front) || Merges(f.shelf, f.doc)
  {
    var front := trail[..|trail| - 1];
    if SomeMerge(front) {
      var i :| 0 <= i < |front| && Merges(front[i].shelf, front[i].doc);
      assert trail[i] == front[i];
    }
    if SomeMerge(trail) {
      var i :| 0 <= i < |trail| && Merges(trail[i].shelf, trail[i].doc);
      if i < |front| {
        assert front[i] == trail[i];
      }
    }
  }

  /** Two filed documents with different identities share a note. */
  predicate SharedNote(trail: seq<Filing>) {
    exists i, j :: 0 <= i < |trail| && 0 <= j < |trail| && Shares(trail[i], trail[j])
  }

  predicate Shares(f: Filing, g: Filing) {
    f.path == g.path && KeyOf(f.doc).Some? && KeyOf(g.doc).Some? && KeyOf(f.doc) != KeyOf(g.doc)
  }

  /** Over a whole run two identities end up in one note if and only if some document, when it was filed,
      merged two. */
  lemma SharedIff(trail: seq<Filing>, s: Shelf)
    requires Filed(trail, s)
    ensures SharedNote(trail) <==> SomeMerge(trail)
  {
    ApartIff(trail, s);
    if SharedNote(trail) {
      var i, j :| 0 <= i < |trail| && 0 <= j < |trail| && Shares(trail[i], trail[j]);
      FiledPlaced(trail, s, i);
      FiledPlaced(trail, s, j);
    }
    if !IdentitiesApart(s) {
      var k, l :| k in s.bySource && l in s.bySource && s.bySource[k] == s.bySource[l] && k != l;
      var i := SourceFiled(trail, s, k);
      var j := SourceFiled(trail, s, l);
      assert Shares(trail[i], trail[j]);
    }
  }

  const NAMELESS := Doc("c", "", "u", "gdrive", "", "t", false, false)
  const FIRST := NAMELESS.(externalId := "1")
  const SECOND := NAMELESS.(externalId := "2")

  /** An instance: a document without an identity opens a note under a URI, and two others follow it there. */
  lemma UriMergesIdentities()
    ensures var s := Shelved(EMPTY_SHELF, NAMELESS, "docs/t");
      var t := Reused(s, FIRST, "docs/t");
      && Filed([Filing(EMPTY_SHELF, NAMELESS, "docs/t"), Filing(s, FIRST, "docs/t"), Filing(t, SECOND, "docs/t")],
               Reused(t, SECOND, "docs/t"))
      && KeyOf(FIRST) != KeyOf(SECOND) && Merges(t, SECOND)
  {
    var s := Shelved(EMPTY_SHELF, NAMELESS, "docs/t");
    var t := Reused(s, FIRST, "docs/t");
    assert Filed([], EMPTY_SHELF);
    FiledNext([], Filing(EMPTY_SHELF, NAMELESS, "docs/t"));
    FiledNext([] + [Filing(EMPTY_SHELF, NAMELESS, "docs/t")], Filing(s, FIRST, "docs/t"));
    FiledNext([] + [Filing(EMPTY_SHELF, NAMELESS, "docs/t")] + [Filing(s, FIRST, "docs/t")], Filing(t, SECOND, "docs/t"));
    assert [] + [Filing(EMPTY_SHELF, NAMELESS, "docs/t")] + [Filing(s, FIRST, "docs/t")] + [Filing(t, SECOND, "docs/t")]
        == [Filing(EMPTY_SHELF, NAMELESS, "docs/t"), Filing(s, FIRST, "docs/t"), Filing(t, SECOND, "docs/t")];
    assert t.bySource[KeyOf(FIRST).value] == "docs/t";
  }

  // ---------------------------------------------------------------- when the plan is refused

  /** A filed document with the identity of d that belongs to another client or project. */
  predicate RivalBySource(trail: seq<Filing>, d: Doc) {
    exists i :: 0 <= i < |trail| && KeyOf(d).Some? && KeyOf(trail[i].doc) == KeyOf(d) && Ownership(trail[i].doc) != Ownership(d)
  }

  predicate RivalByUri(trail: seq<Filing>, d: Doc) {
    exists i :: 0 <= i < |trail| && trail[i].doc.uri == d.uri && Ownership(trail[i].doc) != Ownership(d)
  }

  /** Another owner of the identity always means a conflict; and a conflict always means a filed document
      of another owner under the identity or the URI. */
  lemma ConflictMeans(trail: seq<Filing>, s: Shelf, d: Doc)
    requires Filed(trail, s)
    ensures RivalBySource(trail, d) ==> Place(s, d) == Conflict
    ensures Place(s, d) == Conflict ==> RivalBySource(trail, d) || RivalByUri(trail, d)
  {
    var k := KeyOf(d);
    if RivalBySource(trail, d) {
      var i :| 0 <= i < |trail| && KeyOf(trail[i].doc) == k && Ownership(trail[i].doc) != Ownership(d);
      FiledPlaced(trail, s, i);
    }
    if Place(s, d) == Conflict {
      var i: nat;
      if k.Some? && k.value in s.bySource {
        i := SourceFiled(trail, s, k.value);
      } else {
        i := UriFiled(trail, s, d.uri);
      }
      FiledPlaced(trail, s, i);
    }
  }

  /** When all documents carry an identity, a document is refused if and only if a filed one of its identity
      has another owner. */
  lemma RefusedIff(trail: seq<Filing>, s: Shelf, d: Doc)
    requires Filed(trail, s) && Identified(trail) && KeyOf(d).Some?
    ensures Refuses(s, d) <==> RivalBySource(trail, d)
  {
    ConflictMeans(trail, s, d);
    FiledGood(trail, s);
    if Refuses(s, d) && KeyOf(d).value !in s.bySource {
      var p := s.byUri[d.uri];
      assert p in s.owner;
      if p !in s.madeFor {
        var i := MadeForNobody(trail, s, p);
      }
    }
    if Refuses(s, d) {
      var i := SourceFiled(trail, s, KeyOf(d).value);
      FiledPlaced(trail, s, i);
    }
  }
}
