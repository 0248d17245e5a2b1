/** Planning the vault: collision-free note paths, the notes of clients and documents, and wikilinks that
    only ever name planned notes. */
module VaultPlan {
  import opened Optional
  import opened VaultShelf

  /** A client with its safe file name and its documents. */
  datatype Client = Client(name: string, base: string, docs: seq<Doc>)

  function Digit(n: nat): char
    requires n < 10
  {
    ['0', '1', '2', '3', '4', '5', '6', '7', '8', '9'][n]
  }

  function Decimal(n: nat): string {
    if n < 10 then [Digit(n)] else Decimal(n / 10) + [Digit(n % 10)]
  }

  /** The `i`-th name tried for a base; the first is the base itself. */
  function Candidate(prefix: string, base: string, separator: string, i: nat): string
    requires i >= 1
  {
    prefix + "/" + (if i == 1 then base else base + separator + Decimal(i))
  }

  function Note(path: string): string {
    path + ".md"
  }

  /** The portable key tells apart names that differ only in their number. */
  ghost predicate NumbersApart(key: string -> string) {
    forall prefix, base, separator, i: nat, j: nat :: 1 <= i < j ==>
      key(Note(Candidate(prefix, base, separator, i))) != key(Note(Candidate(prefix, base, separator, j)))
  }

  /** The root note is planned before all others. */
  const ROOT := "CLAUDE"

  /** The keys of the first `i - 1` names tried are all taken. */
  ghost predicate TakenUpTo(key: string -> string, taken: set<string>, prefix: string, base: string, separator: string, i: nat) {
    forall j: nat :: 1 <= j < i ==> key(Note(Candidate(prefix, base, separator, j))) in taken
  }

  /** The pigeonhole behind the search for a free name: `n` names tried and taken need `n` taken keys. */
  lemma {:induction false} Pigeonhole(
    key: string -> string, taken: set<string>, prefix: string, base: string, separator: string, i: nat)
    requires NumbersApart(key) && i >= 1 && TakenUpTo(key, taken, prefix, base, separator, i)
    ensures i - 1 <= |taken|
    decreases i
  {
    if i > 1 {
      var k := key(Note(Candidate(prefix, base, separator, i - 1)));
      forall j: nat | 1 <= j < i - 1
        ensures key(Note(Candidate(prefix, base, separator, j))) in taken - {k}
      {
        assert key(Note(Candidate(prefix, base, separator, j))) != k;
      }
      Pigeonhole(key, taken - {k}, prefix, base, separator, i - 1);
      assert |taken - {k}| == |taken| - 1;
    }
  }

  /** Paths whose notes have pairwise different portable keys. */
  ghost predicate Apart(key: string -> string, paths: set<string>) {
    forall p, q :: p in paths && q in paths && key(Note(p)) == key(Note(q)) ==> p == q
  }

  /** Who holds each portable key: the paths and the keys of their notes are one to one. */
  ghost predicate Holders(key: string -> string, holder: map<string, string>, paths: set<string>) {
    && (forall k <- holder :: holder[k] in paths && key(Note(holder[k])) == k)
    && (forall p <- paths :: key(Note(p)) in holder && holder[key(Note(p))] == p)
  }

  lemma HoldersApart(key: string -> string, holder: map<string, string>, paths: set<string>)
    requires Holders(key, holder, paths)
    ensures Apart(key, paths)
  {
    forall p, q | p in paths && q in paths && key(Note(p)) == key(Note(q))
      ensures p == q
    {
      assert holder[key(Note(p))] == p && holder[key(Note(q))] == q;
    }
  }

  ghost predicate Among(m: map<string, string>, paths: set<string>) {
    forall k <- m :: m[k] in paths
  }

  lemma {:induction false} DecimalDistinct(i: nat, j: nat)
    requires i != j
    ensures Decimal(i) != Decimal(j)
    decreases i + j
  {
    var s, t := Decimal(i), Decimal(j);
    if i >= 10 && j >= 10 {
      if i / 10 != j / 10 {
        DecimalDistinct(i / 10, j / 10);
        assert s[..|s| - 1] == Decimal(i / 10) && t[..|t| - 1] == Decimal(j / 10);
      } else {
        assert s[|s| - 1] == Digit(i % 10) && t[|t| - 1] == Digit(j % 10);
      }
    } else if i >= 10 {
      assert |Decimal(i / 10)| >= 1;
    } else if j >= 10 {
      assert |Decimal(j / 10)| >= 1;
    }
  }

  /** The assumption on portable keys is met at least by keys that fold nothing. */
  lemma PlainKeysApart()
    ensures NumbersApart(s => s)
  {
    forall prefix: string, base: string, separator: string, i: nat, j: nat | 1 <= i < j
      ensures Note(Candidate(prefix, base, separator, i)) != Note(Candidate(prefix, base, separator, j))
    {
      DecimalDistinct(i, j);
      var head := prefix + "/" + base;
      var a, b := Note(Candidate(prefix, base, separator, i)), Note(Candidate(prefix, base, separator, j));
      var tail := head + separator;
      assert b == tail + (Decimal(j) + ".md");
      if i == 1 {
        assert a == head + ".md";
      } else {
        assert a == tail + (Decimal(i) + ".md");
        assert a[|tail|..] == Decimal(i) + ".md" && b[|tail|..] == Decimal(j) + ".md";
        assert (Decimal(i) + ".md")[..|Decimal(i)|] == Decimal(i) && (Decimal(j) + ".md")[..|Decimal(j)|] == Decimal(j);
      }
    }
  }

  /** The relations that tie campaign notes to clients and other documents; their text heuristics are not
      part of this model. */
  datatype Relations = Relations(about: (Doc, string) -> bool, relates: (Doc, Doc) -> bool)

  lemma HolderGrows(key: string -> string, holder: map<string, string>, paths: set<string>, path: string)
    requires Holders(key, holder, paths) && key(Note(path)) !in holder
    ensures Holders(key, holder[key(Note(path)) := path], paths + {path}) && path !in paths
  {
  }

  /** The first name of a base, in the order they are tried, whose portable key is free. */
  ghost predicate FirstFree(
    key: string -> string, claimed: set<string>, prefix: string, base: string, separator: string, path: string)
  {
    && key(Note(path)) !in claimed
    && exists i: nat :: i >= 1 && path == Candidate(prefix, base, separator, i)
                        && TakenUpTo(key, claimed, prefix, base, separator, i)
  }

  method FreeName(key: string -> string, claimed: set<string>, prefix: string, base: string, separator: string)
    returns (path: string)
    requires NumbersApart(key)
    ensures FirstFree(key, claimed, prefix, base, separator, path)
  {
    var i: nat := 1;
    path := Candidate(prefix, base, separator, i);
    while key(Note(path)) in claimed
      invariant i >= 1 && path == Candidate(prefix, base, separator, i)
      invariant TakenUpTo(key, claimed, prefix, base, separator, i)
      decreases |claimed| + 1 - i
    {
      Pigeonhole(key, claimed, prefix, base, separator, i + 1);
      i := i + 1;
      path := Candidate(prefix, base, separator, i);
    }
  }

  // ---------------------------------------------------------------- the order of the names

  /** One reservation: what was asked for, and the path it got. */
  datatype Claimed = Claimed(prefix: string, base: string, separator: string, path: string)

  /** The portable keys taken by the root note and by some reservations. */
  ghost function TakenBy(key: string -> string, log: seq<Claimed>): set<string> {
    {key(Note(ROOT))} + set c <- log :: key(Note(c.path))
  }

  ghost function PathsOf(log: seq<Claimed>): set<string> {
    {ROOT} + set c <- log :: c.path
  }

  /** Reservation i got the first name of its base that was free after the reservations before it. */
  ghost predicate InTurnAt(key: string -> string, log: seq<Claimed>, i: nat)
    requires i < |log|
  {
    FirstFree(key, TakenBy(key, log[..i]), log[i].prefix, log[i].base, log[i].separator, log[i].path)
  }

  ghost predicate InTurn(key: string -> string, log: seq<Claimed>) {
    forall i: nat {:trigger InTurnAt(key, log, i)} :: i < |log| ==> InTurnAt(key, log, i)
  }

  /** The reservations account for every path and every key taken. */
  ghost predicate Logged(key: string -> string, log: seq<Claimed>, claimed: set<string>, paths: set<string>) {
    InTurn(key, log) && claimed == TakenBy(key, log) && paths == PathsOf(log)
  }

  lemma LoggedNext(key: string -> string, log: seq<Claimed>, claimed: set<string>, paths: set<string>, c: Claimed)
    requires Logged(key, log, claimed, paths) && FirstFree(key, claimed, c.prefix, c.base, c.separator, c.path)
    ensures Logged(key, log + [c], claimed + {key(Note(c.path))}, paths + {c.path})
  {
    var more := log + [c];
    forall i: nat | i < |more| ensures InTurnAt(key, more, i) {
      assert more[..i] == log[..i];
      assert log[..|log|] == log;
      if i < |log| {
        assert InTurnAt(key, log, i);
      }
    }
  }

  /** What a new document note asks for: its base, with the discriminator of its external id when its kind
      demands one. */
  function NoteClaim(discriminator: string -> string, f: Filing): Claimed {
    if f.doc.pinned then Claimed("docs", f.doc.base + "-" + discriminator(f.doc.externalId), "-dup-", f.path)
    else Claimed("docs", f.doc.base, "_", f.path)
  }

  /** The reservations made for the filed documents, in order; one that is filed again makes none. */
  function NoteClaims(discriminator: string -> string, trail: seq<Filing>): seq<Claimed> {
    if trail == [] then []
    else
      var f := trail[|trail| - 1];
      NoteClaims(discriminator, trail[..|trail| - 1])
      + if Place(f.shelf, f.doc).Fresh? then [NoteClaim(discriminator, f)] else []
  }

  /** The reservations for the cards of the first n clients; one without a name makes none. */
  function CardClaims(clients: seq<Client>, n: nat, clientPath: map<string, string>): seq<Claimed>
    requires n <= |clients|
  {
    if n == 0 then []
    else
      var c := clients[n - 1];
      CardClaims(clients, n - 1, clientPath)
      + if c.name in clientPath then [Claimed("clients", c.base, "_", clientPath[c.name])] else []
  }

  /** The notes were reserved after the cards, in the order the documents were filed. */
  ghost predicate NotesInOrder(discriminator: string -> string, cards: seq<Claimed>, trail: seq<Filing>, log: seq<Claimed>) {
    log == cards + NoteClaims(discriminator, trail)
  }

  /** A document that gets a note of its own makes one reservation, any other none. */
  predicate NoteReserved(discriminator: string -> string, f: Filing, before: seq<Claimed>, after: seq<Claimed>) {
    after == if Place(f.shelf, f.doc).Fresh? then before + [NoteClaim(discriminator, f)] else before
  }

  lemma NotesInOrderNext(
    discriminator: string -> string, cards: seq<Claimed>, trail: seq<Filing>, f: Filing, log: seq<Claimed>, log': seq<Claimed>)
    requires NotesInOrder(discriminator, cards, trail, log)
    requires NoteReserved(discriminator, f, log, log')
    ensures NotesInOrder(discriminator, cards, trail + [f], log')
  {
    assert (trail + [f])[..|trail|] == trail;
  }

  lemma {:induction false} CardClaimsStay(
    clients: seq<Client>, n: nat, clientPath: map<string, string>, name: string, p: string)
    requires n <= |clients| && forall j :: 0 <= j < n ==> clients[j].name != name
    ensures CardClaims(clients, n, clientPath[name := p]) == CardClaims(clients, n, clientPath)
  {
    if n > 0 {
      CardClaimsStay(clients, n - 1, clientPath, name, p);
    }
  }

  /** Reservation of one more card, or none for a client without a name. */
  lemma CardClaimed(clients: seq<Client>, i: nat, clientPath: map<string, string>, p: string)
    requires i < |clients| && DistinctNames(clients)
    ensures CardClaims(clients, i + 1, clientPath[clients[i].name := p])
            == CardClaims(clients, i, clientPath) + [Claimed("clients", clients[i].base, "_", p)]
  {
    CardClaimsStay(clients, i, clientPath, clients[i].name, p);
  }

  lemma {:induction false} NoteClaimed(discriminator: string -> string, trail: seq<Filing>, i: nat)
    requires i < |trail| && Place(trail[i].shelf, trail[i].doc).Fresh?
    ensures NoteClaim(discriminator, trail[i]) in NoteClaims(discriminator, trail)
    decreases |trail|
  {
    var rest := trail[..|trail| - 1];
    if i < |rest| {
      NoteClaimed(discriminator, rest, i);
    } else {
      assert NoteClaims(discriminator, trail)[|NoteClaims(discriminator, rest)|] == NoteClaim(discriminator, trail[i]);
    }
  }

  /** The path is the name with the number i, and the names with lower numbers are taken. */
  ghost predicate Numbered(
    key: string -> string, taken: set<string>, name: string, separator: string, path: string, i: nat)
  {
    && i >= 2 && path == name + separator + Decimal(i)
    && forall j: nat :: 2 <= j < i ==> key(Note(name + separator + Decimal(j))) in taken
  }

  /** A path is the first one free of those tried for a name: the name itself, or the name with a separator
      and a number from two on. */
  ghost predicate NamedAfter(key: string -> string, taken: set<string>, name: string, separator: string, path: string) {
    && key(Note(path)) !in taken
    && (path == name <==> key(Note(name)) !in taken)
    && (path == name || exists i: nat :: Numbered(key, taken, name, separator, path, i))
  }

  lemma NumberedTail(head: string, separator: string, i: nat)
    requires separator != ""
    ensures head + separator + Decimal(i) != head
  {
    assert |head + separator + Decimal(i)| > |head|;
  }

  lemma FirstFreeNamed(key: string -> string, taken: set<string>, prefix: string, base: string, separator: string, path: string)
    requires FirstFree(key, taken, prefix, base, separator, path) && separator != ""
    ensures NamedAfter(key, taken, prefix + "/" + base, separator, path)
  {
    var name := prefix + "/" + base;
    var i: nat :| i >= 1 && path == Candidate(prefix, base, separator, i) && TakenUpTo(key, taken, prefix, base, separator, i);
    forall j: nat | j >= 2 ensures Candidate(prefix, base, separator, j) == name + separator + Decimal(j) {
      assert prefix + "/" + (base + separator + Decimal(j)) == name + separator + Decimal(j);
    }
    assert Candidate(prefix, base, separator, 1) == name;
    if i > 1 {
      NumberedTail(name, separator, i);
      assert key(Note(Candidate(prefix, base, separator, 1))) in taken;
      forall j: nat | 2 <= j < i ensures key(Note(name + separator + Decimal(j))) in taken {
        assert key(Note(Candidate(prefix, base, separator, j))) in taken;
      }
      assert Numbered(key, taken, name, separator, path, i);
    }
  }

  lemma ClaimNamed(key: string -> string, log: seq<Claimed>, m: nat)
    requires InTurn(key, log) && m < |log| && log[m].separator != ""
    ensures NamedAfter(key, TakenBy(key, log[..m]), log[m].prefix + "/" + log[m].base, log[m].separator, log[m].path)
  {
    assert InTurnAt(key, log, m);
    FirstFreeNamed(key, TakenBy(key, log[..m]), log[m].prefix, log[m].base, log[m].separator, log[m].path);
  }

  /** The path is that of a reservation, and the first one free for the name after the ones before it. */
  ghost predicate HasName(key: string -> string, log: seq<Claimed>, name: string, separator: string, path: string) {
    exists m: nat :: m < |log| && log[m].path == path && NamedAfter(key, TakenBy(key, log[..m]), name, separator, path)
  }

  /** What a document note is called: docs/, its base and, when its kind demands a discriminator, a hyphen
      and that of its external id. Only when the portable key of that name is taken a number follows: after
      -dup- when there is a discriminator, after _ when there is none. */
  ghost predicate NoteHasName(key: string -> string, discriminator: string -> string, log: seq<Claimed>, f: Filing) {
    if f.doc.pinned then HasName(key, log, "docs/" + f.doc.base + "-" + discriminator(f.doc.externalId), "-dup-", f.path)
    else HasName(key, log, "docs/" + f.doc.base, "_", f.path)
  }

  /** Every document that got a note of its own, and every client's card, has its name. */
  ghost predicate AllNamed(
    key: string -> string, discriminator: string -> string, log: seq<Claimed>, trail: seq<Filing>, clients: seq<Client>,
    clientPath: map<string, string>)
  {
    && (forall i :: 0 <= i < |trail| && Place(trail[i].shelf, trail[i].doc).Fresh? ==>
          NoteHasName(key, discriminator, log, trail[i]))
    && (forall j :: 0 <= j < |clients| && clients[j].name in clientPath ==>
          HasName(key, log, "clients/" + clients[j].base, "_", clientPath[clients[j].name]))
  }

  lemma NoteText(base: string, discriminator: string)
    ensures "docs" + "/" + base == "docs/" + base
    ensures "docs" + "/" + (base + "-" + discriminator) == "docs/" + base + "-" + discriminator
  {
  }

  lemma {:induction false} NoteNamed(
    key: string -> string, discriminator: string -> string, cards: seq<Claimed>, trail: seq<Filing>, log: seq<Claimed>, i: nat)
    requires InTurn(key, log) && cards + NoteClaims(discriminator, trail) <= log
    requires i < |trail| && Place(trail[i].shelf, trail[i].doc).Fresh?
    ensures NoteHasName(key, discriminator, log, trail[i])
  {
    var d, c, notes := trail[i].doc, NoteClaim(discriminator, trail[i]), NoteClaims(discriminator, trail);
    NoteClaimed(discriminator, trail, i);
    var n :| 0 <= n < |notes| && notes[n] == c;
    var m := |cards| + n;
    assert log[m] == (cards + notes)[m] == c;
    ClaimNamed(key, log, m);
    NoteText(d.base, discriminator(d.externalId));
  }

  lemma {:induction false} CardClaimedAt(clients: seq<Client>, n: nat, clientPath: map<string, string>, j: nat)
    requires j < n <= |clients| && clients[j].name in clientPath
    ensures Claimed("clients", clients[j].base, "_", clientPath[clients[j].name]) in CardClaims(clients, n, clientPath)
  {
    var c := Claimed("clients", clients[j].base, "_", clientPath[clients[j].name]);
    if j < n - 1 {
      CardClaimedAt(clients, n - 1, clientPath, j);
    } else {
      assert CardClaims(clients, n, clientPath)[|CardClaims(clients, n - 1, clientPath)|] == c;
    }
  }

  lemma {:induction false} CardNamed(key: string -> string, clients: seq<Client>, clientPath: map<string, string>, log: seq<Claimed>, j: nat)
    requires InTurn(key, log) && CardClaims(clients, |clients|, clientPath) <= log
    requires j < |clients| && clients[j].name in clientPath
    ensures HasName(key, log, "clients/" + clients[j].base, "_", clientPath[clients[j].name])
  {
    var cards := CardClaims(clients, |clients|, clientPath);
    var c := Claimed("clients", clients[j].base, "_", clientPath[clients[j].name]);
    CardClaimedAt(clients, |clients|, clientPath, j);
    var m :| 0 <= m < |cards| && cards[m] == c;
    assert log[m] == c;
    ClaimNamed(key, log, m);
    assert "clients" + "/" + c.base == "clients/" + c.base;
  }

  lemma PlanNamed(
    key: string -> string, discriminator: string -> string, clients: seq<Client>, clientPath: map<string, string>,
    trail: seq<Filing>, log: seq<Claimed>)
    requires InTurn(key, log) && CardClaims(clients, |clients|, clientPath) + NoteClaims(discriminator, trail) <= log
    ensures AllNamed(key, discriminator, log, trail, clients, clientPath)
  {
    var cards := CardClaims(clients, |clients|, clientPath);
    forall i | 0 <= i < |trail| && Place(trail[i].shelf, trail[i].doc).Fresh?
      ensures NoteHasName(key, discriminator, log, trail[i])
    {
      NoteNamed(key, discriminator, cards, trail, log, i);
    }
    assert cards <= log;
    forall j | 0 <= j < |clients| && clients[j].name in clientPath
      ensures HasName(key, log, "clients/" + clients[j].base, "_", clientPath[clients[j].name])
    {
      CardNamed(key, clients, clientPath, log, j);
    }
  }

  ghost predicate DistinctNames(clients: seq<Client>) {
    forall i, j :: 0 <= i < j < |clients| ==> clients[i].name != clients[j].name
  }

  /** The names of the clients from position `i` on. */
  ghost predicate NamedFrom(clients: seq<Client>, i: nat, name: string) {
    exists j :: i <= j < |clients| && clients[j].name == name
  }

  /** Every reserved path has its note or is a card still owed one, and links and cards are reserved. */
  ghost predicate BookGood(
    paths: set<string>, links: map<string, set<string>>, owed: map<string, string>, clientPath: map<string, string>,
    clientByIdentity: map<string, string>)
  {
    && (forall p <- links :: p in paths && links[p] <= paths)
    && (forall p <- paths :: p in links || p in owed)
    && (forall p <- owed :: p in paths && owed[p] in clientPath && clientPath[owed[p]] == p)
    && Among(clientPath, paths) && Among(clientByIdentity, paths)
  }

  lemma NoteBooked(
    paths: set<string>, links: map<string, set<string>>, owed: map<string, string>, clientPath: map<string, string>,
    clientByIdentity: map<string, string>, p: string, targets: set<string>)
    requires BookGood(paths, links, owed, clientPath, clientByIdentity) && targets <= paths + {p}
    ensures BookGood(paths + {p}, links[p := targets], owed, clientPath, clientByIdentity)
  {
  }

  lemma CardBooked(
    paths: set<string>, links: map<string, set<string>>, owed: map<string, string>, clientPath: map<string, string>,
    clientByIdentity: map<string, string>, p: string, name: string, byIdentity: map<string, string>)
    requires BookGood(paths, links, owed, clientPath, clientByIdentity) && name !in clientPath
    requires forall k <- byIdentity :: byIdentity[k] == p || (k in clientByIdentity && byIdentity[k] == clientByIdentity[k])
    ensures BookGood(paths + {p}, links, owed[p := name], clientPath[name := p], byIdentity)
  {
  }

  lemma CardWritten(
    paths: set<string>, links: map<string, set<string>>, owed: map<string, string>, clientPath: map<string, string>,
    clientByIdentity: map<string, string>, p: string, targets: set<string>)
    requires BookGood(paths, links, owed, clientPath, clientByIdentity) && p in paths && targets <= paths
    ensures BookGood(paths, links[p := targets], owed - {p}, clientPath, clientByIdentity)
  {
  }

  /** The card a client name leads to: its own, else that of the same company identity. */
  function Card(
    clientPath: map<string, string>, clientByIdentity: map<string, string>, identity: string -> string, name: string)
    : set<string>
  {
    if name in clientPath then {clientPath[name]}
    else if identity(name) in clientByIdentity then {clientByIdentity[identity(name)]}
    else {}
  }

  /** A document note links back to the cards of its client and of its project. */
  function Backlinks(
    clientPath: map<string, string>, clientByIdentity: map<string, string>, identity: string -> string, d: Doc)
    : set<string>
  {
    Card(clientPath, clientByIdentity, identity, d.client) + Card(clientPath, clientByIdentity, identity, d.project)
  }

  // ---------------------------------------------------------------- the documents of a plan

  function DocsOf(trail: seq<Filing>): seq<Doc> {
    seq(|trail|, i requires 0 <= i < |trail| => trail[i].doc)
  }

  /** The documents of all clients, in the order the planner meets them. */
  function AllDocs(clients: seq<Client>): seq<Doc> {
    if clients == [] then [] else AllDocs(clients[..|clients| - 1]) + clients[|clients| - 1].docs
  }

  lemma AllDocsNext(clients: seq<Client>, i: nat)
    requires i < |clients|
    ensures AllDocs(clients[..i + 1]) == AllDocs(clients[..i]) + clients[i].docs
  {
    assert clients[..i + 1][..i] == clients[..i];
  }

  lemma {:induction false} AllDocsPrefix(clients: seq<Client>, i: nat)
    requires i <= |clients|
    ensures AllDocs(clients[..i]) <= AllDocs(clients)
    decreases |clients| - i
  {
    if i == |clients| {
      assert clients[..i] == clients;
    } else {
      AllDocsNext(clients, i);
      AllDocsPrefix(clients, i + 1);
    }
  }

  /** Filing stopped before the document at position k of the list, which is refused. */
  predicate StoppedAt(trail: seq<Filing>, s: Shelf, docs: seq<Doc>, k: nat) {
    k < |docs| && DocsOf(trail) == docs[..k] && Refuses(s, docs[k])
  }

  /** Two documents of the list have one identity and different owners. */
  predicate TwoOwners(docs: seq<Doc>) {
    exists i, j :: 0 <= i < j < |docs| && Rivals(docs[i], docs[j])
  }

  predicate Rivals(d: Doc, e: Doc) {
    KeyOf(d).Some? && KeyOf(d) == KeyOf(e) && Ownership(d) != Ownership(e)
  }

  predicate AllIdentified(docs: seq<Doc>) {
    forall i :: 0 <= i < |docs| ==> KeyOf(docs[i]).Some?
  }

  /** A plan that files all documents has no two owners of one identity among them. */
  lemma FiledHasOneOwner(trail: seq<Filing>, s: Shelf, docs: seq<Doc>)
    requires Filed(trail, s) && DocsOf(trail) == docs
    ensures !TwoOwners(docs)
  {
    forall i, j | 0 <= i < j < |docs| ensures !Rivals(docs[i], docs[j]) {
      assert docs[i] == trail[i].doc && docs[j] == trail[j].doc;
      FiledPlaced(trail, s, i);
      FiledPlaced(trail, s, j);
    }
  }

  lemma Stopped(start: seq<Filing>, trail: seq<Filing>, s: Shelf, docs: seq<Doc>, i: nat)
    requires i < |docs| && DocsOf(trail) == DocsOf(start) + docs[..i] && Refuses(s, docs[i])
    ensures StoppedAt(trail, s, DocsOf(start) + docs, |start| + i)
  {
    var all := DocsOf(start) + docs;
    assert all[..|start| + i] == DocsOf(start) + docs[..i] && all[|start| + i] == docs[i];
  }

  lemma DocsNext(start: seq<Filing>, trail: seq<Filing>, f: Filing, docs: seq<Doc>, i: nat)
    requires i < |docs| && DocsOf(trail) == DocsOf(start) + docs[..i] && f.doc == docs[i]
    ensures DocsOf(trail + [f]) == DocsOf(start) + docs[..i + 1]
  {
    assert DocsOf(trail + [f]) == DocsOf(trail) + [f.doc];
    assert docs[..i + 1] == docs[..i] + [docs[i]];
  }

  /** After i documents of a client: they are filed after those before, each has its note among the found
      ones, and no note lost or gained links. */
  ghost predicate DocsState(
    start: seq<Filing>, trail: seq<Filing>, docs: seq<Doc>, i: nat, found: set<string>,
    links0: map<string, set<string>>, links: map<string, set<string>>)
    requires i <= |docs|
  {
    && start <= trail && DocsOf(trail) == DocsOf(start) + docs[..i]
    && Listed(trail, docs, i, found) && SameExcept(links0, links, {})
  }

  lemma DocNext(
    start: seq<Filing>, trail: seq<Filing>, docs: seq<Doc>, i: nat, found: set<string>, links0: map<string, set<string>>,
    links: map<string, set<string>>, links': map<string, set<string>>, f: Filing, targets: set<string>)
    requires i < |docs| && DocsState(start, trail, docs, i, found, links0, links) && f.doc == docs[i]
    requires NoteKept(Place(f.shelf, f.doc), f.path, targets, links, links')
    ensures DocsState(start, trail + [f], docs, i + 1, found + {f.path}, links0, links')
  {
    KeptSame(Place(f.shelf, f.doc), f.path, targets, links0, links, links');
    ListedNext(trail, f, docs, i, found);
    DocsNext(start, trail, f, docs, i);
  }

  /** The cards, by client name and by company identity, and how identities are found. */
  datatype Cards = Cards(byName: map<string, string>, byIdentity: map<string, string>, identity: string -> string)

  predicate NoCardOf(c: Cards, p: string) {
    forall n <- c.byName :: c.byName[n] != p
  }

  /** Every document that got a note of its own links there to its cards. */
  ghost predicate Backlinked(c: Cards, trail: seq<Filing>, links: map<string, set<string>>) {
    forall i :: 0 <= i < |trail| && Place(trail[i].shelf, trail[i].doc).Fresh? ==>
      && trail[i].path in links && NoCardOf(c, trail[i].path)
      && Backlinks(c.byName, c.byIdentity, c.identity, trail[i].doc) <= links[trail[i].path]
  }

  lemma BacklinkedNext(
    c: Cards, trail: seq<Filing>, f: Filing, links: map<string, set<string>>, links': map<string, set<string>>)
    requires Backlinked(c, trail, links) && (Place(f.shelf, f.doc).Fresh? ==> NoCardOf(c, f.path))
    requires NoteKept(Place(f.shelf, f.doc), f.path, Backlinks(c.byName, c.byIdentity, c.identity, f.doc), links, links')
    ensures Backlinked(c, trail + [f], links')
  {
  }

  lemma BacklinkedGrows(c: Cards, trail: seq<Filing>, links: map<string, set<string>>, links': map<string, set<string>>)
    requires Backlinked(c, trail, links) && Grown(links, links')
    ensures Backlinked(c, trail, links')
  {
  }

  /** The reservations and the backlinks of the notes made so far. Sealed by `Open`. */
  ghost predicate NotesGood(
    discriminator: string -> string, c: Cards, cards: seq<Claimed>, trail: seq<Filing>, log: seq<Claimed>,
    links: map<string, set<string>>)
  {
    forall k: nat {:trigger Open(k)} :: Open(k) ==>
      NotesInOrder(discriminator, cards, trail, log) && Backlinked(c, trail, links)
  }

  lemma NotesGoodWritten(
    discriminator: string -> string, c: Cards, cards: seq<Claimed>, trail: seq<Filing>, log: seq<Claimed>,
    links: map<string, set<string>>, name: string, targets: set<string>)
    requires NotesGood(discriminator, c, cards, trail, log, links) && name in c.byName
    ensures NotesGood(discriminator, c, cards, trail, log, links[c.byName[name] := targets])
  {
    assert Open(0);
  }

  /** One document filed: the links and the reservations it changes. Sealed by `Open`. */
  ghost predicate FiledOne(
    discriminator: string -> string, c: Cards, f: Filing, links: map<string, set<string>>,
    links': map<string, set<string>>, log: seq<Claimed>, log': seq<Claimed>)
  {
    forall k: nat {:trigger Open(k)} :: Open(k) ==>
      && NoteKept(Place(f.shelf, f.doc), f.path, Backlinks(c.byName, c.byIdentity, c.identity, f.doc), links, links')
      && NoteReserved(discriminator, f, log, log') && (Place(f.shelf, f.doc).Fresh? ==> NoCardOf(c, f.path))
  }

  /** The documents filed so far, and the notes made for them. Sealed by `Open`. */
  ghost predicate FilingState(
    start: seq<Filing>, trail: seq<Filing>, docs: seq<Doc>, i: nat, found: set<string>,
    links0: map<string, set<string>>, links: map<string, set<string>>)
    requires i <= |docs|
  {
    forall k: nat {:trigger Open(k)} :: Open(k) ==> DocsState(start, trail, docs, i, found, links0, links)
  }

  lemma FilingNext(
    discriminator: string -> string, c: Cards, cards: seq<Claimed>, start: seq<Filing>, trail: seq<Filing>, docs: seq<Doc>,
    i: nat, found: set<string>, links0: map<string, set<string>>, links: map<string, set<string>>, log: seq<Claimed>,
    f: Filing, links': map<string, set<string>>, log': seq<Claimed>)
    requires i < |docs| && FilingState(start, trail, docs, i, found, links0, links)
    requires NotesGood(discriminator, c, cards, trail, log, links)
    requires f.doc == docs[i] && FiledOne(discriminator, c, f, links, links', log, log')
    ensures FilingState(start, trail + [f], docs, i + 1, found + {f.path}, links0, links')
    ensures NotesGood(discriminator, c, cards, trail + [f], log', links')
  {
    assert Open(0);
    DocNext(start, trail, docs, i, found, links0, links, links', f, Backlinks(c.byName, c.byIdentity, c.identity, f.doc));
    NotesInOrderNext(discriminator, cards, trail, f, log, log');
    BacklinkedNext(c, trail, f, links, links');
  }

  lemma FilingStopped(
    start: seq<Filing>, trail: seq<Filing>, docs: seq<Doc>, i: nat, found: set<string>,
    links0: map<string, set<string>>, links: map<string, set<string>>, s: Shelf)
    requires i < |docs| && FilingState(start, trail, docs, i, found, links0, links) && Refuses(s, docs[i])
    ensures start <= trail && exists k: nat :: StoppedAt(trail, s, DocsOf(start) + docs, k)
  {
    assert Open(0);
    Stopped(start, trail, s, docs, i);
  }

  /** The set has the card of the client that has this name or, when none has, of the first client of the same
      company identity. */
  ghost predicate HasCardOf(clients: seq<Client>, c: Cards, name: string, targets: set<string>) {
    && (name in c.byName ==> c.byName[name] in targets)
    && (name !in c.byName && c.identity(name) != "" ==>
          forall j: nat :: j < |clients| && FirstWith(clients, c.identity, c.identity(name), j) ==>
            clients[j].name in c.byName && c.byName[clients[j].name] in targets)
  }

  /** Every document that got a note of its own links there to the card of its client and of its project. */
  ghost predicate LinksBack(clients: seq<Client>, c: Cards, trail: seq<Filing>, links: map<string, set<string>>) {
    forall i :: 0 <= i < |trail| && Place(trail[i].shelf, trail[i].doc).Fresh? ==>
      && trail[i].path in links
      && HasCardOf(clients, c, trail[i].doc.client, links[trail[i].path])
      && HasCardOf(clients, c, trail[i].doc.project, links[trail[i].path])
  }

  lemma CardsFound(clients: seq<Client>, c: Cards, name: string, targets: set<string>)
    requires IdentityCards(clients, |clients|, c) && Card(c.byName, c.byIdentity, c.identity, name) <= targets
    ensures HasCardOf(clients, c, name, targets)
  {
    if name !in c.byName && c.identity(name) != "" {
      forall j: nat | j < |clients| && FirstWith(clients, c.identity, c.identity(name), j)
        ensures clients[j].name in c.byName && c.byName[clients[j].name] in targets
      {
        assert IdentityOf(c, clients[j]) == c.identity(name);
      }
    }
  }

  lemma BacklinksStay(
    discriminator: string -> string, clients: seq<Client>, c: Cards, trail: seq<Filing>, log: seq<Claimed>,
    links: map<string, set<string>>, links': map<string, set<string>>)
    requires NotesGood(discriminator, c, CardClaims(clients, |clients|, c.byName), trail, log, links)
    requires IdentityCards(clients, |clients|, c) && Grown(links, links')
    ensures LinksBack(clients, c, trail, links')
    ensures log == CardClaims(clients, |clients|, c.byName) + NoteClaims(discriminator, trail)
  {
    assert Open(0);
    BacklinkedGrows(c, trail, links, links');
    BacklinksMean(clients, c, trail, links');
  }

  lemma NoNotesYet(discriminator: string -> string, c: Cards, cards: seq<Claimed>, links: map<string, set<string>>)
    ensures NotesGood(discriminator, c, cards, [], cards, links)
  {
  }

  lemma BacklinksMean(clients: seq<Client>, c: Cards, trail: seq<Filing>, links: map<string, set<string>>)
    requires IdentityCards(clients, |clients|, c) && Backlinked(c, trail, links)
    ensures LinksBack(clients, c, trail, links)
  {
    forall i | 0 <= i < |trail| && Place(trail[i].shelf, trail[i].doc).Fresh?
      ensures trail[i].path in links && HasCardOf(clients, c, trail[i].doc.client, links[trail[i].path])
      ensures HasCardOf(clients, c, trail[i].doc.project, links[trail[i].path])
    {
      CardsFound(clients, c, trail[i].doc.client, links[trail[i].path]);
      CardsFound(clients, c, trail[i].doc.project, links[trail[i].path]);
    }
  }

  lemma StoppedInAll(clients: seq<Client>, i: nat, trail: seq<Filing>, s: Shelf)
    requires i < |clients| && exists k: nat :: StoppedAt(trail, s, AllDocs(clients[..i]) + clients[i].docs, k)
    ensures exists k: nat :: StoppedAt(trail, s, AllDocs(clients), k)
  {
    var some, all := AllDocs(clients[..i]) + clients[i].docs, AllDocs(clients);
    AllDocsNext(clients, i);
    AllDocsPrefix(clients, i + 1);
    var k: nat :| StoppedAt(trail, s, some, k);
    StoppedLonger(trail, s, some, all, k);
  }

  lemma StoppedLonger(trail: seq<Filing>, s: Shelf, some: seq<Doc>, all: seq<Doc>, k: nat)
    requires StoppedAt(trail, s, some, k) && some <= all
    ensures StoppedAt(trail, s, all, k)
  {
    assert all[..k] == some[..k];
  }

  /** What a plan means for the notes of its documents. */
  lemma PlanMeans(clients: seq<Client>, trail: seq<Filing>, s: Shelf, ok: bool)
    requires Filed(trail, s)
    requires ok ==> DocsOf(trail) == AllDocs(clients)
    requires !ok ==> exists k: nat :: StoppedAt(trail, s, AllDocs(clients), k)
    ensures SharedNote(trail) <==> SomeMerge(trail)
    ensures ok ==> !TwoOwners(AllDocs(clients))
    ensures AllIdentified(AllDocs(clients)) ==> NotesAreIdentities(trail) && (ok <==> !TwoOwners(AllDocs(clients)))
  {
    var docs := AllDocs(clients);
    SharedIff(trail, s);
    if ok {
      FiledHasOneOwner(trail, s, docs);
      if AllIdentified(docs) {
        IdentifiedNotes(trail, s, docs);
      }
    } else if AllIdentified(docs) {
      var k: nat :| StoppedAt(trail, s, docs, k);
      StoppedHasTwoOwners(trail, s, docs, k);
      IdentifiedNotes(trail, s, docs);
    }
  }

  /** A refused plan has a reason among its own documents: an earlier one of another owner with the same
      identity or the same URI, or a missing external id. */
  lemma StoppedHasReason(trail: seq<Filing>, s: Shelf, docs: seq<Doc>, k: nat)
    requires Filed(trail, s) && StoppedAt(trail, s, docs, k)
    ensures || (docs[k].pinned && docs[k].externalId == "")
            || exists i :: 0 <= i < k && Ownership(docs[i]) != Ownership(docs[k])
                           && ((KeyOf(docs[k]).Some? && KeyOf(docs[i]) == KeyOf(docs[k])) || docs[i].uri == docs[k].uri)
  {
    assert forall i :: 0 <= i < k ==> trail[i].doc == docs[..k][i] == docs[i];
    assert |trail| == k;
    ConflictMeans(trail, s, docs[k]);
  }

  lemma StoppedHasTwoOwners(trail: seq<Filing>, s: Shelf, docs: seq<Doc>, k: nat)
    requires Filed(trail, s) && StoppedAt(trail, s, docs, k) && AllIdentified(docs)
    ensures TwoOwners(docs)
  {
    assert |trail| == k && forall i :: 0 <= i < k ==> trail[i].doc == docs[..k][i] == docs[i];
    RefusedIff(trail, s, docs[k]);
    var i :| 0 <= i < k && KeyOf(trail[i].doc) == KeyOf(docs[k]) && Ownership(trail[i].doc) != Ownership(docs[k]);
    assert Rivals(docs[i], docs[k]);
  }

  /** Filed documents share a note exactly when their identities are equal. */
  predicate NotesAreIdentities(trail: seq<Filing>) {
    forall i, j :: 0 <= i < |trail| && 0 <= j < |trail| ==>
      (trail[i].path == trail[j].path <==> KeyOf(trail[i].doc) == KeyOf(trail[j].doc))
  }

  lemma IdentifiedNotes(trail: seq<Filing>, s: Shelf, docs: seq<Doc>)
    requires Filed(trail, s) && DocsOf(trail) <= docs && AllIdentified(docs)
    ensures NotesAreIdentities(trail)
  {
    forall i | 0 <= i < |trail| ensures KeyOf(trail[i].doc).Some? {
      assert DocsOf(trail)[i] == docs[i];
    }
    forall i, j | 0 <= i < |trail| && 0 <= j < |trail|
      ensures trail[i].path == trail[j].path <==> KeyOf(trail[i].doc) == KeyOf(trail[j].doc)
    {
      IdentityIffNote(trail, s, i, j);
    }
  }

  /** A card once written is owed no more; what is still owed belongs to later clients. */
  lemma OwedShrinks(
    clients: seq<Client>, i: nat, clientPath: map<string, string>, before: map<string, string>, after: map<string, string>)
    requires i < |clients| && forall p <- before :: NamedFrom(clients, i, before[p])
    requires forall p <- before :: before[p] in clientPath && clientPath[before[p]] == p
    requires clients[i].name != "" ==> clients[i].name in clientPath
    requires after == if clients[i].name != "" then before - {clientPath[clients[i].name]} else before
    requires "" !in clientPath
    ensures forall p <- after :: NamedFrom(clients, i + 1, after[p])
  {
    forall p <- after
      ensures NamedFrom(clients, i + 1, after[p])
    {
      var j :| i <= j < |clients| && clients[j].name == before[p];
      assert j != i;
    }
  }

  lemma NothingOwed(clients: seq<Client>, owed: map<string, string>)
    requires forall p <- owed :: NamedFrom(clients, |clients|, owed[p])
    ensures owed == map[]
  {
    assert forall p :: p !in owed;
  }

  /** What a campaign note is tied to: the cards of the clients it is about, and related documents. */
  function Targets(rel: Relations, clientPath: map<string, string>, docAt: map<string, Doc>, p: string): set<string>
    requires p in docAt
  {
    (set name <- clientPath | rel.about(docAt[p], name) :: clientPath[name])
    + (set q <- docAt | q != p && !docAt[q].campaign && rel.relates(docAt[p], docAt[q]))
  }

  ghost predicate TiedTo(links: map<string, set<string>>, p: string, targets: set<string>) {
    && p in links && targets <= links[p]
    && forall t <- targets :: t in links && p in links[t]
  }

  function Tied(links: map<string, set<string>>, p: string, targets: set<string>): map<string, set<string>> {
    map q <- links :: links[q] + (if q in targets then {p} else {}) + (if q == p then targets else {})
  }

  lemma TieMade(links: map<string, set<string>>, p: string, targets: set<string>)
    requires p in links && targets <= links.Keys
    ensures TiedTo(Tied(links, p, targets), p, targets)
  {
  }

  lemma TieStays(links: map<string, set<string>>, p: string, targets: set<string>, q: string, others: set<string>)
    requires TiedTo(links, q, others)
    ensures TiedTo(Tied(links, p, targets), q, others)
  {
  }

  lemma TieStaysIndexed(links: map<string, set<string>>, index: string, orphans: set<string>, q: string, others: set<string>)
    requires TiedTo(links, q, others) && index !in links
    ensures TiedTo(links[index := orphans], q, others)
  {
  }

  /** The state of the ties once the campaigns outside `todo` are done. */
  ghost predicate TiesDone(
    rel: Relations, clientPath: map<string, string>, docAt: map<string, Doc>, links: map<string, set<string>>,
    orphans: set<string>, todo: set<string>)
  {
    forall p <- docAt :: docAt[p].campaign && p !in todo ==>
      if Targets(rel, clientPath, docAt, p) == {} then p in orphans
      else TiedTo(links, p, Targets(rel, clientPath, docAt, p))
  }

  lemma TiesStay(
    rel: Relations, clientPath: map<string, string>, docAt: map<string, Doc>, links: map<string, set<string>>,
    orphans: set<string>, todo: set<string>, p: string, targets: set<string>)
    requires TiesDone(rel, clientPath, docAt, links, orphans, todo) && p in docAt && p in links
    requires targets == Targets(rel, clientPath, docAt, p) && targets <= links.Keys
    ensures TiesDone(rel, clientPath, docAt, Tied(links, p, targets),
                     if targets == {} then orphans + {p} else orphans, todo - {p})
  {
    TieMade(links, p, targets);
    forall q <- docAt | docAt[q].campaign && q !in todo && Targets(rel, clientPath, docAt, q) != {}
      ensures TiedTo(Tied(links, p, targets), q, Targets(rel, clientPath, docAt, q))
    {
      TieStays(links, p, targets, q, Targets(rel, clientPath, docAt, q));
    }
  }

  /** Every campaign note is tied, or listed where `index` says. */
  ghost predicate CampaignsTied(
    rel: Relations, clientPath: map<string, string>, docAt: map<string, Doc>, links: map<string, set<string>>)
  {
    forall p <- docAt :: docAt[p].campaign ==>
      if Targets(rel, clientPath, docAt, p) == {} then exists index :: index in links && p in links[index]
      else TiedTo(links, p, Targets(rel, clientPath, docAt, p))
  }

  lemma TiesIndexed(
    rel: Relations, clientPath: map<string, string>, docAt: map<string, Doc>, links: map<string, set<string>>,
    orphans: set<string>, index: string)
    requires TiesDone(rel, clientPath, docAt, links, orphans, {}) && index !in links
    ensures CampaignsTied(rel, clientPath, docAt, links[index := orphans])
  {
    var links' := links[index := orphans];
    assert index in links' && links'[index] == orphans;
    forall q <- docAt | docAt[q].campaign && Targets(rel, clientPath, docAt, q) != {}
      ensures TiedTo(links', q, Targets(rel, clientPath, docAt, q))
    {
      TieStaysIndexed(links, index, orphans, q, Targets(rel, clientPath, docAt, q));
    }
  }

  lemma TiesWithout(
    rel: Relations, clientPath: map<string, string>, docAt: map<string, Doc>, links: map<string, set<string>>)
    requires TiesDone(rel, clientPath, docAt, links, {}, {})
    ensures CampaignsTied(rel, clientPath, docAt, links)
  {
  }

  /** Filing i got a note of its own. */
  predicate MadeNote(trail: seq<Filing>, i: nat) {
    i < |trail| && Place(trail[i].shelf, trail[i].doc).Fresh?
  }

  /** The notes are those of the filings that made them, each for its document. */
  ghost predicate NotesOf(docAt: map<string, Doc>, trail: seq<Filing>) {
    && (forall i: nat :: MadeNote(trail, i) ==> trail[i].path in docAt && docAt[trail[i].path] == trail[i].doc)
    && (forall p <- docAt :: exists i: nat :: MadeNote(trail, i) && trail[i].path == p)
  }

  lemma NotesOfNext(docAt: map<string, Doc>, trail: seq<Filing>, f: Filing)
    requires NotesOf(docAt, trail)
    ensures Place(f.shelf, f.doc).Fresh? && f.path !in docAt ==> NotesOf(docAt[f.path := f.doc], trail + [f])
    ensures !Place(f.shelf, f.doc).Fresh? ==> NotesOf(docAt, trail + [f])
  {
    var more := trail + [f];
    forall i: nat | i < |trail| ensures MadeNote(more, i) <==> MadeNote(trail, i) {
      assert more[i] == trail[i];
    }
    assert more[|trail|] == f;
    forall p <- docAt ensures exists i: nat :: MadeNote(more, i) && more[i].path == p {
      var i: nat :| MadeNote(trail, i) && trail[i].path == p;
      assert MadeNote(more, i) && more[i].path == p;
    }
    if Place(f.shelf, f.doc).Fresh? {
      assert MadeNote(more, |trail|) && more[|trail|].path == f.path;
    }
  }

  /** Two notes that link to each other. */
  predicate Mutual(links: map<string, set<string>>, p: string, q: string) {
    p in links && q in links && q in links[p] && p in links[q]
  }

  /** The campaign of filing i has nothing it could be tied to. */
  ghost predicate Alone(rel: Relations, clientPath: map<string, string>, trail: seq<Filing>, i: nat)
    requires i < |trail|
  {
    && (forall name <- clientPath :: !rel.about(trail[i].doc, name))
    && (forall j: nat :: MadeNote(trail, j) && !trail[j].doc.campaign ==> !rel.relates(trail[i].doc, trail[j].doc))
  }

  /** Every campaign note and the cards of the clients it is about link to each other, as do it and the related
      documents that are no campaigns; one without either is listed in another note. */
  ghost predicate CampaignsLinked(
    rel: Relations, clientPath: map<string, string>, trail: seq<Filing>, links: map<string, set<string>>)
  {
    forall i: nat :: MadeNote(trail, i) && trail[i].doc.campaign ==>
      && (forall name <- clientPath :: rel.about(trail[i].doc, name) ==> Mutual(links, trail[i].path, clientPath[name]))
      && (forall j: nat :: MadeNote(trail, j) && !trail[j].doc.campaign && rel.relates(trail[i].doc, trail[j].doc) ==>
            Mutual(links, trail[i].path, trail[j].path))
      && (Alone(rel, clientPath, trail, i) ==> exists index :: index in links && trail[i].path in links[index])
  }

  lemma CampaignsMean(
    rel: Relations, clientPath: map<string, string>, docAt: map<string, Doc>, trail: seq<Filing>, links: map<string, set<string>>)
    requires CampaignsTied(rel, clientPath, docAt, links) && NotesOf(docAt, trail)
    ensures CampaignsLinked(rel, clientPath, trail, links)
  {
    forall i: nat | MadeNote(trail, i) && trail[i].doc.campaign
      ensures forall name <- clientPath :: rel.about(trail[i].doc, name) ==> Mutual(links, trail[i].path, clientPath[name])
      ensures forall j: nat :: MadeNote(trail, j) && !trail[j].doc.campaign && rel.relates(trail[i].doc, trail[j].doc) ==>
                Mutual(links, trail[i].path, trail[j].path)
      ensures Alone(rel, clientPath, trail, i) ==> exists index :: index in links && trail[i].path in links[index]
    {
      CampaignMeans(rel, clientPath, docAt, trail, links, i);
    }
  }

  lemma CampaignMeans(
    rel: Relations, clientPath: map<string, string>, docAt: map<string, Doc>, trail: seq<Filing>, links: map<string, set<string>>,
    i: nat)
    requires CampaignsTied(rel, clientPath, docAt, links) && NotesOf(docAt, trail) && MadeNote(trail, i) && trail[i].doc.campaign
    ensures forall name <- clientPath :: rel.about(trail[i].doc, name) ==> Mutual(links, trail[i].path, clientPath[name])
    ensures forall j: nat :: MadeNote(trail, j) && !trail[j].doc.campaign && rel.relates(trail[i].doc, trail[j].doc) ==>
              Mutual(links, trail[i].path, trail[j].path)
    ensures Alone(rel, clientPath, trail, i) ==> exists index :: index in links && trail[i].path in links[index]
  {
    var p, d := trail[i].path, trail[i].doc;
    var targets := Targets(rel, clientPath, docAt, p);
    assert docAt[p] == d && docAt[p].campaign;
    forall name | name in clientPath && rel.about(d, name) ensures Mutual(links, p, clientPath[name]) {
      assert clientPath[name] in targets;
    }
    forall j: nat | MadeNote(trail, j) && !trail[j].doc.campaign && rel.relates(d, trail[j].doc)
      ensures Mutual(links, p, trail[j].path)
    {
      assert docAt[trail[j].path] == trail[j].doc;
      assert trail[j].path in targets;
    }
    if Alone(rel, clientPath, trail, i) {
      forall q ensures q !in targets {
        if q in docAt {
          var j: nat :| MadeNote(trail, j) && trail[j].path == q;
          assert docAt[q] == trail[j].doc;
        }
      }
      assert targets == {};
    }
  }

  lemma TargetsPlanned(
    rel: Relations, paths: set<string>, clientPath: map<string, string>, docAt: map<string, Doc>, p: string)
    requires p in docAt && Among(clientPath, paths) && docAt.Keys <= paths
    ensures Targets(rel, clientPath, docAt, p) <= paths
  {
  }

  lemma TiedBooked(
    paths: set<string>, links: map<string, set<string>>, owed: map<string, string>, clientPath: map<string, string>,
    clientByIdentity: map<string, string>, p: string, targets: set<string>)
    requires BookGood(paths, links, owed, clientPath, clientByIdentity) && p in links && targets <= paths
    ensures BookGood(paths, Tied(links, p, targets), owed, clientPath, clientByIdentity)
  {
  }

  /** The first n documents each have a note among the targets. */
  ghost predicate Listed(trail: seq<Filing>, docs: seq<Doc>, n: nat, targets: set<string>)
    requires n <= |docs|
  {
    forall j :: 0 <= j < n ==> HasNoteIn(trail, docs[j], targets)
  }

  ghost predicate HasNoteIn(trail: seq<Filing>, d: Doc, targets: set<string>) {
    exists i :: 0 <= i < |trail| && trail[i].doc == d && trail[i].path in targets
  }

  /** The client's card links to a note of each of its documents. */
  ghost predicate CardLists(
    links: map<string, set<string>>, clientPath: map<string, string>, trail: seq<Filing>, c: Client)
  {
    c.name != "" ==>
      c.name in clientPath && clientPath[c.name] in links && Listed(trail, c.docs, |c.docs|, links[clientPath[c.name]])
  }

  ghost predicate SameExcept(a: map<string, set<string>>, b: map<string, set<string>>, changed: set<string>) {
    forall q <- a :: q !in changed ==> q in b && b[q] == a[q]
  }

  ghost predicate Grown(a: map<string, set<string>>, b: map<string, set<string>>) {
    forall q <- a :: q in b && a[q] <= b[q]
  }

  lemma KeptSame(found: Placement, p: string, targets: set<string>, start: map<string, set<string>>,
                 before: map<string, set<string>>, after: map<string, set<string>>)
    requires SameExcept(start, before, {}) && NoteKept(found, p, targets, before, after)
    ensures SameExcept(start, after, {})
  {
  }

  lemma GrownTransitive(a: map<string, set<string>>, b: map<string, set<string>>, c: map<string, set<string>>)
    requires Grown(a, b) && Grown(b, c)
    ensures Grown(a, c)
  {
  }

  lemma ListedStays(
    trail: seq<Filing>, trail': seq<Filing>, docs: seq<Doc>, n: nat, targets: set<string>, targets': set<string>)
    requires n <= |docs| && Listed(trail, docs, n, targets) && trail <= trail' && targets <= targets'
    ensures Listed(trail', docs, n, targets')
  {
    forall j | 0 <= j < n ensures HasNoteIn(trail', docs[j], targets') {
      assert HasNoteIn(trail, docs[j], targets);
      var i :| 0 <= i < |trail| && trail[i].doc == docs[j] && trail[i].path in targets;
      assert trail'[i] == trail[i];
    }
  }

  lemma ListedNext(trail: seq<Filing>, f: Filing, docs: seq<Doc>, n: nat, targets: set<string>)
    requires n < |docs| && Listed(trail, docs, n, targets) && f.doc == docs[n]
    ensures Listed(trail + [f], docs, n + 1, targets + {f.path})
  {
    ListedStays(trail, trail + [f], docs, n, targets, targets + {f.path});
    assert (trail + [f])[|trail|] == f;
  }

  lemma CardStays(
    links: map<string, set<string>>, links': map<string, set<string>>, clientPath: map<string, string>,
    trail: seq<Filing>, trail': seq<Filing>, c: Client)
    requires CardLists(links, clientPath, trail, c) && trail <= trail'
    requires c.name != "" ==> clientPath[c.name] in links' && links[clientPath[c.name]] <= links'[clientPath[c.name]]
    ensures CardLists(links', clientPath, trail', c)
  {
    if c.name != "" {
      ListedStays(trail, trail', c.docs, |c.docs|, links[clientPath[c.name]], links'[clientPath[c.name]]);
    }
  }

  ghost predicate OneCardEach(clientPath: map<string, string>) {
    forall m, n :: m in clientPath && n in clientPath && clientPath[m] == clientPath[n] ==> m == n
  }

  /** The cards of the first i clients link to their documents. */
  ghost predicate CardsDone(
    clients: seq<Client>, i: nat, clientPath: map<string, string>, links: map<string, set<string>>, trail: seq<Filing>)
    requires i <= |clients|
  {
    forall j :: 0 <= j < i ==> CardLists(links, clientPath, trail, clients[j])
  }

  /** The paths a client's own card takes. */
  function OwnCard(clientPath: map<string, string>, c: Client): set<string> {
    if c.name in clientPath then {clientPath[c.name]} else {}
  }

  lemma CardsStay(
    clients: seq<Client>, i: nat, clientPath: map<string, string>, links: map<string, set<string>>,
    links': map<string, set<string>>, trail: seq<Filing>, trail': seq<Filing>)
    requires i < |clients| && CardsDone(clients, i, clientPath, links, trail) && trail <= trail'
    requires OneCardEach(clientPath) && DistinctNames(clients)
    requires SameExcept(links, links', OwnCard(clientPath, clients[i])) && CardLists(links', clientPath, trail', clients[i])
    ensures CardsDone(clients, i + 1, clientPath, links', trail')
  {
    forall j | 0 <= j < i
      ensures CardLists(links', clientPath, trail', clients[j])
    {
      CardStays(links, links', clientPath, trail, trail', clients[j]);
    }
  }

  lemma CardsGrow(
    clients: seq<Client>, clientPath: map<string, string>, links: map<string, set<string>>,
    links': map<string, set<string>>, trail: seq<Filing>)
    requires CardsDone(clients, |clients|, clientPath, links, trail) && Grown(links, links')
    ensures CardsDone(clients, |clients|, clientPath, links', trail)
  {
    forall j | 0 <= j < |clients|
      ensures CardLists(links', clientPath, trail, clients[j])
    {
      CardStays(links, links', clientPath, trail, trail, clients[j]);
    }
  }

  /** Every card is owed, under its own name. */
  ghost predicate AllOwed(clientPath: map<string, string>, owed: map<string, string>) {
    forall n <- clientPath :: clientPath[n] in owed && owed[clientPath[n]] == n
  }

  /** A reused note is the one that was found and keeps its links; a new one is new and has the given links. */
  predicate NoteKept(
    found: Placement, p: string, targets: set<string>, before: map<string, set<string>>, after: map<string, set<string>>)
  {
    if found.Reuse? then p == found.path && after == before else p !in before && after == before[p := targets]
  }

  /** Every reserved card is owed under the name of one of the first i clients, and every one of them that
      has a name has its card. */
  ghost predicate CardsReserved(clients: seq<Client>, i: nat, clientPath: map<string, string>, owed: map<string, string>)
    requires i <= |clients|
  {
    && (forall p <- owed :: NamedFrom(clients, 0, owed[p]))
    && AllOwed(clientPath, owed)
    && (forall n <- clientPath :: n != "" && NamedUpTo(clients, i, n))
    && (forall j :: 0 <= j < i && clients[j].name != "" ==> clients[j].name in clientPath)
  }

  ghost predicate NamedUpTo(clients: seq<Client>, i: nat, name: string)
    requires i <= |clients|
  {
    exists j :: 0 <= j < i && clients[j].name == name
  }

  lemma NotYetReserved(clients: seq<Client>, i: nat, clientPath: map<string, string>, owed: map<string, string>)
    requires i < |clients| && DistinctNames(clients) && CardsReserved(clients, i, clientPath, owed)
    ensures clients[i].name !in clientPath
  {
    assert forall j :: 0 <= j < i ==> clients[j].name != clients[i].name;
  }

  lemma ReservedNext(
    clients: seq<Client>, i: nat, clientPath: map<string, string>, owed: map<string, string>,
    clientPath': map<string, string>, owed': map<string, string>, p: string)
    requires i < |clients| && CardsReserved(clients, i, clientPath, owed) && p !in owed
    requires clients[i].name != "" && clients[i].name !in clientPath
    requires clientPath' == clientPath[clients[i].name := p] && owed' == owed[p := clients[i].name]
    ensures CardsReserved(clients, i + 1, clientPath', owed')
  {
    forall n <- clientPath' ensures n != "" && NamedUpTo(clients, i + 1, n) {
      if n in clientPath {
        assert NamedUpTo(clients, i, n);
      }
    }
    forall q <- owed' ensures NamedFrom(clients, 0, owed'[q]) {
      if q in owed && owed'[q] == owed[q] {
        assert NamedFrom(clients, 0, owed[q]);
      }
    }
  }

  lemma ReservedNothing(clients: seq<Client>, i: nat, clientPath: map<string, string>, owed: map<string, string>)
    requires i < |clients| && CardsReserved(clients, i, clientPath, owed) && clients[i].name == ""
    ensures CardsReserved(clients, i + 1, clientPath, owed)
  {
    forall n <- clientPath ensures NamedUpTo(clients, i + 1, n) {
      assert NamedUpTo(clients, i, n);
    }
  }

  /** Client j is the first named one with the identity. */
  ghost predicate FirstWith(clients: seq<Client>, identity: string -> string, k: string, j: nat)
    requires j < |clients|
  {
    && clients[j].name != "" && identity(clients[j].name) == k
    && forall m :: 0 <= m < j && clients[m].name != "" ==> identity(clients[m].name) != k
  }

  /** Client j's identity leads to its card. */
  ghost predicate LeadsTo(clients: seq<Client>, c: Cards, j: nat)
    requires j < |clients|
  {
    && clients[j].name in c.byName && IdentityOf(c, clients[j]) in c.byIdentity
    && c.byIdentity[IdentityOf(c, clients[j])] == c.byName[clients[j].name]
  }

  /** An identity leads to the card of the first of the first n clients that has it. */
  ghost predicate IdentityCards(clients: seq<Client>, n: nat, c: Cards)
    requires n <= |clients|
  {
    && (forall j: nat :: j < n && IdentityOf(c, clients[j]) != "" && FirstWith(clients, c.identity, IdentityOf(c, clients[j]), j) ==>
          LeadsTo(clients, c, j))
    && (forall k <- c.byIdentity :: SomeFirst(clients, n, c.identity, k))
  }

  ghost predicate SomeFirst(clients: seq<Client>, n: nat, identity: string -> string, k: string)
    requires n <= |clients|
  {
    exists j: nat :: j < n && FirstWith(clients, identity, k, j)
  }

  function IdentityOf(c: Cards, client: Client): string {
    c.identity(client.name)
  }

  /** The cards of the first i clients are reserved, in order, and nothing else is. */
  ghost predicate CardsState(clients: seq<Client>, i: nat, c: Cards, owed: map<string, string>, log: seq<Claimed>)
    requires i <= |clients|
  {
    && CardsReserved(clients, i, c.byName, owed) && log == CardClaims(clients, i, c.byName)
    && IdentityCards(clients, i, c)
  }

  /** The cards with one more, under its name and, when no other has it, under its identity. */
  function WithCard(c: Cards, name: string, p: string): Cards {
    var k := c.identity(name);
    c.(byName := c.byName[name := p],
       byIdentity := if k != "" && k !in c.byIdentity then c.byIdentity[k := p] else c.byIdentity)
  }

  lemma IdentityKnown(clients: seq<Client>, i: nat, c: Cards, m: nat)
    requires i <= |clients| && IdentityCards(clients, i, c) && m < i && clients[m].name != ""
    ensures c.identity(clients[m].name) != "" ==> c.identity(clients[m].name) in c.byIdentity
  {
    var j := LeastWith(clients, c.identity, c.identity(clients[m].name), m);
    assert IdentityOf(c, clients[j]) == c.identity(clients[m].name);
  }

  lemma FirstIsNew(clients: seq<Client>, i: nat, c: Cards)
    requires i < |clients| && IdentityCards(clients, i, c)
    requires IdentityOf(c, clients[i]) != "" && FirstWith(clients, c.identity, IdentityOf(c, clients[i]), i)
    ensures IdentityOf(c, clients[i]) !in c.byIdentity
  {
  }

  lemma NewIsFirst(clients: seq<Client>, i: nat, c: Cards)
    requires i < |clients| && IdentityCards(clients, i, c) && clients[i].name != ""
    requires IdentityOf(c, clients[i]) != "" && IdentityOf(c, clients[i]) !in c.byIdentity
    ensures FirstWith(clients, c.identity, IdentityOf(c, clients[i]), i)
  {
    forall m: nat | m < i && clients[m].name != "" ensures c.identity(clients[m].name) != IdentityOf(c, clients[i]) {
      IdentityKnown(clients, i, c, m);
    }
  }

  lemma StillLeads(clients: seq<Client>, c: Cards, j: nat, name: string, p: string)
    requires j < |clients| && LeadsTo(clients, c, j) && name !in c.byName
    ensures LeadsTo(clients, WithCard(c, name, p), j)
  {
  }

  lemma IdentityNext(clients: seq<Client>, i: nat, c: Cards, p: string)
    requires i < |clients| && IdentityCards(clients, i, c) && clients[i].name != "" && clients[i].name !in c.byName
    ensures IdentityCards(clients, i + 1, WithCard(c, clients[i].name, p))
  {
    var c' := WithCard(c, clients[i].name, p);
    forall j: nat | j < i + 1 && IdentityOf(c', clients[j]) != "" && FirstWith(clients, c'.identity, IdentityOf(c', clients[j]), j)
      ensures LeadsTo(clients, c', j)
    {
      if j < i {
        assert IdentityOf(c, clients[j]) == IdentityOf(c', clients[j]);
        StillLeads(clients, c, j, clients[i].name, p);
      } else {
        FirstIsNew(clients, i, c);
      }
    }
    forall k <- c'.byIdentity ensures SomeFirst(clients, i + 1, c'.identity, k) {
      if k in c.byIdentity {
        assert SomeFirst(clients, i, c.identity, k);
      } else {
        NewIsFirst(clients, i, c);
      }
    }
  }

  lemma {:induction false} LeastWith(clients: seq<Client>, identity: string -> string, k: string, m: nat) returns (j: nat)
    requires m < |clients| && clients[m].name != "" && identity(clients[m].name) == k
    ensures j <= m && FirstWith(clients, identity, k, j)
  {
    if n :| 0 <= n < m && clients[n].name != "" && identity(clients[n].name) == k {
      j := LeastWith(clients, identity, k, n);
    } else {
      j := m;
    }
  }

  lemma CardNext(
    clients: seq<Client>, i: nat, c: Cards, owed: map<string, string>, log: seq<Claimed>, owed': map<string, string>, p: string)
    requires i < |clients| && CardsState(clients, i, c, owed, log) && p !in owed && DistinctNames(clients)
    requires clients[i].name != "" && clients[i].name !in c.byName && owed' == owed[p := clients[i].name]
    ensures CardsState(clients, i + 1, WithCard(c, clients[i].name, p), owed', log + [Claimed("clients", clients[i].base, "_", p)])
  {
    ReservedNext(clients, i, c.byName, owed, WithCard(c, clients[i].name, p).byName, owed', p);
    CardClaimed(clients, i, c.byName, p);
    IdentityNext(clients, i, c, p);
  }

  lemma NoCard(clients: seq<Client>, i: nat, c: Cards, owed: map<string, string>, log: seq<Claimed>)
    requires i < |clients| && CardsState(clients, i, c, owed, log) && clients[i].name == ""
    ensures CardsState(clients, i + 1, c, owed, log)
  {
    ReservedNothing(clients, i, c.byName, owed);
  }

  lemma AllReserved(
    clients: seq<Client>, clientPath: map<string, string>, owed: map<string, string>, links: map<string, set<string>>,
    trail: seq<Filing>)
    requires CardsReserved(clients, |clients|, clientPath, owed) && trail == []
    requires forall p <- owed :: owed[p] in clientPath && clientPath[owed[p]] == p
    ensures OneCardEach(clientPath) && "" !in clientPath
    ensures ClientsState(clients, 0, clientPath, owed, links, trail)
  {
    forall m, n | m in clientPath && n in clientPath && clientPath[m] == clientPath[n] ensures m == n {
      assert owed[clientPath[m]] == m && owed[clientPath[n]] == n;
    }
  }

  /** After i clients: their documents are filed, their cards written, and only later clients are owed. */
  ghost predicate ClientsState(
    clients: seq<Client>, i: nat, clientPath: map<string, string>, owed: map<string, string>,
    links: map<string, set<string>>, trail: seq<Filing>)
    requires i <= |clients|
  {
    && (forall p <- owed :: NamedFrom(clients, i, owed[p]))
    && (forall p <- owed :: owed[p] in clientPath && clientPath[owed[p]] == p)
    && DocsOf(trail) == AllDocs(clients[..i])
    && CardsDone(clients, i, clientPath, links, trail)
  }

  lemma ClientNext(
    clients: seq<Client>, i: nat, clientPath: map<string, string>, owed: map<string, string>, owed': map<string, string>,
    links: map<string, set<string>>, links': map<string, set<string>>, trail: seq<Filing>, trail': seq<Filing>)
    requires i < |clients| && ClientsState(clients, i, clientPath, owed, links, trail) && trail <= trail'
    requires OneCardEach(clientPath) && DistinctNames(clients) && "" !in clientPath
    requires clients[i].name != "" ==> clients[i].name in clientPath
    requires DocsOf(trail') == DocsOf(trail) + clients[i].docs && CardLists(links', clientPath, trail', clients[i])
    requires SameExcept(links, links', OwnCard(clientPath, clients[i])) && owed' == owed - OwnCard(clientPath, clients[i])
    ensures ClientsState(clients, i + 1, clientPath, owed', links', trail')
  {
    AllDocsNext(clients, i);
    CardsStay(clients, i, clientPath, links, links', trail, trail');
    OwedShrinks(clients, i, clientPath, owed, owed');
  }

  /** The campaigns outside `todo` are tied or orphans, and nothing a note linked to was lost. */
  ghost predicate TiesState(
    rel: Relations, clientPath: map<string, string>, docAt: map<string, Doc>, start: map<string, set<string>>,
    links: map<string, set<string>>, orphans: set<string>, todo: set<string>)
  {
    && links.Keys == start.Keys && Grown(start, links) && docAt.Keys <= links.Keys
    && todo <= docAt.Keys && orphans <= docAt.Keys
    && TiesDone(rel, clientPath, docAt, links, orphans, todo)
  }

  lemma TiesNext(
    rel: Relations, clientPath: map<string, string>, docAt: map<string, Doc>, start: map<string, set<string>>,
    links: map<string, set<string>>, orphans: set<string>, todo: set<string>, p: string)
    requires TiesState(rel, clientPath, docAt, start, links, orphans, todo) && p in todo
    requires Targets(rel, clientPath, docAt, p) <= links.Keys
    ensures var targets := Targets(rel, clientPath, docAt, p);
            TiesState(rel, clientPath, docAt, start, Tied(links, p, targets),
                      if targets == {} then orphans + {p} else orphans, todo - {p})
  {
    var targets := Targets(rel, clientPath, docAt, p);
    TiedGrows(links, p, targets);
    GrownTransitive(start, links, Tied(links, p, targets));
    TiesStay(rel, clientPath, docAt, links, orphans, todo, p, targets);
  }

  lemma TiedGrows(links: map<string, set<string>>, p: string, targets: set<string>)
    ensures Grown(links, Tied(links, p, targets)) && Tied(links, p, targets).Keys == links.Keys
  {
  }

  lemma DocsLinked(docAt: map<string, Doc>, links: map<string, set<string>>, p: string, d: Doc, targets: set<string>)
    requires docAt.Keys <= links.Keys && p !in links
    ensures p !in docAt && docAt[p := d].Keys <= links[p := targets].Keys
  {
  }

  /** The state predicates of the planner are sealed: what they stand for takes part in a proof only where
      `Open`, or for the reservations `OpenNames`, is mentioned. */
  predicate Open(k: nat) {
    k >= 0
  }

  predicate OpenNames(k: nat) {
    k >= 0
  }

  class VaultPlanner {
    const key: string -> string
    const discriminator: string -> string
    const identity: string -> string
    var claimed: set<string>                 // portable keys
    var links: map<string, set<string>>      // the notes, each with the paths its wikilinks name
    var clientPath: map<string, string>
    var clientByIdentity: map<string, string>
    var shelf: Shelf
    var docAt: map<string, Doc>
    ghost var paths: set<string>             // every path reserved so far
    ghost var holder: map<string, string>    // and the portable key it took
    ghost var owed: map<string, string>      // reserved cards whose note is still to be written
    ghost var trail: seq<Filing>             // the documents filed, in order
    ghost var log: seq<Claimed>              // the reservations, in order

    ghost predicate Valid()
      reads this
    {
      PathsValid() && ShelfValid() && docAt.Keys <= links.Keys
    }

    ghost predicate ShelfValid()
      reads `shelf, `trail, `docAt
    {
      forall k: nat {:trigger Open(k)} :: Open(k) ==>
        Filed(trail, shelf) && docAt.Keys == shelf.owner.Keys && NotesOf(docAt, trail)
    }

    ghost predicate PathsValid()
      reads `claimed, `holder, `paths, `links, `owed, `clientPath, `clientByIdentity, `log
    {
      forall k: nat {:trigger Open(k)} :: Open(k) ==> Reserved() && BookGood(paths, links, owed, clientPath, clientByIdentity)
    }

    ghost predicate Reserved()
      reads `claimed, `holder, `paths, `log
    {
      forall k: nat {:trigger OpenNames(k)} :: OpenNames(k) ==>
        claimed == holder.Keys && Holders(key, holder, paths) && Logged(key, log, claimed, paths)
    }

    /** As the planner starts: the root note, and nothing else. */
    ghost predicate Unused()
      reads this
    {
      && Valid() && trail == [] && log == [] && links == map[ROOT := {}] && paths == {ROOT} && clientPath == map[] && owed == map[]
      && clientByIdentity == map[]
    }

    constructor (key: string -> string, discriminator: string -> string, identity: string -> string)
      ensures Unused() && this.key == key && this.discriminator == discriminator && this.identity == identity
    {
      this.key, this.discriminator, this.identity := key, discriminator, identity;
      claimed, holder, paths, links := {key(Note(ROOT))}, map[key(Note(ROOT)) := ROOT], {ROOT}, map[ROOT := {}];
      clientPath, clientByIdentity, docAt, trail, owed, log := map[], map[], map[], [], map[], [];
      shelf := EMPTY_SHELF;
    }

    /** Reserves the first free name of a base. */
    method Claim(prefix: string, base: string, separator: string) returns (path: string)
      requires Reserved() && NumbersApart(key)
      modifies `claimed, `paths, `holder, `log
      ensures Reserved() && log == old(log) + [Claimed(prefix, base, separator, path)]
      ensures path !in old(paths) && paths == old(paths) + {path}
      ensures FirstFree(key, old(claimed), prefix, base, separator, path)
    {
      assert OpenNames(0);
      path := FreeName(key, claimed, prefix, base, separator);
      HolderGrows(key, holder, paths, path);
      LoggedNext(key, log, claimed, paths, Claimed(prefix, base, separator, path));
      log := log + [Claimed(prefix, base, separator, path)];
      claimed := claimed + {key(Note(path))};
      paths, holder := paths + {path}, holder[key(Note(path)) := path];
    }

    /** A new linked note under the first free name of a base. */
    method LinkNote(base: string, separator: string, targets: set<string>) returns (p: string)
      requires PathsValid() && NumbersApart(key) && targets <= paths
      modifies `claimed, `paths, `holder, `log, `links
      ensures PathsValid() && p !in old(paths) && p !in old(links) && links == old(links)[p := targets]
      ensures log == old(log) + [Claimed("docs", base, separator, p)]
    {
      assert Open(0);
      p := Claim("docs", base, separator);
      NoteBooked(old(paths), links, owed, clientPath, clientByIdentity, p, targets);
      links := links[p := targets];
    }

    /** A new document note, with the discriminator its kind demands. */
    method MakeNote(d: Doc) returns (p: string)
      requires Valid() && NumbersApart(key) && Place(shelf, d) == Fresh
      modifies `claimed, `paths, `holder, `log, `shelf, `trail, `docAt, `links
      ensures Valid() && trail == old(trail) + [Filing(old(shelf), d, p)] && docAt == old(docAt)[p := d]
      ensures p !in old(links) && links == old(links)[p := Backlinks(clientPath, clientByIdentity, identity, d)]
      ensures p !in old(paths) && log == old(log) + [NoteClaim(discriminator, Filing(old(shelf), d, p))]
    {
      var targets := Backlinks(clientPath, clientByIdentity, identity, d);
      var base := if d.pinned then d.base + "-" + discriminator(d.externalId) else d.base;
      var separator := if d.pinned then "-dup-" else "_";
      BacklinksPlanned(d);
      ghost var docs, before := docAt, links;
      p := LinkNote(base, separator, targets);
      DocsLinked(docs, before, p, d, targets);
      FileUnder(d, p);
      assert PathsValid();
    }

    /** Files a document under a note that is its own. */
    method FileUnder(d: Doc, p: string)
      requires ShelfValid() && Place(shelf, d) == Fresh && p !in docAt
      modifies `shelf, `trail, `docAt
      ensures ShelfValid()
      ensures docAt == old(docAt)[p := d] && trail == old(trail) + [Filing(old(shelf), d, p)]
    {
      assert Open(0);
      var next := Shelved(shelf, d, p);
      ghost var more := trail + [Filing(shelf, d, p)];
      FiledNext(trail, Filing(shelf, d, p));
      NotesOfNext(docAt, trail, Filing(shelf, d, p));
      assert docAt[p := d].Keys == docAt.Keys + {p};
      shelf, trail, docAt := next, more, docAt[p := d];
    }

    /** Files a document under a note that serves another already. */
    method FileAgain(d: Doc, p: string)
      requires ShelfValid() && Place(shelf, d) == Reuse(p)
      modifies `shelf, `trail
      ensures ShelfValid() && p in docAt && trail == old(trail) + [Filing(old(shelf), d, p)]
    {
      assert Open(0);
      var next := Reused(shelf, d, p);
      ghost var more := trail + [Filing(shelf, d, p)];
      FiledNext(trail, Filing(shelf, d, p));
      NotesOfNext(docAt, trail, Filing(shelf, d, p));
      shelf, trail := next, more;
    }

    /** Places one document: a note that serves it already, or a new one. None is the refusal of the whole
        plan: two owners for one source, or no external id where the file name needs one. */
    method AddDocument(d: Doc) returns (r: Option<string>)
      requires Valid() && NumbersApart(key)
      modifies `claimed, `paths, `holder, `log, `shelf, `trail, `docAt, `links
      ensures Valid()
      ensures r.None? <==> Refuses(old(shelf), d)
      ensures r.None? ==> shelf == old(shelf) && trail == old(trail) && links == old(links) && log == old(log)
      ensures r.Some? ==> trail == old(trail) + [Filing(old(shelf), d, r.value)] && docAt.Keys == old(docAt.Keys) + {r.value}
      ensures r.Some? ==> NoteKept(Place(old(shelf), d), r.value, Backlinks(clientPath, clientByIdentity, identity, d), old(links), links)
      ensures r.Some? ==> NoteReserved(discriminator, Filing(old(shelf), d, r.value), old(log), log)
      ensures r.Some? && Place(old(shelf), d).Fresh? ==> r.value !in old(paths)
    {
      if Refuses(shelf, d) {
        return None;
      }
      var found := Place(shelf, d);
      if found.Reuse? {
        FileAgain(d, found.path);
        r := Some(found.path);
      } else {
        var p := MakeNote(d);
        r := Some(p);
      }
    }

    method ReserveCard(c: Client) returns (p: string)
      requires PathsValid() && NumbersApart(key) && c.name != "" && c.name !in clientPath
      modifies `claimed, `paths, `holder, `log, `clientPath, `clientByIdentity, `owed
      ensures PathsValid() && p !in old(owed)
      ensures Deck() == WithCard(old(Deck()), c.name, p) && owed == old(owed)[p := c.name]
      ensures log == old(log) + [Claimed("clients", c.base, "_", p)]
    {
      assert Open(0);
      p := Claim("clients", c.base, "_");
      var k := identity(c.name);
      var byIdentity := if k != "" && k !in clientByIdentity then clientByIdentity[k := p] else clientByIdentity;
      CardBooked(old(paths), links, owed, clientPath, clientByIdentity, p, c.name, byIdentity);
      clientPath, owed, clientByIdentity := clientPath[c.name := p], owed[p := c.name], byIdentity;
    }

    /** Reserves every client's card before any document is looked at. */
    method ReserveCards(clients: seq<Client>)
      requires PathsValid() && NumbersApart(key) && DistinctNames(clients) && clientPath == map[] && owed == map[]
      requires log == [] && clientByIdentity == map[]
      modifies `claimed, `paths, `holder, `log, `clientPath, `clientByIdentity, `owed
      ensures PathsValid() && CardsState(clients, |clients|, Deck(), owed, log)
    {
      for i := 0 to |clients|
        invariant PathsValid() && CardsState(clients, i, Deck(), owed, log)
      {
        ghost var before, left, reserved := Deck(), owed, log;
        NotYetReserved(clients, i, clientPath, owed);
        if clients[i].name != "" {
          var p := ReserveCard(clients[i]);
          CardNext(clients, i, before, left, reserved, owed, p);
        } else {
          NoCard(clients, i, before, left, reserved);
        }
      }
    }

    ghost function Deck(): Cards
      reads `clientPath, `clientByIdentity
    {
      Cards(clientPath, clientByIdentity, identity)
    }

    /** Files one document, for the loop over the documents of a client. */
    method AddOne(d: Doc) returns (r: Option<string>)
      requires Valid() && NumbersApart(key)
      modifies `claimed, `paths, `holder, `log, `shelf, `trail, `docAt, `links
      ensures Valid()
      ensures r.None? ==> Refuses(shelf, d) && trail == old(trail) && links == old(links) && log == old(log)
      ensures r.Some? ==> trail == old(trail) + [Filing(old(shelf), d, r.value)] && docAt.Keys == old(docAt.Keys) + {r.value}
      ensures r.Some? ==> FiledOne(discriminator, Deck(), Filing(old(shelf), d, r.value), old(links), links, old(log), log)
    {
      CardsAmong();
      r := AddDocument(d);
    }

    /** Places the documents of one client; the paths are what its card will link to. */
    method AddDocuments(docs: seq<Doc>, ghost cards: seq<Claimed>) returns (r: Option<set<string>>)
      requires Valid() && NumbersApart(key) && NotesGood(discriminator, Deck(), cards, trail, log, links)
      modifies `claimed, `paths, `holder, `log, `shelf, `trail, `docAt, `links
      ensures Valid() && old(trail) <= trail
      ensures r.Some? ==> DocsOf(trail) == DocsOf(old(trail)) + docs
      ensures r.Some? ==> r.value <= docAt.Keys && Listed(trail, docs, |docs|, r.value) && SameExcept(old(links), links, {})
      ensures r.None? ==> exists k: nat :: StoppedAt(trail, shelf, DocsOf(old(trail)) + docs, k)
      ensures NotesGood(discriminator, Deck(), cards, trail, log, links)
    {
      var found: set<string> := {};
      for i := 0 to |docs|
        invariant Valid() && found <= docAt.Keys && NotesGood(discriminator, Deck(), cards, trail, log, links)
        invariant FilingState(old(trail), trail, docs, i, found, old(links), links)
      {
        ghost var before, linked, s, reserved := trail, links, shelf, log;
        var p := AddOne(docs[i]);
        if p.None? {
          FilingStopped(old(trail), trail, docs, i, found, old(links), links, shelf);
          return None;
        }
        FilingNext(discriminator, Deck(), cards, old(trail), before, docs, i, found, old(links), linked, reserved,
                   Filing(s, docs[i], p.value), links, log);
        found := found + {p.value};
      }
      assert docs[..|docs|] == docs;
      assert Open(0);
      return Some(found);
    }

    /** Writes a client's card; it owes nothing any more. */
    method WriteCard(name: string, targets: set<string>)
      requires PathsValid() && name in clientPath && targets <= paths
      modifies `links, `owed
      ensures PathsValid() && links == old(links)[clientPath[name] := targets]
      ensures owed == old(owed) - {clientPath[name]}
    {
      assert Open(0);
      CardWritten(paths, links, owed, clientPath, clientByIdentity, clientPath[name], targets);
      links, owed := links[clientPath[name] := targets], owed - {clientPath[name]};
    }

    /** One client: its documents, then its card. */
    method AddClient(c: Client, ghost cards: seq<Claimed>) returns (ok: bool)
      requires Valid() && NumbersApart(key) && (c.name != "" ==> c.name in clientPath) && "" !in clientPath
      requires NotesGood(discriminator, Deck(), cards, trail, log, links)
      modifies `claimed, `paths, `holder, `log, `shelf, `trail, `docAt, `links, `owed
      ensures Valid() && old(trail) <= trail
      ensures ok ==> DocsOf(trail) == DocsOf(old(trail)) + c.docs && CardLists(links, clientPath, trail, c)
      ensures ok ==> SameExcept(old(links), links, OwnCard(clientPath, c)) && owed == old(owed) - OwnCard(clientPath, c)
      ensures !ok ==> exists k: nat :: StoppedAt(trail, shelf, DocsOf(old(trail)) + c.docs, k)
      ensures NotesGood(discriminator, Deck(), cards, trail, log, links)
    {
      var found := AddDocuments(c.docs, cards);
      ok := found.Some?;
      if ok && c.name != "" {
        assert found.value <= paths by {
          assert Open(0);
        }
        ghost var before := links;
        WriteCard(c.name, found.value);
        NotesGoodWritten(discriminator, Deck(), cards, trail, log, before, c.name, found.value);
      }
    }

    /** Clients, documents and cards. On success every reserved path has its note and every card its
        documents; a refusal comes at the first document that is refused. */
    method AddClients(clients: seq<Client>) returns (ok: bool)
      requires Unused() && NumbersApart(key) && DistinctNames(clients)
      modifies this
      ensures Valid()
      ensures ok ==> owed == map[] && DocsOf(trail) == AllDocs(clients) && CardsDone(clients, |clients|, clientPath, links, trail)
      ensures !ok ==> exists k: nat :: StoppedAt(trail, shelf, AllDocs(clients), k)
      ensures NotesGood(discriminator, Deck(), CardClaims(clients, |clients|, clientPath), trail, log, links)
      ensures IdentityCards(clients, |clients|, Deck())
    {
      ReserveCards(clients);
      Owes();
      AllReserved(clients, clientPath, owed, links, trail);
      NoNotesYet(discriminator, Deck(), log, links);
      ok := FileClients(clients, log);
    }

    /** The clients after their cards have been reserved. */
    method FileClients(clients: seq<Client>, ghost reserved: seq<Claimed>) returns (ok: bool)
      requires Valid() && NumbersApart(key) && DistinctNames(clients)
      requires OneCardEach(clientPath) && "" !in clientPath && ClientsState(clients, 0, clientPath, owed, links, trail)
      requires forall i :: 0 <= i < |clients| && clients[i].name != "" ==> clients[i].name in clientPath
      requires NotesGood(discriminator, Deck(), reserved, trail, log, links)
      modifies `claimed, `paths, `holder, `log, `shelf, `trail, `docAt, `links, `owed
      ensures Valid()
      ensures ok ==> owed == map[] && DocsOf(trail) == AllDocs(clients) && CardsDone(clients, |clients|, clientPath, links, trail)
      ensures !ok ==> exists k: nat :: StoppedAt(trail, shelf, AllDocs(clients), k)
      ensures NotesGood(discriminator, Deck(), reserved, trail, log, links)
    {
      ghost var cards := clientPath;
      for i := 0 to |clients|
        invariant Valid() && clientPath == cards
        invariant ClientsState(clients, i, cards, owed, links, trail)
        invariant NotesGood(discriminator, Deck(), reserved, trail, log, links)
      {
        ghost var before, left, linked := trail, owed, links;
        ok := AddClient(clients[i], reserved);
        if !ok {
          StoppedInAll(clients, i, trail, shelf);
          return;
        }
        ClientNext(clients, i, cards, left, owed, linked, links, before, trail);
      }
      assert clients[..|clients|] == clients;
      NothingOwed(clients, owed);
      return true;
    }

    method TieOne(rel: Relations, p: string)
      requires PathsValid() && docAt.Keys <= links.Keys && paths == links.Keys && p in docAt
      modifies `links
      ensures PathsValid() && links == Tied(old(links), p, Targets(rel, clientPath, docAt, p))
      ensures Targets(rel, clientPath, docAt, p) <= old(links.Keys)
    {
      var targets := Targets(rel, clientPath, docAt, p);
      assert Open(0);
      TargetsPlanned(rel, paths, clientPath, docAt, p);
      TiedBooked(paths, links, owed, clientPath, clientByIdentity, p, targets);
      links := Tied(links, p, targets);
    }

    /** Ties every campaign note to its targets in both directions, one campaign after the other; those
        without a target are gathered. */
    method TieCampaigns(rel: Relations) returns (orphans: set<string>)
      requires PathsValid() && docAt.Keys <= links.Keys && paths == links.Keys
      modifies `links
      ensures PathsValid() && TiesState(rel, clientPath, docAt, old(links), links, orphans, {})
    {
      orphans := {};
      var todo := set p <- docAt | docAt[p].campaign;
      while todo != {}
        invariant PathsValid() && TiesState(rel, clientPath, docAt, old(links), links, orphans, todo)
        decreases todo
      {
        var p :| p in todo;
        var targets := Targets(rel, clientPath, docAt, p);
        ghost var before := links;
        TieOne(rel, p);
        TiesNext(rel, clientPath, docAt, old(links), before, orphans, todo, p);
        orphans := if targets == {} then orphans + {p} else orphans;
        todo := todo - {p};
      }
    }

    /** The ties, and the index of the campaigns that have none. */
    method LinkCampaigns(rel: Relations)
      requires PathsValid() && docAt.Keys <= links.Keys && NumbersApart(key) && paths == links.Keys
      modifies `claimed, `paths, `holder, `log, `links
      ensures PathsValid() && Grown(old(links), links) && CampaignsTied(rel, clientPath, docAt, links)
      ensures old(log) <= log
    {
      var orphans := TieCampaigns(rel);
      ghost var before := links;
      if orphans != {} {
        var index := LinkNote("紐付け先の無い施策", "_", orphans);
        TiesIndexed(rel, clientPath, docAt, before, orphans, index);
      } else {
        TiesWithout(rel, clientPath, docAt, links);
      }
    }

    /** What the sealed state of a finished plan says. */
    lemma Finished()
      requires PathsValid() && owed == map[]
      ensures links.Keys == paths == PathsOf(log) && InTurn(key, log)
      ensures Apart(key, links.Keys) && forall p <- links :: links[p] <= links.Keys
    {
      assert Open(0) && OpenNames(0);
      HoldersApart(key, holder, paths);
    }

    lemma BacklinksPlanned(d: Doc)
      requires PathsValid()
      ensures Backlinks(clientPath, clientByIdentity, identity, d) <= paths
    {
      assert Open(0);
    }

    lemma CardsAmong()
      requires PathsValid()
      ensures Among(clientPath, paths)
    {
      assert Open(0);
    }

    lemma Owes()
      requires PathsValid()
      ensures forall p <- owed :: owed[p] in clientPath && clientPath[owed[p]] == p
    {
      assert Open(0);
    }

    lemma FiledNow()
      requires ShelfValid()
      ensures Filed(trail, shelf) && NotesOf(docAt, trail)
    {
      assert Open(0);
    }

    /** The whole plan. When it is not refused, exactly the documents of the clients are filed, no two of
        them with one identity and two owners; the notes have pairwise different portable keys, every
        wikilink names a planned note, every card its documents, and every campaign note is tied to its
        targets or listed in the index of those without any. A refusal has its reason among the documents.
        Two identities end up in one note exactly when some document merged them; when all documents carry
        an identity, notes are identities and a refusal means two owners. Every planned path comes from one
        reservation: first the cards, then the documents' notes in the order they were filed, each under the
        first name free at its turn. */
    method PlanVault(clients: seq<Client>, rel: Relations) returns (ok: bool)
      requires Unused() && NumbersApart(key) && DistinctNames(clients)
      modifies this
      ensures Valid() && Filed(trail, shelf)
      ensures ok ==> DocsOf(trail) == AllDocs(clients) && !TwoOwners(AllDocs(clients))
      ensures ok ==> Apart(key, links.Keys) && forall p <- links :: links[p] <= links.Keys
      ensures ok ==> CardsDone(clients, |clients|, clientPath, links, trail)
      ensures ok ==> CampaignsTied(rel, clientPath, docAt, links) && CampaignsLinked(rel, clientPath, trail, links)
      ensures ok ==> links.Keys == PathsOf(log) && InTurn(key, log)
      ensures ok ==> CardClaims(clients, |clients|, clientPath) + NoteClaims(discriminator, trail) <= log
      ensures ok ==> AllNamed(key, discriminator, log, trail, clients, clientPath)
      ensures ok ==> LinksBack(clients, Deck(), trail, links)
      ensures !ok ==> exists k: nat :: StoppedAt(trail, shelf, AllDocs(clients), k)
      ensures SharedNote(trail) <==> SomeMerge(trail)
      ensures AllIdentified(AllDocs(clients)) ==> NotesAreIdentities(trail) && (ok <==> !TwoOwners(AllDocs(clients)))
    {
      ok := AddClients(clients);
      FiledNow();
      PlanMeans(clients, trail, shelf, ok);
      if ok {
        FinishPlan(clients, rel);
      }
    }

    /** The campaigns, and what the finished plan means. */
    method FinishPlan(clients: seq<Client>, rel: Relations)
      requires Valid() && NumbersApart(key) && owed == map[] && CardsDone(clients, |clients|, clientPath, links, trail)
      requires NotesGood(discriminator, Deck(), CardClaims(clients, |clients|, clientPath), trail, log, links)
      requires IdentityCards(clients, |clients|, Deck())
      modifies `claimed, `paths, `holder, `log, `links
      ensures Valid()
      ensures Apart(key, links.Keys) && forall p <- links :: links[p] <= links.Keys
      ensures CardsDone(clients, |clients|, clientPath, links, trail)
      ensures CampaignsTied(rel, clientPath, docAt, links) && CampaignsLinked(rel, clientPath, trail, links)
      ensures links.Keys == PathsOf(log) && InTurn(key, log)
      ensures CardClaims(clients, |clients|, clientPath) + NoteClaims(discriminator, trail) <= log
      ensures AllNamed(key, discriminator, log, trail, clients, clientPath)
      ensures LinksBack(clients, Deck(), trail, links)
    {
      Finished();
      ghost var before, reserved := links, log;
      LinkCampaigns(rel);
      Finished();
      Meaning(clients, rel, before, reserved);
      PlanNamed(key, discriminator, clients, clientPath, trail, log);
    }

    lemma Meaning(clients: seq<Client>, rel: Relations, before: map<string, set<string>>, reserved: seq<Claimed>)
      requires ShelfValid() && Grown(before, links) && reserved <= log && CampaignsTied(rel, clientPath, docAt, links)
      requires CardsDone(clients, |clients|, clientPath, before, trail)
      requires NotesGood(discriminator, Deck(), CardClaims(clients, |clients|, clientPath), trail, reserved, before)
      requires IdentityCards(clients, |clients|, Deck())
      ensures CardsDone(clients, |clients|, clientPath, links, trail)
      ensures CampaignsLinked(rel, clientPath, trail, links)
      ensures CardClaims(clients, |clients|, clientPath) + NoteClaims(discriminator, trail) <= log
      ensures LinksBack(clients, Deck(), trail, links)
    {
      FiledNow();
      CardsGrow(clients, clientPath, before, links, trail);
      CampaignsMean(rel, clientPath, docAt, trail, links);
      BacklinksStay(discriminator, clients, Deck(), trail, reserved, before, links);
    }
  }
}
