/** Rendering the base environment: literal assignments are read, merged and written back in a quoting
    that the same reader understands (section 2.2.2 of the POSIX.1-2017 Shell Command Language). */
module BaseEnv {
  import opened Optional
  import opened Text

  // ---------------------------------------------------------------- characters

  predicate Upper(c: char) {
    'A' <= c <= 'Z'
  }

  predicate Digit(c: char) {
    '0' <= c <= '9'
  }

  /** Characters that end a line. */
  predicate LineBreak(c: char) {
    var n := c as int;
    0x0A <= n <= 0x0D || 0x1C <= n <= 0x1E || n == 0x85 || n == 0x2028 || n == 0x2029
  }

  /** Characters that need no quoting. */
  predicate Plain(c: char) {
    Upper(c) || Digit(c) || 'a' <= c <= 'z' || c in "_@%+=:,./-"
  }

  // ---------------------------------------------------------------- quoting

  /** The inside of a single-quoted word: an apostrophe leaves the quotes for a moment. */
  function Escaped(v: string): string {
    if v == "" then "" else (if v[0] == '\'' then "'\"'\"'" else [v[0]]) + Escaped(v[1..])
  }

  predicate AllPlain(v: string) {
    forall i :: 0 <= i < |v| ==> Plain(v[i])
  }

  function Quote(v: string): string {
    if v == "" then "''"
    else if AllPlain(v) then v
    else "'" + Escaped(v) + "'"
  }

  // ---------------------------------------------------------------- splitting a line into words

  datatype State =
    | Between             // before a word
    | Inside              // in a word, outside quotes
    | Quoted(q: char)     // in a word, inside quotes
    | Escape(back: State) // after a backslash

  /** The words of a line; None when a quote or an escape is left open. `word` is the word so far,
      `open` tells that there is one even when it is still empty. */
  function Words(s: string, state: State, word: string, open: bool): Option<seq<string>>
    decreases |s|
  {
    var done := if open then [word] else [];
    if s == "" then if state == Between || state == Inside then Some(done) else None
    else
      var c := s[0];
      match state
      case Quoted(q) =>
        if c == q then Words(s[1..], Inside, word, true)
        else if c == '\\' && q == '"' then Words(s[1..], Escape(state), word, true)
        else Words(s[1..], state, word + [c], true)
      case Escape(back) =>
        var kept := if back.Quoted? && c != '\\' && c != back.q then word + ['\\', c] else word + [c];
        Words(s[1..], back, kept, true)
      case _ =>
        if c in " \t\r\n" then Then(done, Words(s[1..], Between, "", false))
        else if c == '#' then Some(done)
        else if c == '\\' then Words(s[1..], Escape(Inside), word, open)
        else if c == '\'' || c == '"' then Words(s[1..], Quoted(c), word, true)
        else Words(s[1..], Inside, word + [c], true)
  }

  function Then(done: seq<string>, rest: Option<seq<string>>): Option<seq<string>> {
    if rest.Some? then Some(done + rest.value) else None
  }

  lemma {:induction false} PlainRun(a: string, rest: string, state: State, word: string, open: bool)
    requires forall i :: 0 <= i < |a| ==> Plain(a[i])
    requires a != "" && (state == Between || state == Inside)
    ensures Words(a + rest, state, word, open) == Words(rest, Inside, word + a, true)
    decreases |a|
  {
    var s := a + rest;
    assert s[0] == a[0] && s[1..] == a[1..] + rest;
    assert a[0] !in " \t\r\n" && a[0] != '#' && a[0] != '\\' && a[0] != '\'' && a[0] != '"';
    assert Words(s, state, word, open) == Words(a[1..] + rest, Inside, word + [a[0]], true);
    if |a| > 1 {
      PlainRun(a[1..], rest, Inside, word + [a[0]], true);
      assert word + [a[0]] + a[1..] == word + a;
    } else {
      assert a[1..] + rest == rest && a == [a[0]];
    }
  }

  /** Leaving single quotes for one apostrophe and coming back. */
  lemma ApostropheRun(rest: string, word: string)
    ensures Words("'\"'\"'" + rest, Quoted('\''), word, true) == Words(rest, Quoted('\''), word + "'", true)
  {
    var s := "'\"'\"'" + rest;
    assert s[1..] == "\"'\"'" + rest;
    assert s[1..][1..] == "'\"'" + rest;
    assert s[1..][1..][1..] == "\"'" + rest;
    assert s[1..][1..][1..][1..] == "'" + rest;
    assert s[1..][1..][1..][1..][1..] == rest;
    assert Words(s, Quoted('\''), word, true) == Words(s[1..], Inside, word, true);
    assert Words(s[1..], Inside, word, true) == Words(s[1..][1..], Quoted('"'), word, true);
    assert Words(s[1..][1..], Quoted('"'), word, true) == Words(s[1..][1..][1..], Quoted('"'), word + ['\''], true);
    assert Words(s[1..][1..][1..], Quoted('"'), word + "'", true) == Words(s[1..][1..][1..][1..], Inside, word + "'", true);
  }

  lemma {:induction false} QuotedRun(v: string, rest: string, word: string)
    ensures Words(Escaped(v) + "'" + rest, Quoted('\''), word, true) == Words(rest, Inside, word + v, true)
    decreases |v|
  {
    var s := Escaped(v) + "'" + rest;
    if v == "" {
      assert s == "'" + rest && s[1..] == rest && word + v == word;
    } else {
      var tail := Escaped(v[1..]) + "'" + rest;
      QuotedRun(v[1..], rest, word + [v[0]]);
      assert word + [v[0]] + v[1..] == word + v;
      if v[0] == '\'' {
        assert s == "'\"'\"'" + tail;
        ApostropheRun(tail, word);
        assert word + "'" == word + [v[0]];
      } else {
        assert s == [v[0]] + tail && s[1..] == tail;
      }
    }
  }

  lemma PlainReadsBack(line: string)
    requires line != "" && forall i :: 0 <= i < |line| ==> Plain(line[i])
    ensures Words(line, Between, "", false) == Some([line])
  {
    PlainRun(line, "", Between, "", false);
    assert line + "" == line && "" + line == line;
  }

  lemma OpensQuote(body: string, word: string)
    ensures Words("'" + body, Inside, word, true) == Words(body, Quoted('\''), word, true)
  {
    assert ("'" + body)[1..] == body;
  }

  lemma QuotedReadsBack(head: string, v: string)
    requires head != "" && forall i :: 0 <= i < |head| ==> Plain(head[i])
    ensures Words(head + ("'" + (Escaped(v) + "'")), Between, "", false) == Some([head + v])
  {
    var body := Escaped(v) + "'";
    PlainRun(head, "'" + body, Between, "", false);
    assert "" + head == head;
    OpensQuote(body, head);
    QuotedRun(v, "", head);
    assert body + "" == body;
  }

  lemma QuoteForm(v: string)
    requires v == "" || !AllPlain(v)
    ensures Quote(v) == "'" + (Escaped(v) + "'")
  {
  }

  /** Quoting and reading undo each other: a name, an equals sign and the quoted value are one word. */
  lemma QuoteReadsBack(name: string, v: string)
    requires name != "" && forall i :: 0 <= i < |name| ==> Plain(name[i])
    ensures Words(name + "=" + Quote(v), Between, "", false) == Some([name + "=" + v])
  {
    var head := name + "=";
    assert forall i :: 0 <= i < |head| ==> Plain(head[i]);
    if v != "" && AllPlain(v) {
      PlainReadsBack(head + v);
    } else {
      QuoteForm(v);
      QuotedReadsBack(head, v);
    }
  }

  // ---------------------------------------------------------------- one line

  predicate KeyOk(name: string) {
    1 <= |name| <= 128 && Upper(name[0])
    && forall i :: 0 <= i < |name| ==> Upper(name[i]) || Digit(name[i]) || name[i] == '_'
  }

  predicate ValueOk(v: string) {
    && (forall i :: 0 <= i < |v| ==> v[i] != '\0' && v[i] != '\n' && v[i] != '\r' && v[i] != '`')
    && (forall i, j :: 0 <= i < |v| && 0 <= j < |v| && j == i + 1 && v[i] == '$' ==> v[j] != '(' && v[j] != '{')
  }

  /** The position of the first equals sign; the length when there is none. */
  function EqualsAt(s: string): (r: nat)
    ensures r <= |s| && (r < |s| ==> s[r] == '=') && forall i :: 0 <= i < r ==> s[i] != '='
  {
    if s == "" || s[0] == '=' then 0 else 1 + EqualsAt(s[1..])
  }

  datatype Line = Nothing | Bad | Assign(name: string, value: string)

  function Assignment(line: string): Line {
    var s := Strip(line);
    if s == "" || s[0] == '#' then Nothing
    else
      var w := Words(s, Between, "", false);
      if w.None? || |w.value| != 1 || EqualsAt(w.value[0]) == |w.value[0]| then Bad
      else
        var e := EqualsAt(w.value[0]);
        var name, value := w.value[0][..e], w.value[0][e + 1..];
        if KeyOk(name) && ValueOk(value) then Assign(name, value) else Bad
  }

  /** A printed assignment. */
  function Printed(name: string, v: string): string {
    name + "=" + Quote(v)
  }

  lemma KeyIsPlain(name: string)
    requires KeyOk(name)
    ensures forall i :: 0 <= i < |name| ==> Plain(name[i]) && name[i] != '='
  {
  }

  lemma QuoteEnds(v: string)
    ensures Quote(v) != "" && !Space(Quote(v)[|Quote(v)| - 1])
  {
  }

  lemma PrintedStripped(name: string, v: string)
    requires KeyOk(name)
    ensures Strip(Printed(name, v)) == Printed(name, v)
  {
    QuoteEnds(v);
    var s := Printed(name, v);
    assert s[0] == name[0] && s[|s| - 1] == Quote(v)[|Quote(v)| - 1];
    assert StripLeft(s) == s;
  }

  lemma FirstEquals(name: string, v: string)
    requires KeyOk(name)
    ensures EqualsAt(name + "=" + v) == |name|
  {
    KeyIsPlain(name);
    var s := name + "=" + v;
    assert s[|name|] == '=';
    assert forall i :: 0 <= i < |name| ==> s[i] == name[i];
  }

  /** A printed assignment is read back as what was printed. */
  lemma PrintedReadsBack(name: string, v: string)
    requires KeyOk(name) && ValueOk(v)
    ensures Assignment(Printed(name, v)) == Assign(name, v)
  {
    KeyIsPlain(name);
    PrintedStripped(name, v);
    QuoteReadsBack(name, v);
    FirstEquals(name, v);
    var w := name + "=" + v;
    assert w[..|name|] == name && w[|name| + 1..] == v;
    assert Printed(name, v)[0] == name[0];
  }

  // ---------------------------------------------------------------- lines of a file

  function BreakAt(s: string): (r: nat)
    ensures r <= |s| && (r < |s| ==> LineBreak(s[r])) && forall i :: 0 <= i < r ==> !LineBreak(s[i])
  {
    if s == "" || LineBreak(s[0]) then 0 else 1 + BreakAt(s[1..])
  }

  /** The lines of a text; a carriage return with a line feed is one break, and nothing follows the last break. */
  function SplitLines(s: string): (r: seq<string>)
    ensures forall k :: 0 <= k < |r| ==> OneLine(r[k])
    decreases |s|
  {
    if s == "" then []
    else
      var e := BreakAt(s);
      if e == |s| then [s]
      else
        var next := if s[e] == '\r' && e + 1 < |s| && s[e + 1] == '\n' then e + 2 else e + 1;
        [s[..e]] + SplitLines(s[next..])
  }

  predicate OneLine(s: string) {
    forall i :: 0 <= i < |s| ==> !LineBreak(s[i])
  }

  function Joined(lines: seq<string>): string {
    if lines == [] then "" else lines[0] + "\n" + Joined(lines[1..])
  }

  lemma {:induction false} SplitJoined(lines: seq<string>)
    requires forall k :: 0 <= k < |lines| ==> OneLine(lines[k])
    ensures SplitLines(Joined(lines)) == lines
    decreases |lines|
  {
    if lines != [] {
      SplitJoined(lines[1..]);
      FirstLine(lines[0], Joined(lines[1..]));
      assert lines == [lines[0]] + lines[1..];
    }
  }

  lemma FirstLine(line: string, rest: string)
    requires OneLine(line)
    ensures SplitLines(line + "\n" + rest) == [line] + SplitLines(rest)
  {
    var s := line + "\n" + rest;
    BreakFound(line, rest);
    assert BreakAt(s) == |line| && s[|line|] == '\n';
    assert s[..|line|] == line;
    assert s[|line| + 1..] == rest;
  }

  lemma BreakFound(line: string, rest: string)
    requires OneLine(line)
    ensures BreakAt(line + "\n" + rest) == |line|
  {
    var s := line + "\n" + rest;
    var b := BreakAt(s);
    assert LineBreak(s[|line|]);
    assert forall i :: 0 <= i < |line| ==> s[i] == line[i];
    assert !(b < |line|) && !(b > |line|);
  }

  ghost predicate OneLineWords(w: Option<seq<string>>) {
    w.Some? ==> forall k :: 0 <= k < |w.value| ==> OneLine(w.value[k])
  }

  /** The words of a line hold characters of the line only, so a value read from a line is on one line. */
  lemma {:induction false} WordsOnLine(s: string, state: State, word: string, open: bool)
    requires OneLine(s) && OneLine(word)
    ensures OneLineWords(Words(s, state, word, open))
    decreases |s|
  {
    if s != "" {
      var c, rest := s[0], s[1..];
      var more := word + [c];
      assert OneLine(rest) && OneLine(more) && OneLine("");
      match state
      case Quoted(q) =>
        WordsOnLine(rest, Inside, word, true);
        WordsOnLine(rest, Escape(state), word, true);
        WordsOnLine(rest, state, more, true);
      case Escape(back) =>
        assert OneLine(word + ['\\', c]);
        WordsOnLine(rest, back, word + ['\\', c], true);
        WordsOnLine(rest, back, more, true);
      case _ =>
        WordsOnLine(rest, Between, "", false);
        WordsOnLine(rest, Escape(Inside), word, open);
        WordsOnLine(rest, Quoted(c), word, true);
        WordsOnLine(rest, Inside, more, true);
    }
  }

  lemma {:induction false} EscapedOnLine(v: string)
    requires OneLine(v)
    ensures OneLine(Escaped(v))
  {
    if v != "" {
      EscapedOnLine(v[1..]);
    }
  }

  lemma PrintedOnLine(name: string, v: string)
    requires KeyOk(name) && OneLine(v)
    ensures OneLine(Printed(name, v))
  {
    EscapedOnLine(v);
    KeyIsPlain(name);
    assert OneLine(name);
    assert OneLine(Quote(v));
  }

  lemma {:induction false} StripInside(s: string)
    requires OneLine(s)
    ensures OneLine(StripLeft(s)) && OneLine(StripRight(s))
    decreases |s|
  {
    if s != "" {
      if Space(s[0]) { StripInside(s[1..]); }
      if Space(s[|s| - 1]) { StripInside(s[..|s| - 1]); }
    }
  }

  /** What can be printed and read back: an accepted name and an accepted value on one line. */
  predicate Printable(name: string, v: string) {
    KeyOk(name) && ValueOk(v) && OneLine(v)
  }

  lemma AssignedIsPrintable(line: string)
    requires OneLine(line) && Assignment(line).Assign?
    ensures Printable(Assignment(line).name, Assignment(line).value)
  {
    StripInside(line);
    StripInside(StripLeft(line));
    WordsOnLine(Strip(line), Between, "", false);
  }

  // ---------------------------------------------------------------- files

  type Pairs = seq<(string, string)>

  predicate Has(p: Pairs, name: string) {
    exists i :: 0 <= i < |p| && p[i].0 == name
  }

  /** The assignments of one source, in order; refused when a line is bad, a name repeats or the
      allow-list rejects an assignment. */
  function ReadSource(lines: seq<string>, allowed: (string, string) -> bool): Option<Pairs> {
    if lines == [] then Some([])
    else
      var p, line := ReadSource(lines[..|lines| - 1], allowed), Assignment(lines[|lines| - 1]);
      if p.None? || line == Bad then None
      else if line == Nothing then p
      else if Has(p.value, line.name) || !allowed(line.name, line.value) then None
      else Some(p.value + [(line.name, line.value)])
  }

  function ReadAll(sources: seq<string>, allowed: (string, string) -> bool): Option<Pairs> {
    if sources == [] then Some([])
    else
      var p := ReadAll(sources[..|sources| - 1], allowed);
      var q := ReadSource(SplitLines(sources[|sources| - 1]), allowed);
      if p.Some? && q.Some? then Some(p.value + q.value) else None
  }

  /** The names in the order they first appear. */
  function Names(p: Pairs): seq<string> {
    if p == [] then []
    else
      var n := Names(p[..|p| - 1]);
      if p[|p| - 1].0 in n then n else n + [p[|p| - 1].0]
  }

  /** The last value assigned to a name. */
  function Value(p: Pairs, name: string): string {
    if p == [] then "" else if p[|p| - 1].0 == name then p[|p| - 1].1 else Value(p[..|p| - 1], name)
  }

  function Merged(p: Pairs): Pairs {
    var names := Names(p);
    seq(|names|, i requires 0 <= i < |names| => (names[i], Value(p, names[i])))
  }

  function PrintedLines(p: Pairs): seq<string> {
    seq(|p|, i requires 0 <= i < |p| => Printed(p[i].0, p[i].1))
  }

  /** Last value wins, first appearance decides the order. */
  function Rendered(sources: seq<string>, allowed: (string, string) -> bool): Option<string> {
    var p := ReadAll(sources, allowed);
    if p.None? then None else Some(Joined(PrintedLines(Merged(p.value))))
  }

  // ---------------------------------------------------------------- what merging means

  /** Position i is the first, or the last, assignment to its name. */
  predicate FirstOf(p: Pairs, i: nat) {
    i < |p| && forall k :: 0 <= k < i ==> p[k].0 != p[i].0
  }

  predicate LastOf(p: Pairs, i: nat) {
    i < |p| && forall k :: i < k < |p| ==> p[k].0 != p[i].0
  }

  predicate Distinct(names: seq<string>) {
    forall a, b :: 0 <= a < b < |names| ==> names[a] != names[b]
  }

  lemma HasGrows(p: Pairs, n: string)
    requires p != []
    ensures Has(p, n) <==> Has(p[..|p| - 1], n) || p[|p| - 1].0 == n
  {
    var q := p[..|p| - 1];
    if Has(p, n) {
      var i :| 0 <= i < |p| && p[i].0 == n;
      assert i < |q| ==> q[i].0 == n;
    }
    if Has(q, n) {
      var i :| 0 <= i < |q| && q[i].0 == n;
      assert p[i].0 == n;
    }
  }

  lemma {:induction false} NamesAreHeld(p: Pairs)
    ensures Distinct(Names(p))
    ensures forall n :: n in Names(p) <==> Has(p, n)
  {
    if p != [] {
      var q := p[..|p| - 1];
      NamesAreHeld(q);
      assert Names(p) == if p[|p| - 1].0 in Names(q) then Names(q) else Names(q) + [p[|p| - 1].0];
      forall n ensures n in Names(p) <==> Has(p, n) {
        HasGrows(p, n);
      }
    }
  }

  /** The position in the merge of a name is decided by its first appearance. */
  lemma {:induction false} FirstAppearanceOrder(p: Pairs, i: nat, j: nat)
    requires FirstOf(p, i) && FirstOf(p, j) && i < j
    ensures exists a, b :: 0 <= a < b < |Names(p)| && Names(p)[a] == p[i].0 && Names(p)[b] == p[j].0
    decreases |p|
  {
    var q := p[..|p| - 1];
    NamesAreHeld(q);
    if j < |q| {
      FirstAppearanceOrder(q, i, j);
      var a, b :| 0 <= a < b < |Names(q)| && Names(q)[a] == q[i].0 && Names(q)[b] == q[j].0;
      assert Names(p)[a] == p[i].0 && Names(p)[b] == p[j].0;
    } else {
      assert q[i].0 == p[i].0;
      assert Has(q, p[i].0);
      assert !Has(q, p[j].0);
      var a :| 0 <= a < |Names(q)| && Names(q)[a] == p[i].0;
      assert Names(p) == Names(q) + [p[j].0];
      assert Names(p)[a] == p[i].0 && Names(p)[|Names(q)|] == p[j].0;
    }
  }

  lemma {:induction false} LastValueWins(p: Pairs, i: nat)
    requires LastOf(p, i)
    ensures Value(p, p[i].0) == p[i].1
    decreases |p|
  {
    if i < |p| - 1 {
      var q := p[..|p| - 1];
      assert forall k :: i < k < |q| ==> q[k] == p[k];
      LastValueWins(q, i);
    }
  }

  lemma {:induction false} LastExists(p: Pairs, name: string) returns (i: nat)
    requires Has(p, name)
    ensures LastOf(p, i) && p[i].0 == name
    decreases |p|
  {
    if p[|p| - 1].0 == name {
      i := |p| - 1;
    } else {
      var q := p[..|p| - 1];
      var k :| 0 <= k < |p| && p[k].0 == name;
      assert q[k].0 == name;
      i := LastExists(q, name);
      assert forall k :: i < k < |q| ==> p[k] == q[k];
    }
  }

  /** Pairs with distinct names are their own merge. */
  lemma {:induction false} MergeOfDistinct(p: Pairs)
    requires Apart(p)
    ensures Merged(p) == p
  {
    DistinctNames(p);
    forall k | 0 <= k < |p| ensures Merged(p)[k] == p[k] {
      LastValueWins(p, k);
    }
  }

  lemma {:induction false} DistinctNames(p: Pairs)
    requires Apart(p)
    ensures |Names(p)| == |p| && forall k :: 0 <= k < |p| ==> Names(p)[k] == p[k].0
    decreases |p|
  {
    if p != [] {
      var q := p[..|p| - 1];
      DistinctNames(q);
      assert forall k :: 0 <= k < |q| ==> q[k] == p[k];
    }
  }

  // ---------------------------------------------------------------- what reading keeps

  predicate Accepted(p: Pairs, allowed: (string, string) -> bool) {
    forall k :: 0 <= k < |p| ==> Printable(p[k].0, p[k].1) && allowed(p[k].0, p[k].1)
  }

  lemma {:induction false} SourceAccepted(lines: seq<string>, allowed: (string, string) -> bool)
    requires forall k :: 0 <= k < |lines| ==> OneLine(lines[k])
    ensures ReadSource(lines, allowed).Some? ==> Accepted(ReadSource(lines, allowed).value, allowed)
    decreases |lines|
  {
    if lines != [] {
      SourceAccepted(lines[..|lines| - 1], allowed);
      var last := lines[|lines| - 1];
      if Assignment(last).Assign? {
        AssignedIsPrintable(last);
      }
    }
  }

  lemma {:induction false} AllAccepted(sources: seq<string>, allowed: (string, string) -> bool)
    ensures ReadAll(sources, allowed).Some? ==> Accepted(ReadAll(sources, allowed).value, allowed)
    decreases |sources|
  {
    if sources != [] {
      AllAccepted(sources[..|sources| - 1], allowed);
      SourceAccepted(SplitLines(sources[|sources| - 1]), allowed);
    }
  }

  lemma ReadNext(lines: seq<string>, line: string, p: Pairs, name: string, v: string, allowed: (string, string) -> bool)
    requires ReadSource(lines, allowed) == Some(p) && Assignment(line) == Assign(name, v)
    requires !Has(p, name) && allowed(name, v)
    ensures ReadSource(lines + [line], allowed) == Some(p + [(name, v)])
  {
    var more := lines + [line];
    assert more[..|more| - 1] == lines && more[|more| - 1] == line;
  }

  /** Distinct accepted pairs, printed one a line, are read back as they are. */
  lemma {:induction false} PrintedSourceReadsBack(p: Pairs, allowed: (string, string) -> bool)
    requires Accepted(p, allowed) && Apart(p)
    ensures ReadSource(PrintedLines(p), allowed) == Some(p)
    decreases |p|
  {
    if p != [] {
      var q, last := p[..|p| - 1], p[|p| - 1];
      LastIsNew(p, allowed);
      PrintedSourceReadsBack(q, allowed);
      PrintedReadsBack(last.0, last.1);
      ReadNext(PrintedLines(q), Printed(last.0, last.1), q, last.0, last.1, allowed);
      PrintedLast(p);
    }
  }

  predicate Apart(p: Pairs) {
    forall a, b :: 0 <= a < b < |p| ==> p[a].0 != p[b].0
  }

  lemma LastIsNew(p: Pairs, allowed: (string, string) -> bool)
    requires p != [] && Accepted(p, allowed) && Apart(p)
    ensures var q, last := p[..|p| - 1], p[|p| - 1];
            && Accepted(q, allowed) && Apart(q) && !Has(q, last.0)
            && Printable(last.0, last.1) && allowed(last.0, last.1)
  {
    assert forall k :: 0 <= k < |p| - 1 ==> p[..|p| - 1][k] == p[k];
  }

  lemma PrintedLast(p: Pairs)
    requires p != []
    ensures var q, last := p[..|p| - 1], p[|p| - 1];
            p == q + [last] && PrintedLines(p) == PrintedLines(q) + [Printed(last.0, last.1)]
  {
  }

  lemma MergeAccepted(p: Pairs, allowed: (string, string) -> bool)
    requires Accepted(p, allowed)
    ensures Accepted(Merged(p), allowed) && Apart(Merged(p))
  {
    NamesAreHeld(p);
    var m := Merged(p);
    forall k | 0 <= k < |m| ensures Printable(m[k].0, m[k].1) && allowed(m[k].0, m[k].1) {
      assert m[k].0 in Names(p);
      var i := LastExists(p, m[k].0);
      LastValueWins(p, i);
    }
  }

  /** The rendered text reads back as the merge of what was read, and rendering it again changes nothing. */
  lemma RenderIsFixpoint(sources: seq<string>, allowed: (string, string) -> bool)
    requires Rendered(sources, allowed).Some?
    ensures var text := Rendered(sources, allowed).value;
      && ReadAll([text], allowed) == Some(Merged(ReadAll(sources, allowed).value))
      && Rendered([text], allowed) == Some(text)
  {
    var p, text := ReadAll(sources, allowed).value, Rendered(sources, allowed).value;
    AllAccepted(sources, allowed);
    MergeAccepted(p, allowed);
    var m := Merged(p);
    PrintedTextReadsBack(m, allowed);
    ReadOne(text, allowed, m);
    MergeOfDistinct(m);
  }

  /** The printed text of distinct accepted pairs is read back as the pairs. */
  lemma PrintedTextReadsBack(p: Pairs, allowed: (string, string) -> bool)
    requires Accepted(p, allowed) && Apart(p)
    ensures ReadSource(SplitLines(Joined(PrintedLines(p))), allowed) == Some(p)
  {
    var lines := PrintedLines(p);
    forall k | 0 <= k < |lines| ensures OneLine(lines[k]) {
      PrintedOnLine(p[k].0, p[k].1);
    }
    SplitJoined(lines);
    PrintedSourceReadsBack(p, allowed);
  }

  lemma ReadOne(text: string, allowed: (string, string) -> bool, p: Pairs)
    requires ReadSource(SplitLines(text), allowed) == Some(p)
    ensures ReadAll([text], allowed) == Some(p)
  {
    assert [text][..0] == [];
    assert [] + p == p;
  }

  // ---------------------------------------------------------------- what is refused, and what overrides

  /** Line k assigns, and no earlier line assigns the same name. */
  predicate AssignsAnew(lines: seq<string>, k: nat, allowed: (string, string) -> bool)
    requires k < |lines|
  {
    var line := Assignment(lines[k]);
    && line.Assign? && allowed(line.name, line.value)
    && forall j :: 0 <= j < k ==> !Assigns(lines[j], line.name)
  }

  predicate Assigns(line: string, name: string) {
    Assignment(line).Assign? && Assignment(line).name == name
  }

  lemma {:induction false} ReadNames(lines: seq<string>, allowed: (string, string) -> bool, name: string)
    requires ReadSource(lines, allowed).Some?
    ensures Has(ReadSource(lines, allowed).value, name) <==> exists j :: 0 <= j < |lines| && Assigns(lines[j], name)
    decreases |lines|
  {
    if lines != [] {
      var q, n := lines[..|lines| - 1], |lines| - 1;
      ReadNames(q, allowed, name);
      var p := ReadSource(lines, allowed).value;
      if Assignment(lines[n]).Assign? {
        HasGrows(p, name);
        assert p[..|p| - 1] == ReadSource(q, allowed).value;
      }
      forall j | 0 <= j < |lines| && Assigns(lines[j], name) ensures Has(p, name) {
        assert j < n ==> q[j] == lines[j];
      }
      if Has(ReadSource(q, allowed).value, name) {
        var j :| 0 <= j < |q| && Assigns(q[j], name);
        assert Assigns(lines[j], name);
      }
    }
  }

  /** A source is read if and only if every line of it is blank, a comment, or an allowed assignment to a
      name that no earlier line assigns: nothing malformed is passed over. */
  lemma {:induction false} ReadIff(lines: seq<string>, allowed: (string, string) -> bool)
    ensures ReadSource(lines, allowed).Some? <==>
            forall k: nat :: k < |lines| ==> Assignment(lines[k]) == Nothing || AssignsAnew(lines, k, allowed)
    decreases |lines|
  {
    if lines != [] {
      var q, n := lines[..|lines| - 1], |lines| - 1;
      ReadIff(q, allowed);
      forall k: nat | k < n ensures AssignsAnew(q, k, allowed) <==> AssignsAnew(lines, k, allowed) {
      }
      if ReadSource(q, allowed).Some? && Assignment(lines[n]).Assign? {
        ReadNames(q, allowed, Assignment(lines[n]).name);
        assert forall j :: 0 <= j < n ==> q[j] == lines[j];
      }
    }
  }

  lemma {:induction false} ValueOfBoth(p: Pairs, q: Pairs, name: string)
    ensures Value(p + q, name) == if Has(q, name) then Value(q, name) else Value(p, name)
    decreases |q|
  {
    if q == [] {
      assert p + q == p;
    } else {
      var n := |q| - 1;
      assert (p + q)[..|p + q| - 1] == p + q[..n];
      ValueOfBoth(p, q[..n], name);
      HasGrows(q, name);
    }
  }

  lemma {:induction false} NamesOfBoth(p: Pairs, q: Pairs)
    ensures Names(p) <= Names(p + q)
    decreases |q|
  {
    if q == [] {
      assert p + q == p;
    } else {
      assert (p + q)[..|p + q| - 1] == p + q[..|q| - 1];
      NamesOfBoth(p, q[..|q| - 1]);
    }
  }

  /** A later source overrides the values of the earlier ones, and leaves their names where they are. */
  lemma LaterSourceOverrides(sources: seq<string>, text: string, allowed: (string, string) -> bool, name: string)
    requires ReadAll(sources + [text], allowed).Some?
    ensures ReadAll(sources, allowed).Some? && ReadSource(SplitLines(text), allowed).Some?
    ensures var all, p, q := ReadAll(sources + [text], allowed).value, ReadAll(sources, allowed).value,
                             ReadSource(SplitLines(text), allowed).value;
            && Value(all, name) == (if Has(q, name) then Value(q, name) else Value(p, name))
            && Names(p) <= Names(all)
  {
    var more := sources + [text];
    assert more[..|more| - 1] == sources && more[|more| - 1] == text;
    var p, q := ReadAll(sources, allowed).value, ReadSource(SplitLines(text), allowed).value;
    ValueOfBoth(p, q, name);
    NamesOfBoth(p, q);
  }

  // ---------------------------------------------------------------- the renderer

  lemma {:induction false} RefusedStays(lines: seq<string>, k: nat, allowed: (string, string) -> bool)
    requires k <= |lines| && ReadSource(lines[..k], allowed).None?
    ensures ReadSource(lines, allowed).None?
    decreases |lines|
  {
    if k == |lines| {
      assert lines[..k] == lines;
    } else {
      assert lines[..|lines| - 1][..k] == lines[..k];
      RefusedStays(lines[..|lines| - 1], k, allowed);
    }
  }

  lemma {:induction false} RefusedSourceStays(sources: seq<string>, k: nat, allowed: (string, string) -> bool)
    requires k < |sources| && ReadSource(SplitLines(sources[k]), allowed).None?
    ensures ReadAll(sources, allowed).None?
    decreases |sources|
  {
    if k < |sources| - 1 {
      RefusedSourceStays(sources[..|sources| - 1], k, allowed);
    }
  }

  /** The running values are the last ones, the running order the order of first appearance. */
  ghost predicate Holds(values: map<string, string>, order: seq<string>, p: Pairs) {
    order == Names(p) && forall n :: (n in values <==> Has(p, n)) && (n in values ==> values[n] == Value(p, n))
  }

  lemma HoldsNext(values: map<string, string>, order: seq<string>, p: Pairs, name: string, value: string)
    requires Holds(values, order, p)
    ensures Holds(values[name := value], if name in values then order else order + [name], p + [(name, value)])
  {
    var q := p + [(name, value)];
    NamesAreHeld(p);
    NamesAreHeld(q);
    assert q[..|q| - 1] == p;
  }

  method ReadLines(lines: seq<string>, allowed: (string, string) -> bool, values0: map<string, string>,
                   order0: seq<string>, ghost before: Pairs)
    returns (ok: bool, values: map<string, string>, order: seq<string>)
    requires Holds(values0, order0, before)
    ensures ok <==> ReadSource(lines, allowed).Some?
    ensures ok ==> Holds(values, order, before + ReadSource(lines, allowed).value)
  {
    values, order := values0, order0;
    var seen: set<string> := {};
    ghost var mine: Pairs := [];
    assert before + mine == before;
    for k := 0 to |lines|
      invariant ReadSource(lines[..k], allowed) == Some(mine)
      invariant forall n :: n in seen <==> Has(mine, n)
      invariant Holds(values, order, before + mine)
    {
      var line := Assignment(lines[k]);
      assert lines[..k + 1][..k] == lines[..k];
      if line == Bad || (line.Assign? && (line.name in seen || !allowed(line.name, line.value))) {
        RefusedStays(lines, k + 1, allowed);
        return false, values, order;
      }
      if line.Assign? {
        HoldsNext(values, order, before + mine, line.name, line.value);
        assert before + mine + [(line.name, line.value)] == before + (mine + [(line.name, line.value)]);
        SeenNext(mine, line.name, line.value);
        seen := seen + {line.name};
        mine := mine + [(line.name, line.value)];
        order := if line.name in values then order else order + [line.name];
        values := values[line.name := line.value];
      }
    }
    assert lines[..|lines|] == lines;
    ok := true;
  }

  lemma SeenNext(p: Pairs, name: string, value: string)
    ensures forall n :: Has(p + [(name, value)], n) <==> Has(p, n) || n == name
  {
    var q := p + [(name, value)];
    forall n ensures Has(q, n) <==> Has(p, n) || n == name {
      if Has(p, n) { var i :| 0 <= i < |p| && p[i].0 == n; assert q[i].0 == n; }
      if n == name { assert q[|p|].0 == n; }
    }
  }

  method Render(sources: seq<string>, allowed: (string, string) -> bool) returns (r: Option<string>)
    ensures r == Rendered(sources, allowed)
  {
    var values: map<string, string>, order: seq<string> := map[], [];
    ghost var all: Pairs := [];
    for i := 0 to |sources|
      invariant ReadAll(sources[..i], allowed) == Some(all)
      invariant Holds(values, order, all)
    {
      var ok;
      ok, values, order := ReadLines(SplitLines(sources[i]), allowed, values, order, all);
      if !ok {
        RefusedSourceStays(sources, i, allowed);
        return None;
      }
      assert sources[..i + 1][..i] == sources[..i];
      all := all + ReadSource(SplitLines(sources[i]), allowed).value;
    }
    assert sources[..|sources|] == sources;
    NamesAreHeld(all);
    var lines := seq(|order|, k requires 0 <= k < |order| && order[k] in values => Printed(order[k], values[order[k]]));
    assert lines == PrintedLines(Merged(all));
    r := Some(Joined(lines));
  }
}
