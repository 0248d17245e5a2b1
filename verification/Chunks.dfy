/** Cutting a text into overlapping windows that prefer to end at punctuation. */
module Chunks {
  import opened Text

  /** The last position of `p` in `text[lo..hi]`, or -1. */
  function LastIndex(text: string, p: char, lo: nat, hi: nat): (r: int)
    requires lo <= hi <= |text|
    ensures r == -1 || (lo <= r < hi && text[r] == p)
    ensures forall i :: lo <= i < hi && i > r ==> text[i] != p
    decreases hi
  {
    if lo == hi then -1 else if text[hi - 1] == p then hi - 1 else LastIndex(text, p, lo, hi - 1)
  }

  /** Sentence ends first, a comma last. */
  const PUNCTUATION := ['。', '！', '？', '\n', '、']

  /** The end of a window that could reach `hi`: behind the first punctuation mark, in order of
      preference, that occurs beyond the middle; `hi` when there is none. */
  function CutFrom(text: string, size: nat, start: nat, hi: nat, k: nat): (r: nat)
    requires start <= hi <= |text| && k <= |PUNCTUATION|
    ensures r == hi || (start + size / 2 + 1 < r <= hi)
    decreases |PUNCTUATION| - k
  {
    if k == |PUNCTUATION| then hi
    else
      var i := LastIndex(text, PUNCTUATION[k], start, hi);
      if i > start + size / 2 then i + 1 else CutFrom(text, size, start, hi, k + 1)
  }

  function WindowEnd(text: string, size: nat, start: nat): (r: nat)
    requires start < |text|
    ensures r <= |text| && r <= start + size
    ensures start + size >= |text| ==> r == |text|
  {
    if start + size >= |text| then |text| else CutFrom(text, size, start, start + size, 0)
  }

  /** How much a character is preferred as the end of a window; less is better, 5 is no mark at all. */
  function Preference(c: char): nat {
    if c == '。' then 0 else if c == '！' then 1 else if c == '？' then 2 else if c == '\n' then 3
    else if c == '、' then 4 else 5
  }

  lemma MarksInOrder(c: char, k: nat)
    requires k < |PUNCTUATION|
    ensures c == PUNCTUATION[k] <==> Preference(c) == k
  {
  }

  /** `e` is behind the best mark in text[mid + 1..hi], and of several equal ones behind the last; it is `hi`
      when there is no mark there. */
  ghost predicate BestEnd(text: string, mid: nat, hi: nat, e: nat)
    requires hi <= |text|
  {
    if forall i :: mid < i < hi ==> Preference(text[i]) == 5 then e == hi
    else
      && mid < e - 1 < hi && Preference(text[e - 1]) < 5
      && forall i :: mid < i < hi ==> Preference(text[e - 1]) <= Preference(text[i]) && (text[i] == text[e - 1] ==> i < e)
  }

  lemma {:induction false} CutMeans(text: string, size: nat, start: nat, hi: nat, k: nat, mid: nat)
    requires start <= hi <= |text| && k <= |PUNCTUATION| && mid == start + size / 2
    requires forall i :: mid < i < hi ==> Preference(text[i]) >= k
    ensures BestEnd(text, mid, hi, CutFrom(text, size, start, hi, k))
    decreases |PUNCTUATION| - k
  {
    if k < |PUNCTUATION| {
      var j := LastIndex(text, PUNCTUATION[k], start, hi);
      forall i | mid < i < hi
        ensures Preference(text[i]) == k <==> text[i] == PUNCTUATION[k]
        ensures text[i] == PUNCTUATION[k] ==> i <= j
      {
        MarksInOrder(text[i], k);
      }
      if j <= mid {
        CutMeans(text, size, start, hi, k + 1, mid);
      } else {
        MarksInOrder(text[j], k);
      }
    }
  }

  /** Where a window ends that does not reach the end of the text: behind the best mark beyond its middle,
      and at its full size when there is no mark there. */
  lemma EndsAtBestMark(text: string, size: nat, start: nat)
    requires start + size < |text|
    ensures BestEnd(text, start + size / 2, start + size, WindowEnd(text, size, start))
  {
    var mid, hi := start + size / 2, start + size;
    CutMeans(text, size, start, hi, 0, mid);
    assert BestEnd(text, mid, hi, WindowEnd(text, size, start));
  }

  /** Every window but the last gets further than the overlap takes back. */
  predicate Advances(size: nat, overlap: nat) {
    overlap < size && overlap <= size / 2 + 1
  }

  function Step(size: nat, overlap: nat): int {
    (if size <= size / 2 + 2 then size else size / 2 + 2) - overlap
  }

  lemma WindowAdvances(text: string, size: nat, overlap: nat, start: nat)
    requires Advances(size, overlap) && start < |text| && WindowEnd(text, size, start) < |text|
    ensures WindowEnd(text, size, start) - overlap >= start + Step(size, overlap) && Step(size, overlap) > 0
  {
  }

  /** A text of one repeated character with one mark in it. */
  function Marked(c: char, n: nat, m: nat): string {
    seq(n, i => if i == m then '。' else c)
  }

  /** The windows of every text advance if and only if the overlap is smaller than the size and does not
      exceed half of it by more than one. */
  lemma AdvancesIff(size: nat, overlap: nat)
    requires size > 0
    ensures Advances(size, overlap) <==>
            forall text: string, start: nat :: start < |text| && WindowEnd(text, size, start) < |text| ==>
              WindowEnd(text, size, start) - overlap > start
  {
    if Advances(size, overlap) {
      forall text: string, start: nat | start < |text| && WindowEnd(text, size, start) < |text|
        ensures WindowEnd(text, size, start) - overlap > start
      {
        WindowAdvances(text, size, overlap, start);
      }
    } else if overlap >= size {
      var text := Marked('a', size + 1, size);
      PlainWindow(text, size);
      assert WindowEnd(text, size, 0) - overlap <= 0;
    } else {
      var text := Marked('a', size + 1, size / 2 + 1);
      MarkedWindow(text, size);
      assert WindowEnd(text, size, 0) - overlap <= 0;
    }
  }

  lemma PlainWindow(text: string, size: nat)
    requires |text| == size + 1 && forall i :: 0 <= i < size ==> text[i] == 'a'
    ensures WindowEnd(text, size, 0) == size
  {
    assert CutFrom(text, size, 0, size, 5) == size;
    assert CutFrom(text, size, 0, size, 4) == size;
    assert CutFrom(text, size, 0, size, 3) == size;
    assert CutFrom(text, size, 0, size, 2) == size;
    assert CutFrom(text, size, 0, size, 1) == size;
  }

  lemma MarkedWindow(text: string, size: nat)
    requires |text| == size + 1 && size / 2 + 1 < size
    requires forall i :: 0 <= i <= size ==> text[i] == if i == size / 2 + 1 then '。' else 'a'
    ensures WindowEnd(text, size, 0) == size / 2 + 2
  {
    var i := LastIndex(text, '。', 0, size);
    assert text[size / 2 + 1] == '。';
    assert i == size / 2 + 1;
  }

  // ---------------------------------------------------------------- the windows of a text

  /** A window that is not the last, and the start of the one after it. */
  predicate Follows(text: string, size: nat, overlap: nat, s: nat, s': nat) {
    s < |text| && WindowEnd(text, size, s) < |text| && s' == WindowEnd(text, size, s) - overlap
  }

  predicate IsWindow(text: string, size: nat, s: nat, w: string) {
    s < |text| && s <= WindowEnd(text, size, s) && w == text[s..WindowEnd(text, size, s)]
  }

  /** Start `i` is where the window before it says. */
  predicate StartsAt(text: string, size: nat, overlap: nat, starts: seq<nat>, i: nat)
    requires i < |starts|
  {
    if i == 0 then starts[0] == 0 else Follows(text, size, overlap, starts[i - 1], starts[i])
  }

  /** Windows in order: each ends where WindowEnd says and the next one starts `overlap` before. */
  ghost predicate Windows(text: string, size: nat, overlap: nat, starts: seq<nat>, windows: seq<string>) {
    && |starts| == |windows|
    && (forall i :: 0 <= i < |starts| ==> IsWindow(text, size, starts[i], windows[i]))
    && (forall i: nat :: i < |starts| ==> StartsAt(text, size, overlap, starts, i))
  }

  lemma WindowsExtend(text: string, size: nat, overlap: nat, starts: seq<nat>, windows: seq<string>, start: nat)
    requires Windows(text, size, overlap, starts, windows) && start < |text| && start <= WindowEnd(text, size, start)
    requires if starts == [] then start == 0 else Follows(text, size, overlap, starts[|starts| - 1], start)
    ensures Windows(text, size, overlap, starts + [start], windows + [text[start..WindowEnd(text, size, start)]])
  {
    var starts', windows' := starts + [start], windows + [text[start..WindowEnd(text, size, start)]];
    forall i: nat | i < |starts'|
      ensures IsWindow(text, size, starts'[i], windows'[i]) && StartsAt(text, size, overlap, starts', i)
    {
      if i < |starts| {
        assert StartsAt(text, size, overlap, starts, i) && IsWindow(text, size, starts[i], windows[i]);
      }
    }
  }

  lemma WindowsPrefix(text: string, size: nat, overlap: nat, starts: seq<nat>, windows: seq<string>, n: nat)
    requires Windows(text, size, overlap, starts, windows) && n <= |starts|
    ensures Windows(text, size, overlap, starts[..n], windows[..n])
  {
    forall i: nat | i < n
      ensures StartsAt(text, size, overlap, starts[..n], i)
    {
      assert StartsAt(text, size, overlap, starts, i);
    }
  }

  /** The windows joined, with the first `overlap` characters of each later one dropped. */
  function Joined(windows: seq<string>, overlap: nat): string {
    if windows == [] then ""
    else if |windows| == 1 then windows[0]
    else
      var w := windows[|windows| - 1];
      Joined(windows[..|windows| - 1], overlap) + (if overlap <= |w| then w[overlap..] else "")
  }

  lemma Glue(text: string, overlap: nat, s: nat, e: nat, e': nat)
    requires s + overlap == e <= e' <= |text|
    ensures text[..e] + text[s..e'][overlap..] == text[..e']
  {
    assert text[s..e'][overlap..] == text[e..e'];
  }

  lemma {:induction false} JoinedIsText(text: string, size: nat, overlap: nat, starts: seq<nat>, windows: seq<string>)
    requires Advances(size, overlap) && Windows(text, size, overlap, starts, windows) && starts != []
    ensures Joined(windows, overlap) == text[..WindowEnd(text, size, starts[|starts| - 1])]
    decreases |starts|
  {
    var n := |starts| - 1;
    assert StartsAt(text, size, overlap, starts, n);
    if n > 0 {
      WindowsPrefix(text, size, overlap, starts, windows, n);
      JoinedIsText(text, size, overlap, starts[..n], windows[..n]);
      var s0, s := starts[n - 1], starts[n];
      var e, e' := WindowEnd(text, size, s0), WindowEnd(text, size, s);
      LongEnough(text, size, overlap, s, e);
      Glue(text, overlap, s, e, e');
    }
  }

  /** A window that starts `overlap` before some end reaches at least that end. */
  lemma LongEnough(text: string, size: nat, overlap: nat, s: nat, e: nat)
    requires Advances(size, overlap) && s == e - overlap && s < |text| && e <= |text|
    ensures WindowEnd(text, size, s) >= e
  {
  }

  /** How far the windows get: linearly in their number. */
  lemma {:induction false} StartsGrow(text: string, size: nat, overlap: nat, starts: seq<nat>, windows: seq<string>, i: nat)
    requires Advances(size, overlap) && Windows(text, size, overlap, starts, windows) && i < |starts|
    ensures starts[i] >= i * Step(size, overlap)
    decreases i
  {
    if i > 0 {
      StartsGrow(text, size, overlap, starts, windows, i - 1);
      assert StartsAt(text, size, overlap, starts, i);
      WindowAdvances(text, size, overlap, starts[i - 1]);
      assert i * Step(size, overlap) == (i - 1) * Step(size, overlap) + Step(size, overlap);
    }
  }

  /** What the windows of a cut text guarantee: none is longer than the size, joined without their
      overlaps they are the text, and there are linearly many. */
  lemma WindowsRebuild(text: string, size: nat, overlap: nat, starts: seq<nat>, windows: seq<string>)
    requires Advances(size, overlap) && Windows(text, size, overlap, starts, windows) && starts != []
    requires WindowEnd(text, size, starts[|starts| - 1]) == |text|
    ensures forall i :: 0 <= i < |windows| ==> |windows[i]| <= size
    ensures Joined(windows, overlap) == text
    ensures (|windows| - 1) * Step(size, overlap) < |text|
  {
    JoinedIsText(text, size, overlap, starts, windows);
    StartsGrow(text, size, overlap, starts, windows, |starts| - 1);
    assert text[..|text|] == text;
  }

  // ---------------------------------------------------------------- the chunks

  /** The stripped windows that are not empty, in order. */
  function Chunked(windows: seq<string>): seq<string> {
    if windows == [] then []
    else
      var c := Strip(windows[|windows| - 1]);
      Chunked(windows[..|windows| - 1]) + (if c != "" then [c] else [])
  }

  lemma ChunkedExtend(windows: seq<string>, w: string)
    ensures Chunked(windows + [w])
            == Chunked(windows) + (if Strip(w) != "" then [Strip(w)] else [])
  {
    assert (windows + [w])[..|windows|] == windows;
  }

  /** Cuts a text. The loop ends because every window advances. */
  method ChunkText(text: string, size: nat, overlap: nat)
    returns (chunks: seq<string>, ghost starts: seq<nat>, ghost windows: seq<string>)
    requires Advances(size, overlap)
    ensures |text| <= size ==> chunks == [text]
    ensures |text| > size ==>
              && chunks == Chunked(windows)
              && Windows(text, size, overlap, starts, windows) && starts != []
              && WindowEnd(text, size, starts[|starts| - 1]) == |text|
              && Joined(windows, overlap) == text && (|windows| - 1) * Step(size, overlap) < |text|
  {
    starts, windows := [], [];
    if |text| <= size {
      return [text], [], [];
    }
    chunks := [];
    var start: nat, end: nat := 0, 0;
    while end < |text|
      invariant Windows(text, size, overlap, starts, windows) && chunks == Chunked(windows)
      invariant end <= |text| && start < |text| && start <= WindowEnd(text, size, start)
      invariant if starts == [] then start == 0 && end == 0 else end == WindowEnd(text, size, starts[|starts| - 1])
      invariant starts != [] && end < |text| ==> Follows(text, size, overlap, starts[|starts| - 1], start)
      decreases |text| - start, if end < |text| then 1 else 0
    {
      end := WindowEnd(text, size, start);
      WindowsExtend(text, size, overlap, starts, windows, start);
      ChunkedExtend(windows, text[start..end]);
      starts, windows := starts + [start], windows + [text[start..end]];
      var c := Strip(text[start..end]);
      if c != "" {
        chunks := chunks + [c];
      }
      if end < |text| {
        WindowAdvances(text, size, overlap, start);
        start := end - overlap;
        LongEnough(text, size, overlap, start, end);
      }
    }
    WindowsRebuild(text, size, overlap, starts, windows);
  }
}
