/** The paragraph-aware sliding window over a knowledge document. */
module Chunking {
  import opened Common

  /** Characters that are not white; `white` is whatever the runtime's `str.strip` removes. */
  function Ink(white: char -> bool): char -> bool {
    (c: char) => !white(c)
  }

  function Inked(white: char -> bool, s: string): string {
    Filter(Ink(white), s)
  }

  lemma {:induction false} InkedConcat(white: char -> bool, a: string, b: string)
    ensures Inked(white, a + b) == Inked(white, a) + Inked(white, b)
  {
    FilterConcat(Ink(white), a, b);
  }

  lemma {:induction false} InkedWhite(white: char -> bool, s: string)
    requires forall i :: 0 <= i < |s| ==> white(s[i])
    ensures Inked(white, s) == ""
  {
    if s != "" {
      InkedWhite(white, s[1..]);
    }
  }

  // ---------- strip ----------

  function LStrip(white: char -> bool, s: string): (r: string)
    ensures |r| <= |s|
  {
    if s != "" && white(s[0]) then LStrip(white, s[1..]) else s
  }

  function RStrip(white: char -> bool, s: string): (r: string)
    ensures |r| <= |s|
  {
    if s != "" && white(s[|s| - 1]) then RStrip(white, s[..|s| - 1]) else s
  }

  function Strip(white: char -> bool, s: string): (r: string)
    ensures |r| <= |s|
  {
    RStrip(white, LStrip(white, s))
  }

  predicate EndsInInk(white: char -> bool, s: string) {
    s != "" && !white(s[|s| - 1])
  }

  lemma {:induction false} LStripInk(white: char -> bool, s: string)
    ensures Inked(white, LStrip(white, s)) == Inked(white, s)
    ensures EndsInInk(white, s) ==> EndsInInk(white, LStrip(white, s))
  {
    if s != "" && white(s[0]) {
      LStripInk(white, s[1..]);
    }
  }

  lemma {:induction false} RStripInk(white: char -> bool, s: string)
    ensures Inked(white, RStrip(white, s)) == Inked(white, s)
    ensures RStrip(white, s) != "" ==> EndsInInk(white, RStrip(white, s))
  {
    if s != "" && white(s[|s| - 1]) {
      var front := s[..|s| - 1];
      RStripInk(white, front);
      assert s == front + [s[|s| - 1]];
      InkedConcat(white, front, [s[|s| - 1]]);
      InkedWhite(white, [s[|s| - 1]]);
    }
  }

  /** Stripping loses no ink, and leaves something that ends in ink or nothing at all. */
  lemma {:induction false} StripInk(white: char -> bool, s: string)
    ensures Inked(white, Strip(white, s)) == Inked(white, s)
    ensures Strip(white, s) != "" ==> EndsInInk(white, Strip(white, s))
    ensures Inked(white, s) != "" ==> Strip(white, s) != ""
  {
    LStripInk(white, s);
    RStripInk(white, LStrip(white, s));
  }

  // ---------- paragraphs ----------

  /** `re.sub(r"\r\n?", "\n", text)`. */
  function Newlines(text: string): string {
    if text == "" then ""
    else if text[0] == '\r' then
      "\n" + (if |text| > 1 && text[1] == '\n' then Newlines(text[2..]) else Newlines(text[1..]))
    else [text[0]] + Newlines(text[1..])
  }

  function SkipNewlines(s: string): (r: string)
    ensures |r| <= |s|
  {
    if s != "" && s[0] == '\n' then SkipNewlines(s[1..]) else s
  }

  /** `re.split(r"\n{2,}", s)`, with the piece read so far in front. */
  function Split(piece: string, s: string): (r: seq<string>)
    ensures r != []
    decreases |s|
  {
    if s == "" then [piece]
    else if |s| >= 2 && s[0] == '\n' && s[1] == '\n' then [piece] + Split("", SkipNewlines(s[2..]))
    else Split(piece + [s[0]], s[1..])
  }

  function StripAll(white: char -> bool, pieces: seq<string>): seq<string> {
    if pieces == [] then []
    else
      var p := Strip(white, pieces[0]);
      if p == "" then StripAll(white, pieces[1..]) else [p] + StripAll(white, pieces[1..])
  }

  function Paragraphs(white: char -> bool, text: string): seq<string> {
    var stripped := Strip(white, Newlines(text));
    if stripped == "" then [] else StripAll(white, Split("", stripped))
  }

  lemma {:induction false} NewlinesInk(white: char -> bool, text: string)
    requires white('\n') && white('\r')
    ensures Inked(white, Newlines(text)) == Inked(white, text)
  {
    if text != "" {
      if text[0] == '\r' && |text| > 1 && text[1] == '\n' {
        NewlinesInk(white, text[2..]);
        assert text == "\r\n" + text[2..];
        InkedConcat(white, "\r\n", text[2..]);
        InkedWhite(white, "\r\n");
        InkedWhite(white, "\n");
        InkedConcat(white, "\n", Newlines(text[2..]));
      } else {
        NewlinesInk(white, text[1..]);
        var c := if text[0] == '\r' then "\n" else [text[0]];
        assert Newlines(text)[1..] == Newlines(text[1..]);
      }
    }
  }

  lemma {:induction false} SkipInk(white: char -> bool, s: string)
    requires white('\n')
    ensures Inked(white, SkipNewlines(s)) == Inked(white, s)
  {
    if s != "" && s[0] == '\n' {
      SkipInk(white, s[1..]);
    }
  }

  lemma {:induction false} FlattenCons(a: string, rest: seq<string>)
    ensures Flatten([a] + rest) == a + Flatten(rest)
  {
    assert ([a] + rest)[1..] == rest;
  }

  lemma {:induction false} FlattenOne(a: string)
    ensures Flatten([a]) == a
  {
    assert [a][1..] == [];
  }

  lemma {:induction false} SplitInk(white: char -> bool, piece: string, s: string)
    requires white('\n')
    ensures Inked(white, Flatten(Split(piece, s))) == Inked(white, piece) + Inked(white, s)
    decreases |s|
  {
    if s == "" {
      FlattenOne(piece);
    } else if |s| >= 2 && s[0] == '\n' && s[1] == '\n' {
      var rest := SkipNewlines(s[2..]);
      SplitInk(white, "", rest);
      SkipInk(white, s[2..]);
      FlattenCons(piece, Split("", rest));
      InkedConcat(white, piece, Flatten(Split("", rest)));
      assert s == "\n\n" + s[2..];
      InkedConcat(white, "\n\n", s[2..]);
      InkedWhite(white, "\n\n");
    } else {
      SplitInk(white, piece + [s[0]], s[1..]);
      InkedConcat(white, piece, [s[0]]);
      InkedConcat(white, [s[0]], s[1..]);
      assert s == [s[0]] + s[1..];
      AppendAssociates(Inked(white, piece), Inked(white, [s[0]]), Inked(white, s[1..]));
    }
  }

  predicate Clean(white: char -> bool, paras: seq<string>) {
    forall i :: 0 <= i < |paras| ==> EndsInInk(white, paras[i])
  }

  lemma {:induction false} StripAllInk(white: char -> bool, pieces: seq<string>)
    ensures Inked(white, Flatten(StripAll(white, pieces))) == Inked(white, Flatten(pieces))
    ensures Clean(white, StripAll(white, pieces))
  {
    if pieces != [] {
      var p, rest := Strip(white, pieces[0]), pieces[1..];
      StripAllInk(white, rest);
      StripInk(white, pieces[0]);
      InkedConcat(white, pieces[0], Flatten(rest));
      if p != "" {
        FlattenCons(p, StripAll(white, rest));
        InkedConcat(white, p, Flatten(StripAll(white, rest)));
      }
    }
  }

  /** The paragraphs carry exactly the text's ink, in order, and none is blank. */
  lemma {:induction false} ParagraphsKeepInk(white: char -> bool, text: string)
    requires white('\n') && white('\r')
    ensures Clean(white, Paragraphs(white, text))
    ensures Inked(white, Flatten(Paragraphs(white, text))) == Inked(white, text)
  {
    var n := Newlines(text);
    NewlinesInk(white, text);
    StripInk(white, n);
    SplitInk(white, "", Strip(white, n));
    StripAllInk(white, Split("", Strip(white, n)));
  }

  // ---------- the chunks as a function ----------

  function Appended(cur: string, p: string): string {
    if cur != "" then cur + "\n\n" + p else p
  }

  function WindowChunk(white: char -> bool, cur: string, w: string): string {
    if cur != "" then Strip(white, cur + "\n\n" + w) else w
  }

  /** `cur[-overlap:]`, kept only if `cur` is longer. */
  function Tail(cur: string, overlap: nat): string {
    if overlap > 0 && |cur| > overlap then cur[|cur| - overlap..] else ""
  }

  /** The window loop shortens the paragraph, or has nothing to do. */
  predicate Cuttable(p: string, size: nat, overlap: nat) {
    overlap < size || |p| <= size
  }

  predicate AllCuttable(paras: seq<string>, size: nat, overlap: nat) {
    forall i :: 0 <= i < |paras| ==> Cuttable(paras[i], size, overlap)
  }

  /** The windows emitted for one paragraph, and what is left in `cur` after it. */
  function WindowList(white: char -> bool, cur: string, p: string, size: nat, overlap: nat): seq<string>
    requires Cuttable(p, size, overlap)
    decreases |p|
  {
    if |p| <= size then []
    else [WindowChunk(white, cur, p[..size])] + WindowList(white, "", p[size - overlap..], size, overlap)
  }

  function Left(white: char -> bool, cur: string, p: string, size: nat, overlap: nat): string
    requires Cuttable(p, size, overlap)
    decreases |p|
  {
    if |p| <= size then WindowChunk(white, cur, p) else Left(white, "", p[size - overlap..], size, overlap)
  }

  function Chunked(white: char -> bool, cur: string, paras: seq<string>, size: nat, overlap: nat): seq<string>
    requires AllCuttable(paras, size, overlap)
    decreases |paras|
  {
    if paras == [] then (if cur != "" then [cur] else [])
    else if |cur| + |paras[0]| + 2 <= size then
      Chunked(white, Appended(cur, paras[0]), paras[1..], size, overlap)
    else
      var head := Tail(cur, overlap);
      (if cur != "" then [cur] else [])
      + (WindowList(white, head, paras[0], size, overlap)
         + Chunked(white, Left(white, head, paras[0], size, overlap), paras[1..], size, overlap))
  }

  lemma {:induction false} SliceOfSuffix(p: string, a: nat, o: nat, n: nat)
    requires a + o + n <= |p|
    ensures p[a..][o..o + n] == p[a + o..a + o + n]
  {
  }

  /** Window k of a paragraph starts `k * (size - overlap)` characters in. */
  lemma {:induction false} WindowAt(white: char -> bool, p: string, size: nat, overlap: nat, k: nat, at: int)
    requires overlap < size && k < |WindowList(white, "", p, size, overlap)| && at == k * (size - overlap)
    ensures 0 <= at && at + size < |p| && WindowList(white, "", p, size, overlap)[k] == p[at..at + size]
    decreases k
  {
    if k > 0 {
      var step := size - overlap;
      assert at - step == (k - 1) * step;
      WindowAt(white, p[step..], size, overlap, k - 1, at - step);
      SliceOfSuffix(p, step, at - step, size);
    }
  }

  /** Neighbouring windows of a paragraph share exactly `overlap` characters. */
  lemma {:induction false} WindowsOverlap(white: char -> bool, p: string, size: nat, overlap: nat, k: nat)
    requires overlap < size && k + 1 < |WindowList(white, "", p, size, overlap)|
    ensures var ws := WindowList(white, "", p, size, overlap);
            |ws[k]| == |ws[k + 1]| == size && ws[k + 1][..overlap] == ws[k][size - overlap..]
  {
    var step := size - overlap;
    var at := k * step;
    assert (k + 1) * step == at + step;
    WindowAt(white, p, size, overlap, k, at);
    WindowAt(white, p, size, overlap, k + 1, at + step);
    hide WindowList;
    assert p[at + step..at + step + size][..overlap] == p[at + step..at + size];
    assert p[at..at + size][step..] == p[at + step..at + size];
  }

  /** Python's `p[k:]`: a negative k counts from the end. */
  function From(p: string, k: int): string {
    if k >= 0 then p[Min(k, |p|)..] else p[Max(0, |p| + k)..]
  }

  /** `p` after n rounds of the window loop, for any overlap. */
  function Shifted(p: string, size: nat, overlap: nat, n: nat): string {
    if n == 0 || |p| <= size then p else Shifted(From(p, size - overlap), size, overlap, n - 1)
  }

  /** A round that changes nothing will change nothing ever. */
  lemma {:induction false} ShiftedStuck(p: string, size: nat, overlap: nat, n: nat)
    requires From(p, size - overlap) == p
    ensures Shifted(p, size, overlap, n) == p
    decreases n
  {
    if n > 0 {
      ShiftedStuck(p, size, overlap, n - 1);
    }
  }

  lemma {:induction false} ShiftedShrinks(p: string, size: nat, overlap: nat, n: nat)
    requires overlap < size
    ensures |Shifted(p, size, overlap, n)| <= Max(size, |p| - n)
    decreases n
  {
    if n > 0 && |p| > size {
      ShiftedShrinks(From(p, size - overlap), size, overlap, n - 1);
    }
  }

  /** An overlap above the window keeps the last `overlap - size` characters and then stays there. */
  lemma {:induction false} ShiftedTail(p: string, size: nat, overlap: nat, n: nat)
    requires overlap > size && |p| > size && n > 0
    ensures |Shifted(p, size, overlap, n)| == Min(|p|, overlap - size)
  {
    var tail := From(p, size - overlap);
    assert From(tail, size - overlap) == tail;
    ShiftedStuck(tail, size, overlap, n - 1);
  }

  /** Where the loop ends that way it drops text: one window and what is kept do not cover a paragraph
      longer than the overlap. */
  lemma {:induction false} LargeOverlapDropsText(p: string, size: nat, overlap: nat)
    requires size < overlap && size < |p|
    ensures size + |Shifted(p, size, overlap, 1)| < |p| <==> overlap < |p|
  {
    ShiftedTail(p, size, overlap, 1);
  }

  predicate LoopEnds(p: string, size: nat, overlap: nat) {
    |p| <= size || overlap < size || size < overlap <= 2 * size
  }

  /** The window loop ends exactly when there is nothing to cut, or the overlap is smaller than the window,
      or it is larger by at most the window. */
  lemma {:induction false} WindowsEndIff(p: string, size: nat, overlap: nat)
    ensures (exists n: nat :: |Shifted(p, size, overlap, n)| <= size) <==> LoopEnds(p, size, overlap)
  {
    if |p| <= size {
      assert Shifted(p, size, overlap, 0) == p;
    } else if overlap < size {
      ShiftedShrinks(p, size, overlap, |p|);
    } else if overlap == size {
      forall n: nat ensures |Shifted(p, size, overlap, n)| > size {
        ShiftedStuck(p, size, overlap, n);
      }
    } else {
      assert Shifted(p, size, overlap, 0) == p;
      forall n: nat | n > 0 ensures |Shifted(p, size, overlap, n)| == Min(|p|, overlap - size) {
        ShiftedTail(p, size, overlap, n);
      }
      ShiftedTail(p, size, overlap, 1);
    }
  }

  /** A two-character paragraph, window one, overlap one: no round ever shortens it. */
  lemma {:induction false} FullOverlapNeverEnds(n: nat)
    ensures Shifted("ab", 1, 1, n) == "ab"
  {
    ShiftedStuck("ab", 1, 1, n);
  }

  // ---------- chunks ----------

  predicate Suffix(a: string, b: string) {
    |a| <= |b| && b[|b| - |a|..] == a
  }

  lemma {:induction false} SuffixGrows(a: string, b: string, c: string)
    ensures Suffix(a, b) ==> Suffix(a + c, b + c)
    ensures Suffix(b, a + b)
  {
  }

  lemma {:induction false} SuffixOf(a: string, b: string, c: string)
    requires Suffix(a, b) && Suffix(b, c)
    ensures Suffix(a, c)
  {
  }

  /** Where to cut a chunk: what is in front of the cut was already emitted, what is behind it is new. */
  lemma {:induction false} CutAt(white: char -> bool, s: string, a: string, b: string) returns (k: nat)
    requires Inked(white, s) == a + b
    ensures k <= |s| && Inked(white, s[..k]) == a && Inked(white, s[k..]) == b
  {
    if a == "" {
      k := 0;
      assert s[..0] == "" && s[0..] == s;
    } else {
      if white(s[0]) {
        k := CutAt(white, s[1..], a, b);
      } else {
        assert (a + b)[0] == a[0] && (a + b)[1..] == a[1..] + b;
        k := CutAt(white, s[1..], a[1..], b);
      }
      assert s[..k + 1] == [s[0]] + s[1..][..k] && s[k + 1..] == s[1..][k..];
      assert s[..k + 1][1..] == s[1..][..k];
      k := k + 1;
    }
  }

  ghost predicate Cut(chunks: seq<string>, cuts: seq<nat>) {
    |cuts| == |chunks| && forall k :: 0 <= k < |chunks| ==> cuts[k] <= |chunks[k]|
  }

  /** The new ink of all chunks, in order. */
  function Fresh(white: char -> bool, chunks: seq<string>, cuts: seq<nat>): string
    requires Cut(chunks, cuts)
    decreases |chunks|
  {
    if chunks == [] then ""
    else
      var n := |chunks| - 1;
      Fresh(white, chunks[..n], cuts[..n]) + Inked(white, chunks[n][cuts[n]..])
  }

  /** Every chunk repeats only the tail of what came before it. */
  ghost predicate RepeatsTails(white: char -> bool, chunks: seq<string>, cuts: seq<nat>)
    requires Cut(chunks, cuts)
  {
    forall k :: 0 <= k < |chunks| ==> Suffix(Inked(white, chunks[k][..cuts[k]]), Fresh(white, chunks[..k], cuts[..k]))
  }

  predicate Fits(chunks: seq<string>, limit: nat) {
    forall k :: 0 <= k < |chunks| ==> 0 < |chunks[k]| <= limit
  }

  /** Chunks so far are sound, and `old_` is a tail of the ink they carry. */
  ghost predicate Emitted(white: char -> bool, limit: nat, chunks: seq<string>, cuts: seq<nat>, old_: string) {
    Cut(chunks, cuts) && Fits(chunks, limit) && RepeatsTails(white, chunks, cuts)
        && Suffix(old_, Fresh(white, chunks, cuts))
  }

  lemma {:induction false} FreshSnoc(white: char -> bool, chunks: seq<string>, cuts: seq<nat>, chunk: string, k: nat)
    requires Cut(chunks, cuts) && k <= |chunk|
    ensures Cut(chunks + [chunk], cuts + [k])
    ensures Fresh(white, chunks + [chunk], cuts + [k]) == Fresh(white, chunks, cuts) + Inked(white, chunk[k..])
  {
    var all, ks, n := chunks + [chunk], cuts + [k], |chunks|;
    assert all[..n] == chunks && ks[..n] == cuts;
  }

  lemma {:induction false} TailsSnoc(white: char -> bool, chunks: seq<string>, cuts: seq<nat>, chunk: string, k: nat)
    requires Cut(chunks, cuts) && k <= |chunk| && Cut(chunks + [chunk], cuts + [k])
    requires RepeatsTails(white, chunks, cuts) && Suffix(Inked(white, chunk[..k]), Fresh(white, chunks, cuts))
    ensures RepeatsTails(white, chunks + [chunk], cuts + [k])
  {
    hide Fresh, Inked, Suffix;
    var all, ks, n := chunks + [chunk], cuts + [k], |chunks|;
    assert all[..n] == chunks && ks[..n] == cuts;
    forall j | 0 <= j < |all| ensures Suffix(Inked(white, all[j][..ks[j]]), Fresh(white, all[..j], ks[..j])) {
      if j < n {
        assert all[..j] == chunks[..j] && ks[..j] == cuts[..j];
      }
    }
  }

  /** Emitting one more chunk whose ink is `old + new`. */
  lemma {:induction false} Emit(
      white: char -> bool, limit: nat, chunks: seq<string>, cuts: seq<nat>, chunk: string, old_: string,
      new_: string)
      returns (k: nat)
    requires Emitted(white, limit, chunks, cuts, old_) && Inked(white, chunk) == old_ + new_ && 0 < |chunk| <= limit
    ensures k <= |chunk| && Emitted(white, limit, chunks + [chunk], cuts + [k], old_ + new_)
    ensures Fresh(white, chunks + [chunk], cuts + [k]) == Fresh(white, chunks, cuts) + new_
  {
    hide Inked, Fresh, Suffix, RepeatsTails, Fits, Cut;
    k := CutAt(white, chunk, old_, new_);
    FreshSnoc(white, chunks, cuts, chunk, k);
    TailsSnoc(white, chunks, cuts, chunk, k);
    FitsSnoc(chunks, limit, chunk);
    SuffixGrows(old_, Fresh(white, chunks, cuts), new_);
  }

  lemma {:induction false} FitsSnoc(chunks: seq<string>, limit: nat, chunk: string)
    requires Fits(chunks, limit) && 0 < |chunk| <= limit
    ensures Fits(chunks + [chunk], limit)
  {
  }

  lemma {:induction false} EmittedTail(
      white: char -> bool, limit: nat, chunks: seq<string>, cuts: seq<nat>, a: string, b: string)
    requires Emitted(white, limit, chunks, cuts, b) && Suffix(a, b)
    ensures Emitted(white, limit, chunks, cuts, a)
  {
    SuffixOf(a, b, Fresh(white, chunks, cuts));
  }

  lemma {:induction false} InkOfTail(white: char -> bool, s: string, k: nat)
    requires k <= |s|
    ensures Suffix(Inked(white, s[k..]), Inked(white, s))
    ensures Inked(white, s) == Inked(white, s[..k]) + Inked(white, s[k..])
  {
    assert s == s[..k] + s[k..];
    InkedConcat(white, s[..k], s[k..]);
    SuffixGrows(Inked(white, s[..k]), Inked(white, s[k..]), "");
  }

  lemma {:induction false} Joined(white: char -> bool, cur: string, p: string)
    requires white('\n') && EndsInInk(white, cur)
    ensures var s := cur + "\n\n" + p;
            && Inked(white, Strip(white, s)) == Inked(white, s) == Inked(white, cur) + Inked(white, p)
            && Strip(white, s) != "" && EndsInInk(white, Strip(white, s)) && |Strip(white, s)| <= |cur| + 2 + |p|
  {
    var s := cur + "\n\n" + p;
    InkedConcat(white, cur, "\n\n");
    InkedConcat(white, cur + "\n\n", p);
    InkedWhite(white, "\n\n");
    assert cur == cur[..|cur| - 1] + [cur[|cur| - 1]];
    InkedConcat(white, cur[..|cur| - 1], [cur[|cur| - 1]]);
    assert Inked(white, [cur[|cur| - 1]]) == [cur[|cur| - 1]];
    StripInk(white, s);
  }

  /** A front kept from the previous chunk: nothing, or at most `bound` characters ending in ink. */
  predicate Carried(white: char -> bool, cur: string, bound: nat) {
    cur == "" || (EndsInInk(white, cur) && |cur| <= bound)
  }

  /** While a paragraph is cut: `cur` and the first `seen` characters of `p` were emitted before, the rest
      of `p` is still due, and together with what was emitted that makes `all`. */
  ghost predicate Cutting(
      white: char -> bool, limit: nat, overlap: nat, chunks: seq<string>, cuts: seq<nat>, cur: string, p: string,
      seen: nat, all: string)
  {
    && Carried(white, cur, overlap) && EndsInInk(white, p) && seen <= |p| && seen <= overlap
    && Emitted(white, limit, chunks, cuts, Inked(white, cur) + Inked(white, p[..seen]))
    && Fresh(white, chunks, cuts) + Inked(white, p[seen..]) == all
  }

  lemma {:induction false} EmitWindow(
      white: char -> bool, limit: nat, overlap: nat, chunks: seq<string>, cuts: seq<nat>, chunk: string, next: string,
      old_: string, window: string, all: string) returns (k: nat)
    requires Emitted(white, limit, chunks, cuts, old_) && Inked(white, chunk) == old_ + window && 0 < |chunk| <= limit
    requires overlap <= |next| && EndsInInk(white, next) && Suffix(Inked(white, next[..overlap]), Inked(white, chunk))
    requires Fresh(white, chunks, cuts) + (window + Inked(white, next[overlap..])) == all
    ensures Cutting(white, limit, overlap, chunks + [chunk], cuts + [k], "", next, overlap, all)
  {
    var tail := Inked(white, next[..overlap]);
    NoInk(white, tail);
    hide Inked, Fresh, Suffix, RepeatsTails, Fits;
    AppendAssociates(Fresh(white, chunks, cuts), window, Inked(white, next[overlap..]));
    k := Emit(white, limit, chunks, cuts, chunk, old_, window);
    EmittedTail(white, limit, chunks + [chunk], cuts + [k], tail, Inked(white, chunk));
  }

  lemma {:induction false} WindowStep(
      white: char -> bool, size: nat, overlap: nat, chunks: seq<string>, cuts: seq<nat>, cur: string, p: string,
      seen: nat, all: string)
      returns (k: nat)
    requires white('\n') && overlap < size < |p|
    requires Cutting(white, size + overlap + 2, overlap, chunks, cuts, cur, p, seen, all)
    ensures Cutting(white, size + overlap + 2, overlap, chunks + [WindowChunk(white, cur, p[..size])], cuts + [k],
                    "", p[size - overlap..], overlap, all)
  {
    var chunk := WindowChunk(white, cur, p[..size]);
    hide Inked, Strip, Fresh, RepeatsTails, Suffix, Fits, Emitted;
    WindowInk(white, cur, p, size, seen);
    RestInk(white, p, size, seen);
    OverlapInk(white, cur, p, size, overlap);
    hide WindowChunk, Cutting;
    k := EmitWindow(white, size + overlap + 2, overlap, chunks, cuts, chunk, p[size - overlap..],
      Inked(white, cur) + Inked(white, p[..seen]), Inked(white, p[seen..size]), all);
  }

  function WithWindows(chunks: seq<string>, white: char -> bool, cur: string, p: string, size: nat, overlap: nat)
      : seq<string>
    requires Cuttable(p, size, overlap)
  {
    chunks + WindowList(white, cur, p, size, overlap)
  }

  lemma {:induction false} WithOneWindow(
      chunks: seq<string>, white: char -> bool, cur: string, p: string, size: nat, overlap: nat)
    requires overlap < size < |p|
    ensures WithWindows(chunks, white, cur, p, size, overlap)
         == WithWindows(chunks + [WindowChunk(white, cur, p[..size])], white, "", p[size - overlap..], size, overlap)
  {
    AppendAssociates(chunks, [WindowChunk(white, cur, p[..size])],
        WindowList(white, "", p[size - overlap..], size, overlap));
  }

  lemma {:induction false} WithNoWindow(
      chunks: seq<string>, white: char -> bool, cur: string, p: string, size: nat, overlap: nat)
    requires |p| <= size
    ensures WithWindows(chunks, white, cur, p, size, overlap) == chunks
  {
  }

  /** Cut one long paragraph into windows of `size` that step by `size - overlap`. */
  method Windows(
      white: char -> bool, para: string, head: string, chunks0: seq<string>, size: nat, overlap: nat,
      ghost cuts0: seq<nat>, ghost all: string)
    returns (chunks: seq<string>, p: string, cur: string, ghost cuts: seq<nat>, ghost seen: nat)
    requires white('\n') && Cuttable(para, size, overlap)
    requires Cutting(white, size + overlap + 2, overlap, chunks0, cuts0, head, para, 0, all)
    ensures Cutting(white, size + overlap + 2, overlap, chunks, cuts, cur, p, seen, all) && |p| <= size
    ensures chunks == WithWindows(chunks0, white, head, para, size, overlap)
    ensures WindowChunk(white, cur, p) == Left(white, head, para, size, overlap)
  {
    hide Cutting, WindowChunk, Strip, WithWindows;
    chunks, cuts, cur, p, seen := chunks0, cuts0, head, para, 0;
    while |p| > size
      invariant Cuttable(p, size, overlap)
      invariant Cutting(white, size + overlap + 2, overlap, chunks, cuts, cur, p, seen, all)
      invariant WithWindows(chunks, white, cur, p, size, overlap)
          == WithWindows(chunks0, white, head, para, size, overlap)
      invariant Left(white, cur, p, size, overlap) == Left(white, head, para, size, overlap)
      decreases |p|
    {
      WithOneWindow(chunks, white, cur, p, size, overlap);
      ghost var k := WindowStep(white, size, overlap, chunks, cuts, cur, p, seen, all);
      chunks, cuts := chunks + [WindowChunk(white, cur, p[..size])], cuts + [k];
      cur := "";
      p, seen := p[size - overlap..], overlap;
    }
    WithNoWindow(chunks, white, cur, p, size, overlap);
  }

  lemma {:induction false} NoInk(white: char -> bool, s: string)
    ensures Inked(white, "") == "" && "" + s == s == s + "" && Suffix("", s)
  {
  }

  /** What a chunk carries: the front that was emitted before, then a window of new ink. */
  lemma {:induction false} WindowInk(white: char -> bool, cur: string, p: string, size: nat, seen: nat)
    requires white('\n') && seen <= size < |p| && size > 0 && (cur == "" || EndsInInk(white, cur))
    ensures var chunk := WindowChunk(white, cur, p[..size]);
            && 0 < |chunk| <= |cur| + 2 + size
            && Inked(white, chunk) == (Inked(white, cur) + Inked(white, p[..seen])) + Inked(white, p[seen..size])
  {
    var w := p[..size];
    ChunkInk(white, cur, w, WindowChunk(white, cur, w));
    hide Inked, Suffix, WindowChunk;
    assert w[..seen] == p[..seen] && w[seen..] == p[seen..size];
    InkOfTail(white, w, seen);
    AppendAssociates(Inked(white, cur), Inked(white, p[..seen]), Inked(white, p[seen..size]));
  }

  /** What is still due after the window. */
  lemma {:induction false} RestInk(white: char -> bool, p: string, size: nat, seen: nat)
    requires seen <= size <= |p|
    ensures Inked(white, p[seen..]) == Inked(white, p[seen..size]) + Inked(white, p[size..])
  {
    assert p[seen..][..size - seen] == p[seen..size] && p[seen..][size - seen..] == p[size..];
    InkOfTail(white, p[seen..], size - seen);
  }

  /** The next window starts with the last `overlap` characters of this one. */
  lemma {:induction false} OverlapInk(white: char -> bool, cur: string, p: string, size: nat, overlap: nat)
    requires white('\n') && overlap < size < |p| && (cur == "" || EndsInInk(white, cur))
    ensures var next := p[size - overlap..];
            && next[overlap..] == p[size..]
            && Suffix(Inked(white, next[..overlap]), Inked(white, WindowChunk(white, cur, p[..size])))
  {
    var w := p[..size];
    ChunkInk(white, cur, w, WindowChunk(white, cur, w));
    hide Inked, Suffix, WindowChunk;
    assert p[size - overlap..][..overlap] == w[size - overlap..];
    InkOfTail(white, w, size - overlap);
    SuffixOf(Inked(white, w[size - overlap..]), Inked(white, w), Inked(white, WindowChunk(white, cur, w)));
  }

  lemma {:induction false} ChunkInk(white: char -> bool, cur: string, w: string, chunk: string)
    requires white('\n') && (cur == "" || EndsInInk(white, cur)) && w != ""
    requires chunk == if cur != "" then Strip(white, cur + "\n\n" + w) else w
    ensures 0 < |chunk| <= |cur| + 2 + |w|
    ensures Inked(white, chunk) == Inked(white, cur) + Inked(white, w) && Suffix(Inked(white, w), Inked(white, chunk))
  {
    hide Strip;
    NoInk(white, Inked(white, w));
    if cur != "" {
      Joined(white, cur, w);
    }
    SuffixGrows(Inked(white, cur), Inked(white, w), "");
  }

  lemma {:induction false} TailCarried(white: char -> bool, cur: string, overlap: nat)
    requires EndsInInk(white, cur)
    ensures Carried(white, Tail(cur, overlap), overlap) && Suffix(Inked(white, Tail(cur, overlap)), Inked(white, cur))
  {
    NoInk(white, Inked(white, cur));
    if overlap > 0 && |cur| > overlap {
      InkOfTail(white, cur, |cur| - overlap);
    }
  }

  /** Between paragraphs: `cur` ends in ink that is still due. */
  ghost predicate Pending(
      white: char -> bool, limit: nat, chunks: seq<string>, cuts: seq<nat>, cur: string, old_: string,
      new_: string, all: string)
  {
    && Carried(white, cur, limit) && Inked(white, cur) == old_ + new_
    && Emitted(white, limit, chunks, cuts, old_)
    && Fresh(white, chunks, cuts) + new_ == all
  }

  lemma {:induction false} StartPending(white: char -> bool, limit: nat)
    ensures Pending(white, limit, [], [], "", "", "", "")
  {
  }

  lemma {:induction false} AppendStep(
      white: char -> bool, limit: nat, chunks: seq<string>, cuts: seq<nat>, cur: string, old_: string,
      new_: string, all: string, p: string)
    requires white('\n') && EndsInInk(white, p) && |cur| + |p| + 2 <= limit
    requires Pending(white, limit, chunks, cuts, cur, old_, new_, all)
    ensures Pending(white, limit, chunks, cuts, Appended(cur, p), old_, new_ + Inked(white, p), all + Inked(white, p))
  {
    JoinPlain(white, cur, p);
    hide Inked, Fresh, Emitted, Suffix;
    EmittedParts(white, limit, chunks, cuts, old_);
    AppendAssociates(old_, new_, Inked(white, p));
    AppendAssociates(Fresh(white, chunks, cuts), new_, Inked(white, p));
  }

  lemma {:induction false} EmittedParts(
      white: char -> bool, limit: nat, chunks: seq<string>, cuts: seq<nat>, old_: string)
    requires Emitted(white, limit, chunks, cuts, old_)
    ensures Cut(chunks, cuts)
  {
  }

  /** `chunks.append(cur)`: nothing is pending any more. */
  lemma {:induction false} FlushStep(
      white: char -> bool, limit: nat, chunks: seq<string>, cuts: seq<nat>, cur: string, old_: string,
      new_: string, all: string)
      returns (k: nat)
    requires Pending(white, limit, chunks, cuts, cur, old_, new_, all) && cur != ""
    ensures Emitted(white, limit, chunks + [cur], cuts + [k], Inked(white, cur))
    ensures Fresh(white, chunks + [cur], cuts + [k]) == all
  {
    hide Inked, Fresh, Suffix;
    k := Emit(white, limit, chunks, cuts, cur, old_, new_);
  }

  lemma {:induction false} CarryStep(
      white: char -> bool, limit: nat, overlap: nat, chunks: seq<string>, cuts: seq<nat>, cur: string,
      old_: string, new_: string, all: string)
      returns (k: nat)
    requires Pending(white, limit, chunks, cuts, cur, old_, new_, all) && cur != ""
    ensures var tail := Tail(cur, overlap);
            && Emitted(white, limit, chunks + [cur], cuts + [k], Inked(white, tail)) && Carried(white, tail, overlap)
            && Fresh(white, chunks + [cur], cuts + [k]) == all
  {
    k := FlushStep(white, limit, chunks, cuts, cur, old_, new_, all);
    TailCarried(white, cur, overlap);
    hide Inked, Fresh, Suffix, Tail, RepeatsTails, Fits;
    EmittedTail(white, limit, chunks + [cur], cuts + [k], Inked(white, Tail(cur, overlap)), Inked(white, cur));
  }

  lemma {:induction false} BeginCutting(
      white: char -> bool, limit: nat, overlap: nat, chunks: seq<string>, cuts: seq<nat>, cur: string, p: string,
      all: string)
    requires Emitted(white, limit, chunks, cuts, Inked(white, cur)) && Fresh(white, chunks, cuts) == all
    requires Carried(white, cur, overlap) && EndsInInk(white, p)
    ensures Cutting(white, limit, overlap, chunks, cuts, cur, p, 0, all + Inked(white, p))
  {
    assert p[..0] == "" && p[0..] == p;
    NoInk(white, Inked(white, cur));
  }

  lemma {:induction false} EndCutting(
      white: char -> bool, size: nat, overlap: nat, chunks: seq<string>, cuts: seq<nat>, cur: string, p: string,
      seen: nat, all: string)
    requires white('\n') && |p| <= size && Cutting(white, size + overlap + 2, overlap, chunks, cuts, cur, p, seen, all)
    ensures seen <= |p|
    ensures Pending(white, size + overlap + 2, chunks, cuts, WindowChunk(white, cur, p),
                    Inked(white, cur) + Inked(white, p[..seen]), Inked(white, p[seen..]), all)
  {
    ChunkInk(white, cur, p, WindowChunk(white, cur, p));
    if cur != "" {
      Joined(white, cur, p);
    }
    hide Inked, Fresh, Suffix, Strip, Emitted;
    InkOfTail(white, p, seen);
    AppendAssociates(Inked(white, cur), Inked(white, p[..seen]), Inked(white, p[seen..]));
  }

  lemma {:induction false} EmptyPending(
      white: char -> bool, limit: nat, chunks: seq<string>, cuts: seq<nat>, old_: string, new_: string,
      all: string)
    requires Pending(white, limit, chunks, cuts, "", old_, new_, all)
    ensures Emitted(white, limit, chunks, cuts, Inked(white, "")) && Fresh(white, chunks, cuts) == all
  {
    assert old_ == "" && new_ == "";
  }

  function Flushed(chunks: seq<string>, cur: string): seq<string> {
    if cur != "" then chunks + [cur] else chunks
  }

  /** `chunks.append(cur)` if there is something, keeping the overlap. */
  method Flush(
      white: char -> bool, chunks0: seq<string>, cur0: string, size: nat, overlap: nat,
      ghost cuts0: seq<nat>, ghost old0: string, ghost new0: string, ghost all: string)
    returns (chunks: seq<string>, cur: string, ghost cuts: seq<nat>)
    requires Pending(white, size + overlap + 2, chunks0, cuts0, cur0, old0, new0, all)
    ensures chunks == Flushed(chunks0, cur0) && cur == Tail(cur0, overlap) && Carried(white, cur, overlap)
    ensures Emitted(white, size + overlap + 2, chunks, cuts, Inked(white, cur)) && Fresh(white, chunks, cuts) == all
  {
    ghost var limit := size + overlap + 2;
    assert Tail("", overlap) == "";
    hide Inked, Fresh, Tail, Pending, Emitted;
    chunks, cur, cuts := chunks0, cur0, cuts0;
    if cur != "" {
      ghost var k := CarryStep(white, limit, overlap, chunks, cuts, cur, old0, new0, all);
      chunks, cuts := chunks + [cur], cuts + [k];
      cur := Tail(cur, overlap);
    } else {
      EmptyPending(white, limit, chunks, cuts, old0, new0, all);
    }
  }

  /** A paragraph that does not fit behind `cur`: flush, keep the overlap, cut what is too long. */
  method Overflow(
      white: char -> bool, chunks0: seq<string>, cur0: string, para: string, size: nat, overlap: nat,
      ghost cuts0: seq<nat>, ghost old0: string, ghost new0: string, ghost all: string,
      ghost rest: seq<string>, ghost whole: seq<string>)
    returns (chunks: seq<string>, cur: string, ghost cuts: seq<nat>, ghost old_: string, ghost new_: string)
    requires white('\n') && AllCuttable(rest, size, overlap) && EndsInInk(white, para)
    requires Pending(white, size + overlap + 2, chunks0, cuts0, cur0, old0, new0, all)
    requires rest != [] && rest[0] == para && |cur0| + |para| + 2 > size
    requires Agrees(white, chunks0, cur0, rest, size, overlap, whole)
    ensures Pending(white, size + overlap + 2, chunks, cuts, cur, old_, new_, all + Inked(white, para))
    ensures Agrees(white, chunks, cur, rest[1..], size, overlap, whole)
  {
    AgreesOverflow(white, chunks0, cur0, rest, size, overlap, whole);
    hide Inked, Fresh, Tail, Flushed, Carried, EndsInInk, Pending, Cutting, Emitted, WindowChunk, WithWindows, Left,
        Agrees;
    var head;
    chunks, head, cuts := Flush(white, chunks0, cur0, size, overlap, cuts0, old0, new0, all);
    BeginCutting(white, size + overlap + 2, overlap, chunks, cuts, head, para, all);
    var p: string;
    ghost var seen: nat;
    chunks, p, cur, cuts, seen := Windows(white, para, head, chunks, size, overlap, cuts, all + Inked(white, para));
    EndCutting(white, size, overlap, chunks, cuts, cur, p, seen, all + Inked(white, para));
    old_, new_ := Inked(white, cur) + Inked(white, p[..seen]), Inked(white, p[seen..]);
    cur := WindowChunk(white, cur, p);
  }

  /** What is emitted so far and what the function makes of the rest is `whole`. */
  ghost predicate Agrees(
      white: char -> bool, chunks: seq<string>, cur: string, paras: seq<string>, size: nat, overlap: nat,
      whole: seq<string>)
    requires AllCuttable(paras, size, overlap)
  {
    chunks + Chunked(white, cur, paras, size, overlap) == whole
  }

  lemma {:induction false} AgreesStart(white: char -> bool, paras: seq<string>, size: nat, overlap: nat)
    requires AllCuttable(paras, size, overlap)
    ensures Agrees(white, [], "", paras[0..], size, overlap, Chunked(white, "", paras, size, overlap))
  {
    assert paras[0..] == paras;
    assert [] + Chunked(white, "", paras, size, overlap) == Chunked(white, "", paras, size, overlap);
  }

  lemma {:induction false} AgreesEnd(
      white: char -> bool, chunks: seq<string>, cur: string, paras: seq<string>, size: nat, overlap: nat,
      whole: seq<string>)
    requires paras == [] && Agrees(white, chunks, cur, paras, size, overlap, whole)
    ensures whole == if cur != "" then chunks + [cur] else chunks
  {
    assert chunks + [] == chunks;
  }

  lemma {:induction false} AgreesJoin(
      white: char -> bool, chunks: seq<string>, cur: string, paras: seq<string>, size: nat, overlap: nat,
      whole: seq<string>)
    requires AllCuttable(paras, size, overlap) && paras != [] && |cur| + |paras[0]| + 2 <= size
    requires Agrees(white, chunks, cur, paras, size, overlap, whole)
    ensures Agrees(white, chunks, Appended(cur, paras[0]), paras[1..], size, overlap, whole)
  {
  }

  lemma {:induction false} AgreesOverflow(
      white: char -> bool, chunks: seq<string>, cur: string, paras: seq<string>, size: nat, overlap: nat,
      whole: seq<string>)
    requires AllCuttable(paras, size, overlap) && paras != [] && |cur| + |paras[0]| + 2 > size
    requires Agrees(white, chunks, cur, paras, size, overlap, whole)
    ensures var head := Tail(cur, overlap);
            Agrees(white, WithWindows(Flushed(chunks, cur), white, head, paras[0], size, overlap),
                   Left(white, head, paras[0], size, overlap), paras[1..], size, overlap, whole)
  {
    var head := Tail(cur, overlap);
    var windows, rest := WindowList(white, head, paras[0], size, overlap),
        Chunked(white, Left(white, head, paras[0], size, overlap), paras[1..], size, overlap);
    hide WindowList, Left;
    AppendAssociates(if cur != "" then chunks + [cur] else chunks, windows, rest);
    AppendAssociates(chunks, if cur != "" then [cur] else [], windows + rest);
    assert chunks + [] == chunks;
  }

  /** Before paragraph i. */
  ghost predicate Midway(
      white: char -> bool, paras: seq<string>, i: nat, size: nat, overlap: nat,
      chunks: seq<string>, cuts: seq<nat>, cur: string, old_: string, new_: string)
    requires AllCuttable(paras, size, overlap) && i <= |paras|
  {
    && Pending(white, size + overlap + 2, chunks, cuts, cur, old_, new_, Inked(white, Flatten(paras[..i])))
    && Agrees(white, chunks, cur, paras[i..], size, overlap, Chunked(white, "", paras, size, overlap))
  }

  lemma {:induction false} MidwayStart(white: char -> bool, paras: seq<string>, size: nat, overlap: nat)
    requires AllCuttable(paras, size, overlap)
    ensures Midway(white, paras, 0, size, overlap, [], [], "", "", "")
  {
    StartPending(white, size + overlap + 2);
    AgreesStart(white, paras, size, overlap);
    NothingYet(white, paras);
  }

  lemma {:induction false} MidwayLast(
      white: char -> bool, paras: seq<string>, size: nat, overlap: nat,
      chunks: seq<string>, cuts: seq<nat>, cur: string, old_: string, new_: string)
    requires AllCuttable(paras, size, overlap)
    requires Midway(white, paras, |paras|, size, overlap, chunks, cuts, cur, old_, new_)
    ensures Pending(white, size + overlap + 2, chunks, cuts, cur, old_, new_, Inked(white, Flatten(paras)))
    ensures Chunked(white, "", paras, size, overlap) == if cur != "" then chunks + [cur] else chunks
  {
    NothingYet(white, paras);
    hide Pending, Inked, Flatten;
    AgreesEnd(white, chunks, cur, paras[|paras|..], size, overlap, Chunked(white, "", paras, size, overlap));
  }

  /** The last `chunks.append(cur)`. */
  lemma {:induction false} PendingLast(
      white: char -> bool, limit: nat, chunks: seq<string>, cuts: seq<nat>, cur: string, old_: string,
      new_: string, total: string)
      returns (ks: seq<nat>)
    requires Pending(white, limit, chunks, cuts, cur, old_, new_, total)
    ensures var all := if cur != "" then chunks + [cur] else chunks;
            Fits(all, limit) && Cut(all, ks) && RepeatsTails(white, all, ks) && Fresh(white, all, ks) == total
  {
    if cur != "" {
      var k := FlushStep(white, limit, chunks, cuts, cur, old_, new_, total);
      ks := cuts + [k];
    } else {
      EmptyPending(white, limit, chunks, cuts, old_, new_, total);
      ks := cuts;
    }
  }

  method AddOne(
      white: char -> bool, paras: seq<string>, i: nat, size: nat, overlap: nat, chunks0: seq<string>, cur0: string,
      ghost cuts0: seq<nat>, ghost old0: string, ghost new0: string)
    returns (chunks: seq<string>, cur: string, ghost cuts: seq<nat>, ghost old_: string, ghost new_: string)
    requires white('\n') && AllCuttable(paras, size, overlap) && Clean(white, paras) && i < |paras|
    requires Midway(white, paras, i, size, overlap, chunks0, cuts0, cur0, old0, new0)
    ensures Midway(white, paras, i + 1, size, overlap, chunks, cuts, cur, old_, new_)
  {
    hide Inked, Fresh, Suffix, Tail, Flatten, Pending, Emitted, RepeatsTails, Fits, Agrees, Chunked, Appended;
    ghost var all, whole := Inked(white, Flatten(paras[..i])), Chunked(white, "", paras, size, overlap);
    AddParagraph(white, paras, i);
    RestAt(paras, i);
    var p := paras[i];
    if |cur0| + |p| + 2 <= size {
      AppendStep(white, size + overlap + 2, chunks0, cuts0, cur0, old0, new0, all, p);
      AgreesJoin(white, chunks0, cur0, paras[i..], size, overlap, whole);
      chunks, cuts, cur, old_, new_ := chunks0, cuts0, Appended(cur0, p), old0, new0 + Inked(white, p);
    } else {
      chunks, cur, cuts, old_, new_ :=
          Overflow(white, chunks0, cur0, p, size, overlap, cuts0, old0, new0, all, paras[i..], whole);
    }
  }

  /** `chunk_text` after paragraph splitting: chunks are non-empty and bounded; cutting from each a front
      that repeats the tail of what came before leaves exactly the ink of all paragraphs, in order. */
  method ChunkParagraphs(white: char -> bool, paras: seq<string>, size: nat, overlap: nat)
      returns (chunks: seq<string>, ghost cuts: seq<nat>)
    requires white('\n') && AllCuttable(paras, size, overlap) && Clean(white, paras)
    ensures Fits(chunks, size + overlap + 2)
    ensures Cut(chunks, cuts) && RepeatsTails(white, chunks, cuts)
    ensures Fresh(white, chunks, cuts) == Inked(white, Flatten(paras))
    ensures chunks == Chunked(white, "", paras, size, overlap)
  {
    MidwayStart(white, paras, size, overlap);
    hide Midway, Pending, Fresh, RepeatsTails, Fits, Chunked, Inked, Flatten;
    chunks, cuts := [], [];
    var cur := "";
    ghost var old_, new_ := "", "";
    for i := 0 to |paras|
      invariant Midway(white, paras, i, size, overlap, chunks, cuts, cur, old_, new_)
    {
      chunks, cur, cuts, old_, new_ := AddOne(white, paras, i, size, overlap, chunks, cur, cuts, old_, new_);
    }
    MidwayLast(white, paras, size, overlap, chunks, cuts, cur, old_, new_);
    cuts := PendingLast(white, size + overlap + 2, chunks, cuts, cur, old_, new_, Inked(white, Flatten(paras)));
    if cur != "" {
      chunks := chunks + [cur];
    }
  }

  lemma {:induction false} RestAt<T>(s: seq<T>, i: nat)
    requires i < |s|
    ensures s[i..] != [] && s[i..][0] == s[i] && s[i..][1..] == s[i + 1..]
  {
  }

  lemma {:induction false} NothingYet(white: char -> bool, paras: seq<string>)
    ensures Inked(white, Flatten(paras[..0])) == "" && paras[..|paras|] == paras && paras[|paras|..] == []
  {
  }

  lemma {:induction false} AddParagraph(white: char -> bool, paras: seq<string>, i: nat)
    requires i < |paras|
    ensures Inked(white, Flatten(paras[..i + 1])) == Inked(white, Flatten(paras[..i])) + Inked(white, paras[i])
  {
    assert paras[..i + 1] == paras[..i] + [paras[i]];
    FlattenConcat(paras[..i], [paras[i]]);
    FlattenOne(paras[i]);
    InkedConcat(white, Flatten(paras[..i]), paras[i]);
  }

  lemma {:induction false} JoinPlain(white: char -> bool, cur: string, p: string)
    requires white('\n')
    ensures Inked(white, Appended(cur, p)) == Inked(white, cur) + Inked(white, p)
  {
    NoInk(white, Inked(white, p));
    NoInk(white, Inked(white, cur));
    InkedWhite(white, "\n\n");
    hide Inked;
    if cur != "" {
      InkedConcat(white, cur, "\n\n");
      InkedConcat(white, cur + "\n\n", p);
    }
  }

  /** The whole of `chunk_text`: no ink of the text is lost or reordered. */
  method ChunkText(white: char -> bool, text: string, size: nat, overlap: nat)
      returns (chunks: seq<string>, ghost cuts: seq<nat>)
    requires white('\n') && white('\r') && AllCuttable(Paragraphs(white, text), size, overlap)
    ensures Fits(chunks, size + overlap + 2)
    ensures Cut(chunks, cuts) && RepeatsTails(white, chunks, cuts)
    ensures Fresh(white, chunks, cuts) == Inked(white, text)
    ensures chunks == Chunked(white, "", Paragraphs(white, text), size, overlap)
  {
    ParagraphsKeepInk(white, text);
    chunks, cuts := ChunkParagraphs(white, Paragraphs(white, text), size, overlap);
  }
}
