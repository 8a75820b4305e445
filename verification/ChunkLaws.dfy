/** What splitting and chunking make of a text, case by case, without the helpers they are made of. */
module ChunkLaws {
  import opened Common
  import opened Chunking

  // ---------- stripping ----------

  predicate AllWhite(white: char -> bool, s: string) {
    forall i :: 0 <= i < |s| ==> white(s[i])
  }

  lemma {:induction false} LStripIs(white: char -> bool, s: string) returns (a: string)
    ensures s == a + LStrip(white, s) && AllWhite(white, a)
    ensures LStrip(white, s) != "" ==> !white(LStrip(white, s)[0])
  {
    a := "";
    if s != "" && white(s[0]) {
      var b := LStripIs(white, s[1..]);
      a := [s[0]] + b;
    }
  }

  lemma {:induction false} RStripIs(white: char -> bool, s: string) returns (b: string)
    ensures s == RStrip(white, s) + b && AllWhite(white, b)
    ensures RStrip(white, s) != "" ==> !white(RStrip(white, s)[|RStrip(white, s)| - 1])
  {
    b := "";
    if s != "" && white(s[|s| - 1]) {
      var a := RStripIs(white, s[..|s| - 1]);
      b := a + [s[|s| - 1]];
    }
  }

  /** Stripping takes white characters off both ends, and all of them. */
  lemma {:induction false} StripIs(white: char -> bool, s: string) returns (a: string, b: string)
    ensures s == a + Strip(white, s) + b && AllWhite(white, a) && AllWhite(white, b)
    ensures var r := Strip(white, s); r != "" ==> !white(r[0]) && !white(r[|r| - 1])
  {
    a := LStripIs(white, s);
    b := RStripIs(white, LStrip(white, s));
    var r := Strip(white, s);
    assert r != "" ==> LStrip(white, s)[0] == r[0];
  }

  // ---------- lines and paragraphs ----------

  /** A carriage return, with the newline behind it if there is one, becomes one newline; everything else stays. */
  lemma {:induction false} NewlinesOf(c: char, t: string)
    ensures Newlines("") == ""
    ensures Newlines("\r\n" + t) == "\n" + Newlines(t)
    ensures t == "" || t[0] != '\n' ==> Newlines("\r" + t) == "\n" + Newlines(t)
    ensures c != '\r' ==> Newlines([c] + t) == [c] + Newlines(t)
  {
    assert ("\r\n" + t)[2..] == t && ("\r" + t)[1..] == t && ([c] + t)[1..] == t;
  }

  /** Two newlines in a row. */
  predicate HasBlankLine(s: string) {
    exists i | 0 <= i < |s| - 1 :: s[i] == '\n' && s[i + 1] == '\n'
  }

  /** Text without a blank line is one piece. */
  lemma {:induction false} SplitWhole(piece: string, s: string)
    requires !HasBlankLine(s)
    ensures Split(piece, s) == [piece + s]
    decreases |s|
  {
    if s == "" {
      assert piece + s == piece;
    } else {
      forall i | 0 <= i < |s[1..]| - 1 ensures !(s[1..][i] == '\n' && s[1..][i + 1] == '\n') {
        assert !(s[i + 1] == '\n' && s[i + 1 + 1] == '\n');
      }
      assert |s| >= 2 ==> !(s[0] == '\n' && s[0 + 1] == '\n');
      SplitWhole(piece + [s[0]], s[1..]);
      assert piece + [s[0]] + s[1..] == piece + s;
    }
  }

  function Lines(n: nat): string {
    if n == 0 then "" else "\n" + Lines(n - 1)
  }

  lemma {:induction false} SkipLines(n: nat, b: string)
    requires b == "" || b[0] != '\n'
    ensures SkipNewlines(Lines(n) + b) == b
  {
    if n > 0 {
      assert (Lines(n) + b)[1..] == Lines(n - 1) + b;
      SkipLines(n - 1, b);
    } else {
      assert Lines(0) + b == b;
    }
  }

  /** The first run of two or more newlines ends the first piece; the rest is split by itself. */
  lemma {:induction false} SplitAtBlank(piece: string, a: string, n: nat, b: string)
    requires n >= 2 && !HasBlankLine(a) && (a != "" ==> a[|a| - 1] != '\n') && (b == "" || b[0] != '\n')
    ensures Split(piece, a + Lines(n) + b) == [piece + a] + Split("", b)
    decreases |a|
  {
    var s := a + Lines(n) + b;
    if a == "" {
      assert Lines(n) == "\n" + ("\n" + Lines(n - 2));
      assert s[2..] == Lines(n - 2) + b;
      SkipLines(n - 2, b);
      assert piece + a == piece;
    } else {
      var rest := a[1..];
      assert s[1..] == rest + Lines(n) + b && s[0] == a[0];
      forall i | 0 <= i < |rest| - 1 ensures !(rest[i] == '\n' && rest[i + 1] == '\n') {
        assert !(a[i + 1] == '\n' && a[i + 1 + 1] == '\n');
      }
      assert |a| >= 2 ==> s[1] == a[1] && !(a[0] == '\n' && a[0 + 1] == '\n');
      SplitAtBlank(piece + [a[0]], rest, n, b);
      assert piece + [a[0]] + rest == piece + a;
    }
  }

  lemma {:induction false} StripAllOf(white: char -> bool, first: string, rest: seq<string>)
    ensures StripAll(white, []) == []
    ensures StripAll(white, [first] + rest)
         == (if Strip(white, first) == "" then [] else [Strip(white, first)]) + StripAll(white, rest)
  {
    assert ([first] + rest)[1..] == rest;
  }

  /** The paragraphs of a text are the pieces between its blank lines, stripped, in order, without the empty ones. */
  lemma {:induction false} ParagraphsAre(white: char -> bool, text: string)
    ensures Paragraphs(white, text) == StripAll(white, Split("", Strip(white, Newlines(text))))
  {
    if Strip(white, Newlines(text)) == "" {
      assert Split("", "") == [""] && [""][1..] == [];
    }
  }

  // ---------- chunks ----------

  lemma {:induction false} Cons<T>(x: T, s: seq<T>)
    ensures ([x] + s)[0] == x && ([x] + s)[1..] == s
  {
  }

  /** At the end the pending text is the last chunk, if there is any. */
  lemma {:induction false} LastChunk(white: char -> bool, cur: string, size: nat, overlap: nat)
    ensures Chunked(white, cur, [], size, overlap) == if cur == "" then [] else [cur]
  {
  }

  /** A paragraph that fits is joined to the pending text behind a blank line. */
  lemma {:induction false} FittingParagraph(
      white: char -> bool, cur: string, p: string, rest: seq<string>, size: nat, overlap: nat)
    requires AllCuttable([p] + rest, size, overlap) && |cur| + |p| + 2 <= size
    ensures AllCuttable(rest, size, overlap)
    ensures Chunked(white, cur, [p] + rest, size, overlap)
         == Chunked(white, if cur == "" then p else cur + "\n\n" + p, rest, size, overlap)
  {
    Cons(p, rest);
    forall i | 0 <= i < |rest| ensures Cuttable(rest[i], size, overlap) {
      assert ([p] + rest)[i + 1] == rest[i];
    }
  }

  /** What a new chunk starts with: the last `overlap` characters of a longer one before it, and a blank line. */
  function Opened(white: char -> bool, cur: string, overlap: nat, p: string): string {
    if overlap == 0 || |cur| <= overlap then p else Strip(white, cur[|cur| - overlap..] + "\n\n" + p)
  }

  /** A paragraph that does not fit behind the pending text, but into a chunk of its own, starts the next chunk. */
  lemma {:induction false} OverflowingParagraph(
      white: char -> bool, cur: string, p: string, rest: seq<string>, size: nat, overlap: nat)
    requires AllCuttable([p] + rest, size, overlap) && |cur| + |p| + 2 > size >= |p|
    ensures AllCuttable(rest, size, overlap)
    ensures Chunked(white, cur, [p] + rest, size, overlap)
         == (if cur == "" then [] else [cur]) + Chunked(white, Opened(white, cur, overlap, p), rest, size, overlap)
  {
    Cons(p, rest);
    forall i | 0 <= i < |rest| ensures Cuttable(rest[i], size, overlap) {
      assert ([p] + rest)[i + 1] == rest[i];
    }
    var after := Chunked(white, Opened(white, cur, overlap, p), rest, size, overlap);
    assert [] + after == after;
  }

  /** Of a paragraph longer than a chunk the first `size` characters make one, and the rest goes on `overlap`
      characters before its end. */
  lemma {:induction false} LongParagraph(
      white: char -> bool, cur: string, p: string, rest: seq<string>, size: nat, overlap: nat)
    requires AllCuttable([p] + rest, size, overlap) && |p| > size
    ensures overlap < size && AllCuttable([p[size - overlap..]] + rest, size, overlap)
    ensures Chunked(white, cur, [p] + rest, size, overlap)
         == (if cur == "" then [] else [cur]) + [Opened(white, cur, overlap, p[..size])]
            + Chunked(white, "", [p[size - overlap..]] + rest, size, overlap)
  {
    assert Cuttable(([p] + rest)[0], size, overlap);
    var next := p[size - overlap..];
    Cons(p, rest);
    Cons(next, rest);
    forall i | 0 <= i < |rest| ensures Cuttable(rest[i], size, overlap) {
      assert ([p] + rest)[i + 1] == rest[i];
    }
    forall i | 0 <= i < |[next] + rest| ensures Cuttable(([next] + rest)[i], size, overlap) {
      assert i > 0 ==> ([next] + rest)[i] == rest[i - 1];
    }
    var first, windows := Opened(white, cur, overlap, p[..size]), WindowList(white, "", next, size, overlap);
    var after := Chunked(white, Left(white, "", next, size, overlap), rest, size, overlap);
    assert Left(white, Tail(cur, overlap), p, size, overlap) == Left(white, "", next, size, overlap);
    assert WindowList(white, Tail(cur, overlap), p, size, overlap) == [first] + windows;
    AppendAssociates([first], windows, after);
    FreshStart(white, next, rest, size, overlap);
    hide WindowList, Left, Chunked;
    AppendAssociates(if cur == "" then [] else [cur], [first], windows + after);
  }

  /** With nothing pending a paragraph is cut into its windows, if any, and the rest is pending. */
  lemma {:induction false} FreshStart(white: char -> bool, p: string, rest: seq<string>, size: nat, overlap: nat)
    requires AllCuttable([p] + rest, size, overlap) && AllCuttable(rest, size, overlap) && Cuttable(p, size, overlap)
    ensures Chunked(white, "", [p] + rest, size, overlap)
         == WindowList(white, "", p, size, overlap)
            + Chunked(white, Left(white, "", p, size, overlap), rest, size, overlap)
  {
    Cons(p, rest);
    var windows, after := WindowList(white, "", p, size, overlap),
                          Chunked(white, Left(white, "", p, size, overlap), rest, size, overlap);
    assert [] + (windows + after) == windows + after && [] + after == after;
  }

  function JoinedBy(paras: seq<string>): string
    requires paras != []
  {
    if |paras| == 1 then paras[0] else JoinedBy(paras[..|paras| - 1]) + "\n\n" + paras[|paras| - 1]
  }

  lemma {:induction false} PendingJoin(white: char -> bool, paras: seq<string>, k: nat, size: nat, overlap: nat)
    requires 1 <= k <= |paras| && AllCuttable(paras, size, overlap) && Clean(white, paras)
    requires |paras[0]| + 2 <= size && |JoinedBy(paras)| <= size
    ensures |JoinedBy(paras[..k])| <= |JoinedBy(paras)| && JoinedBy(paras[..k]) != ""
    ensures Chunked(white, "", paras, size, overlap) == Chunked(white, JoinedBy(paras[..k]), paras[k..], size, overlap)
    decreases k
  {
    JoinGrows(paras, k);
    assert EndsInInk(white, paras[0]);
    if k == 1 {
      assert paras == [paras[0]] + paras[1..] && paras[..1] == [paras[0]];
      FittingParagraph(white, "", paras[0], paras[1..], size, overlap);
    } else {
      PendingJoin(white, paras, k - 1, size, overlap);
      assert paras[k - 1..] == [paras[k - 1]] + paras[k..];
      assert paras[..k][..k - 1] == paras[..k - 1] && paras[..k][k - 1] == paras[k - 1];
      FittingParagraph(white, JoinedBy(paras[..k - 1]), paras[k - 1], paras[k..], size, overlap);
    }
  }

  lemma {:induction false} JoinGrows(paras: seq<string>, k: nat)
    requires 1 <= k <= |paras|
    ensures |JoinedBy(paras[..k])| <= |JoinedBy(paras)|
  {
    var n := |paras|;
    if k == n {
      assert paras[..k] == paras;
    } else {
      JoinGrows(paras[..n - 1], k);
      assert paras[..n - 1][..k] == paras[..k];
    }
  }

  /** A document that fits is one chunk: its paragraphs, joined by blank lines. */
  lemma {:induction false} SmallTextIsOneChunk(white: char -> bool, paras: seq<string>, size: nat, overlap: nat)
    requires paras != [] && AllCuttable(paras, size, overlap) && Clean(white, paras)
    requires |paras[0]| + 2 <= size && |JoinedBy(paras)| <= size
    ensures Chunked(white, "", paras, size, overlap) == [JoinedBy(paras)]
  {
    PendingJoin(white, paras, |paras|, size, overlap);
    assert paras[..|paras|] == paras && paras[|paras|..] == [];
  }
}
