/** The sentence splitter of the sliding-window chunker:
    `re.split(r'(?<=[.!?])\s+', text)`, then every piece stripped and the
    empty ones dropped. */
module SentenceSplitter {
  import opened Wrappers
  import opened TextUtil

  predicate IsTerminal(c: char) {
    c == '.' || c == '!' || c == '?'
  }

  /** Position `p` starts a separator: whitespace directly after `.`, `!`
      or `?` (the look-behind needs a character before `p`). */
  predicate IsBoundary(s: string, p: int) {
    1 <= p < |s| && IsTerminal(s[p - 1]) && IsSpace(s[p])
  }

  /** No separator anywhere in `s`: the splitter would leave it whole. */
  predicate BoundaryFree(s: string) {
    forall p :: 0 <= p < |s| ==> !IsBoundary(s, p)
  }

  /** Leftmost separator at or after `from`, where the regex search finds
      its next match. */
  function FirstBoundary(s: string, from: nat): (r: Option<nat>)
    requires from >= 1
    ensures r.Some? ==> from <= r.value < |s| && IsBoundary(s, r.value)
    ensures r.Some? ==> forall p :: from <= p < r.value ==> !IsBoundary(s, p)
    ensures r.None? ==> forall p :: from <= p < |s| ==> !IsBoundary(s, p)
    decreases |s| - from
  {
    if from >= |s| then None
    else if IsBoundary(s, from) then Some(from)
    else FirstBoundary(s, from + 1)
  }

  /** End of the greedy `\s+` run starting at `p`. */
  function SpaceRunEnd(s: string, p: nat): (q: nat)
    requires p <= |s|
    ensures p <= q <= |s|
    ensures forall i :: p <= i < q ==> IsSpace(s[i])
    ensures q < |s| ==> !IsSpace(s[q])
    decreases |s| - p
  {
    if p < |s| && IsSpace(s[p]) then SpaceRunEnd(s, p + 1) else p
  }

  /** `re.split` itself: the pieces between the separators, in order. */
  function RawSplit(s: string): (pieces: seq<string>)
    ensures |pieces| >= 1
    decreases |s|
  {
    match FirstBoundary(s, 1)
    case None => [s]
    case Some(p) =>
      var q := SpaceRunEnd(s, p);
      [s[..p]] + RawSplit(s[q..])
  }

  /** The strip-and-drop-empty comprehension over the raw pieces. */
  function Clean(pieces: seq<string>): (r: seq<string>)
    ensures forall i :: 0 <= i < |r| ==> IsTrimmed(r[i])
    ensures |r| <= |pieces|
  {
    if |pieces| == 0 then []
    else
      var t := Strip(pieces[0]);
      var rest := Clean(pieces[1..]);
      if t == [] then rest
      else
        ConsTrimmed(t, rest);
        [t] + rest
  }

  lemma ConsTrimmed(t: string, rest: seq<string>)
    requires IsTrimmed(t)
    requires forall i :: 0 <= i < |rest| ==> IsTrimmed(rest[i])
    ensures forall i :: 0 <= i < |[t] + rest| ==> IsTrimmed(([t] + rest)[i])
  {
    forall i | 0 <= i < |[t] + rest| ensures IsTrimmed(([t] + rest)[i]) {
      if i > 0 {
        assert ([t] + rest)[i] == rest[i - 1];
      }
    }
  }

  /** Pieces that are already stripped and non-empty pass through. */
  lemma {:induction false} CleanTrimmed(pieces: seq<string>)
    requires forall i :: 0 <= i < |pieces| ==> IsTrimmed(pieces[i])
    ensures Clean(pieces) == pieces
  {
    if |pieces| > 0 {
      TrimmedTail(pieces);
      CleanTrimmed(pieces[1..]);
      CleanConsKept(pieces[0], pieces[1..]);
      assert pieces == [pieces[0]] + pieces[1..];
    }
  }

  lemma CleanConsKept(head: string, tail: seq<string>)
    requires IsTrimmed(head)
    ensures Clean([head] + tail) == [head] + Clean(tail)
  {
    StripTrimmed(head);
    CleanKeep([head] + tail);
    assert ([head] + tail)[1..] == tail;
  }

  lemma TrimmedTail(pieces: seq<string>)
    requires |pieces| > 0
    requires forall i :: 0 <= i < |pieces| ==> IsTrimmed(pieces[i])
    ensures forall i :: 0 <= i < |pieces[1..]| ==> IsTrimmed(pieces[1..][i])
  {
    forall i | 0 <= i < |pieces[1..]| ensures IsTrimmed(pieces[1..][i]) {
      assert pieces[1..][i] == pieces[i + 1];
    }
  }

  /** `split_text_into_sentences`. Every sentence is non-empty and carries
      no surrounding whitespace. */
  function Sentences(text: string): (r: seq<string>)
    ensures forall i :: 0 <= i < |r| ==> IsTrimmed(r[i])
  {
    Clean(RawSplit(text))
  }

  /** Splitting removes only the whitespace separators. */
  lemma {:induction false} RawSplitKeepsText(s: string)
    ensures NonSpace(Flatten(RawSplit(s))) == NonSpace(s)
    decreases |s|
  {
    match FirstBoundary(s, 1)
    case None =>
      assert Flatten([s]) == s + Flatten([s][1..]);
      assert s + [] == s;
    case Some(p) =>
      var q := SpaceRunEnd(s, p);
      var rest := RawSplit(s[q..]);
      assert RawSplit(s) == [s[..p]] + rest;
      RawSplitKeepsText(s[q..]);
      FlattenCons(s[..p], rest);
      NonSpaceAppend(s[..p], Flatten(rest));
      DropSeparator(s, p, q);
  }

  lemma FlattenCons(x: string, xs: seq<string>)
    ensures Flatten([x] + xs) == x + Flatten(xs)
  {
    assert ([x] + xs)[1..] == xs;
  }

  /** Cutting out a whitespace run keeps the non-whitespace text. */
  lemma {:induction false} DropSeparator(s: string, p: nat, q: nat)
    requires p <= q <= |s|
    requires forall i :: p <= i < q ==> IsSpace(s[i])
    ensures NonSpace(s) == NonSpace(s[..p]) + NonSpace(s[q..])
  {
    var a, sep, b := s[..p], s[p..q], s[q..];
    assert NonSpace(sep) == [] by {
      forall i | 0 <= i < |sep| ensures IsSpace(sep[i]) {
        assert sep[i] == s[p + i];
      }
      NonSpaceEmptyIffBlank(sep);
    }
    assert NonSpace(sep + b) == NonSpace(b) by {
      NonSpaceAppend(sep, b);
    }
    assert NonSpace(s) == NonSpace(a) + NonSpace(sep + b) by {
      assert s == a + (sep + b);
      NonSpaceAppend(a, sep + b);
    }
  }

  /** Stripping and dropping empty pieces also removes only whitespace. */
  lemma {:induction false} CleanKeepsText(pieces: seq<string>)
    ensures NonSpace(Flatten(Clean(pieces))) == NonSpace(Flatten(pieces))
  {
    if |pieces| > 0 {
      CleanKeepsText(pieces[1..]);
      var t := Strip(pieces[0]);
      NonSpaceAppend(pieces[0], Flatten(pieces[1..]));
      if t == [] {
        NonSpaceEmptyIffBlank(pieces[0]);
      } else {
        assert ([t] + Clean(pieces[1..]))[1..] == Clean(pieces[1..]);
        NonSpaceAppend(t, Flatten(Clean(pieces[1..])));
      }
    }
  }

  /** The sentences hold every non-whitespace character of the input, in
      input order, and nothing else: the splitter never reorders, drops or
      invents text. */
  lemma {:induction false} SentencesKeepText(text: string)
    ensures NonSpace(Flatten(Sentences(text))) == NonSpace(text)
  {
    RawSplitKeepsText(text);
    CleanKeepsText(RawSplit(text));
  }

  lemma {:induction false} TrimmedFlattenNonBlank(xs: seq<string>)
    requires |xs| > 0
    requires forall i :: 0 <= i < |xs| ==> IsTrimmed(xs[i])
    ensures NonSpace(Flatten(xs)) != []
  {
    NonSpaceAppend(xs[0], Flatten(xs[1..]));
    assert IsTrimmed(xs[0]);
    assert !IsSpace(xs[0][0]);
    NonSpaceEmptyIffBlank(xs[0]);
  }

  /** There are no sentences exactly when the text is empty or whitespace
      only. */
  lemma SentencesEmptyIffBlank(text: string)
    ensures Sentences(text) == [] <==> IsBlank(text)
  {
    SentencesKeepText(text);
    NonSpaceEmptyIffBlank(text);
    var ss := Sentences(text);
    if ss != [] {
      TrimmedFlattenNonBlank(ss);
    }
  }

  lemma BoundaryFreeSlice(s: string, i: nat, j: nat)
    requires i <= j <= |s|
    requires forall p :: i < p < j ==> !IsBoundary(s, p)
    ensures BoundaryFree(s[i..j])
  {
    forall p | 0 <= p < j - i ensures !IsBoundary(s[i..j], p) {
      if IsBoundary(s[i..j], p) {
        assert s[i..j][p - 1] == s[i + p - 1] && s[i..j][p] == s[i + p];
        assert IsBoundary(s, i + p);
        assert false;
      }
    }
  }

  /** The splitter cuts at every separator: no raw piece contains one. */
  lemma {:induction false} RawPiecesBoundaryFree(s: string)
    ensures forall i :: 0 <= i < |RawSplit(s)| ==> BoundaryFree(RawSplit(s)[i])
    decreases |s|
  {
    var first := FirstBoundary(s, 1);
    if first.None? {
      BoundaryFreeSlice(s, 0, |s|);
      assert s[0..|s|] == s;
      assert RawSplit(s) == [s];
    } else {
      var p := first.value;
      var q := SpaceRunEnd(s, p);
      BoundaryFreeSlice(s, 0, p);
      assert s[0..p] == s[..p];
      var rest := RawSplit(s[q..]);
      RawPiecesBoundaryFree(s[q..]);
      ConsBoundaryFree(s[..p], rest);
      assert RawSplit(s) == [s[..p]] + rest;
    }
  }

  lemma ConsBoundaryFree(x: string, xs: seq<string>)
    requires BoundaryFree(x)
    requires forall i :: 0 <= i < |xs| ==> BoundaryFree(xs[i])
    ensures forall i :: 0 <= i < |[x] + xs| ==> BoundaryFree(([x] + xs)[i])
  {
    forall i | 0 <= i < |[x] + xs| ensures BoundaryFree(([x] + xs)[i]) {
      if i > 0 {
        assert ([x] + xs)[i] == xs[i - 1];
      }
    }
  }

  lemma StripBoundaryFree(s: string)
    requires BoundaryFree(s)
    ensures BoundaryFree(Strip(s))
  {
    var l := TrimLeft(s);
    var k := |s| - |l|;
    assert l == s[k..];
    BoundaryFreeSlice(s, k, |s|);
    assert s[k..|s|] == l;
    assert BoundaryFree(l);
    var r := TrimRight(l);
    assert r == l[..|r|];
    assert l[0..|r|] == r;
    BoundaryFreeSlice(l, 0, |r|);
    assert Strip(s) == r;
  }

  lemma {:induction false} CleanBoundaryFree(pieces: seq<string>)
    requires forall i :: 0 <= i < |pieces| ==> BoundaryFree(pieces[i])
    ensures forall i :: 0 <= i < |Clean(pieces)| ==> BoundaryFree(Clean(pieces)[i])
  {
    if |pieces| > 0 {
      CleanBoundaryFree(pieces[1..]);
      StripBoundaryFree(pieces[0]);
      var t := Strip(pieces[0]);
      var r := Clean(pieces);
      if t != [] {
        ConsBoundaryFree(t, Clean(pieces[1..]));
      }
    }
  }

  /** No sentence contains a terminal followed by whitespace: every
      separator in the text was used to split. */
  lemma SentencesAreMaximal(text: string)
    ensures forall i :: 0 <= i < |Sentences(text)| ==> BoundaryFree(Sentences(text)[i])
  {
    RawPiecesBoundaryFree(text);
    CleanBoundaryFree(RawSplit(text));
  }

  /** The pieces with the separators put back between them:
      `pieces[0] + seps[0] + pieces[1] + ... + pieces[n]`. */
  function Interleave(pieces: seq<string>, seps: seq<string>): string
    requires |pieces| == |seps| + 1
  {
    if |seps| == 0 then pieces[0]
    else pieces[0] + seps[0] + Interleave(pieces[1..], seps[1..])
  }

  /** The whitespace runs `re.split` consumed, one between each pair of
      neighbouring pieces. */
  function RawSeparators(s: string): (seps: seq<string>)
    ensures |seps| + 1 == |RawSplit(s)|
    decreases |s|
  {
    match FirstBoundary(s, 1)
    case None => []
    case Some(p) =>
      var q := SpaceRunEnd(s, p);
      [s[p..q]] + RawSeparators(s[q..])
  }

  /** A non-empty string whose last character is `.`, `!` or `?`. */
  predicate EndsInTerminal(x: string) {
    |x| > 0 && IsTerminal(x[|x| - 1])
  }

  /** Cut `k` is one the pattern allows: the separator is a non-empty
      whitespace run, the piece before it ends in a terminal, and the piece
      after it does not start with whitespace, since `\s+` is greedy. */
  predicate CutAt(pieces: seq<string>, seps: seq<string>, k: nat)
    requires |pieces| == |seps| + 1 && k < |seps|
  {
    && |seps[k]| > 0 && IsBlank(seps[k])
    && EndsInTerminal(pieces[k])
    && (pieces[k + 1] == [] || !IsSpace(pieces[k + 1][0]))
  }

  /** Every cut of `re.split(r'(?<=[.!?])\s+', s)` is one the pattern
      allows. */
  predicate WellCut(pieces: seq<string>, seps: seq<string>)
    requires |pieces| == |seps| + 1
  {
    forall k :: 0 <= k < |seps| ==> CutAt(pieces, seps, k)
  }

  lemma ConsWellCut(x: string, sep: string, pieces: seq<string>, seps: seq<string>)
    requires |pieces| == |seps| + 1 && WellCut(pieces, seps)
    requires |sep| > 0 && IsBlank(sep)
    requires EndsInTerminal(x)
    requires pieces[0] == [] || !IsSpace(pieces[0][0])
    ensures WellCut([x] + pieces, [sep] + seps)
  {
    var ps, ss := [x] + pieces, [sep] + seps;
    forall k | 0 <= k < |ss| ensures CutAt(ps, ss, k) {
      assert ps[k + 1] == pieces[k];
      if k == 0 {
        assert ss[0] == sep && ps[0] == x;
      } else {
        assert CutAt(pieces, seps, k - 1);
        assert ss[k] == seps[k - 1] && ps[k] == pieces[k - 1];
      }
    }
  }

  /** The first raw piece starts where the text starts. */
  lemma RawSplitHead(s: string)
    ensures RawSplit(s)[0] == [] || (|s| > 0 && RawSplit(s)[0][0] == s[0])
  {
  }

  /** `re.split` loses nothing: putting the separators back between the
      pieces gives the text again, and every cut is one the pattern
      allows. */
  lemma {:induction false} RawSplitReconstruct(s: string)
    ensures s == Interleave(RawSplit(s), RawSeparators(s))
    ensures WellCut(RawSplit(s), RawSeparators(s))
    decreases |s|
  {
    match FirstBoundary(s, 1)
    case None =>
    case Some(p) =>
      var q := SpaceRunEnd(s, p);
      var ps, ss := RawSplit(s[q..]), RawSeparators(s[q..]);
      RawSplitReconstruct(s[q..]);
      assert RawSplit(s) == [s[..p]] + ps;
      assert RawSeparators(s) == [s[p..q]] + ss;
      assert ([s[..p]] + ps)[1..] == ps;
      assert ([s[p..q]] + ss)[1..] == ss;
      assert s == s[..p] + s[p..q] + s[q..];
      assert IsBlank(s[p..q]) by {
        forall i | 0 <= i < q - p ensures IsSpace(s[p..q][i]) {
          assert s[p..q][i] == s[p + i];
        }
      }
      RawSplitHead(s[q..]);
      ConsWellCut(s[..p], s[p..q], ps, ss);
  }

  /** Every element but the last ends in a terminal. */
  predicate TerminalsBeforeLast(xs: seq<string>) {
    forall k :: 0 <= k < |xs| - 1 ==> EndsInTerminal(xs[k])
  }

  lemma ConsTerminals(t: string, rest: seq<string>)
    requires EndsInTerminal(t) && TerminalsBeforeLast(rest)
    ensures TerminalsBeforeLast([t] + rest)
  {
    forall k | 0 <= k < |[t] + rest| - 1 ensures EndsInTerminal(([t] + rest)[k]) {
      if k > 0 {
        assert ([t] + rest)[k] == rest[k - 1];
      }
    }
  }

  lemma TailTerminals(xs: seq<string>)
    requires |xs| > 0 && TerminalsBeforeLast(xs)
    ensures TerminalsBeforeLast(xs[1..])
  {
    forall k | 0 <= k < |xs[1..]| - 1 ensures EndsInTerminal(xs[1..][k]) {
      assert xs[1..][k] == xs[k + 1];
    }
  }

  lemma CleanKeep(pieces: seq<string>)
    requires |pieces| > 0 && Strip(pieces[0]) != []
    ensures Clean(pieces) == [Strip(pieces[0])] + Clean(pieces[1..])
  {
  }

  /** Stripping and dropping blank pieces keeps the terminal at the end of
      every piece that had one; only the last piece can lack it. */
  lemma {:induction false} CleanKeepsTerminals(pieces: seq<string>)
    requires TerminalsBeforeLast(pieces)
    ensures TerminalsBeforeLast(Clean(pieces))
  {
    if |pieces| > 1 {
      TailTerminals(pieces);
      CleanKeepsTerminals(pieces[1..]);
      assert EndsInTerminal(pieces[0]);
      StripKeepsLast(pieces[0]);
      CleanKeep(pieces);
      ConsTerminals(Strip(pieces[0]), Clean(pieces[1..]));
    }
  }

  /** Every sentence but the last ends in `.`, `!` or `?`: the text is cut
      only after a terminal. */
  lemma {:induction false} SentencesEndInTerminal(text: string)
    ensures forall i :: 0 <= i < |Sentences(text)| - 1 ==> EndsInTerminal(Sentences(text)[i])
  {
    RawSplitReconstruct(text);
    var ps, ss := RawSplit(text), RawSeparators(text);
    forall k | 0 <= k < |ps| - 1 ensures EndsInTerminal(ps[k]) {
      assert CutAt(ps, ss, k);
    }
    assert TerminalsBeforeLast(ps);
    CleanKeepsTerminals(ps);
  }
}
