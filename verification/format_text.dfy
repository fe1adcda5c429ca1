/** `format_text` of the chat backend: two regex substitutions applied in
    order to the generated reply, `\*\*(.*?)\*\*` to `<b>\1</b>` and then
    `\*(.*?)\n` to `<ul><li>\1</li></ul>`. `.` does not match a newline,
    so a bold span never crosses a line and a bullet runs to the first
    newline, which it consumes. Each substitution scans left to right and
    resumes after the text it replaced. */
module ResponseFormat {
  import opened Wrappers

  /** Number of occurrences of `c` in `s`. */
  function Occurrences(c: char, s: string): (n: nat)
    ensures n <= |s|
    ensures n == 0 <==> c !in s
  {
    if |s| == 0 then 0 else (if s[0] == c then 1 else 0) + Occurrences(c, s[1..])
  }

  lemma {:induction false} OccurrencesAppend(c: char, a: string, b: string)
    ensures Occurrences(c, a + b) == Occurrences(c, a) + Occurrences(c, b)
  {
    if |a| == 0 {
      assert a + b == b;
    } else {
      assert (a + b)[1..] == a[1..] + b;
      OccurrencesAppend(c, a[1..], b);
    }
  }

  /** Counting across a replacement `open + mid + close` followed by `rest`. */
  lemma OccurrencesWrap(c: char, open: string, mid: string, close: string, rest: string)
    ensures Occurrences(c, open + mid + close + rest)
            == Occurrences(c, open) + Occurrences(c, mid) + Occurrences(c, close) + Occurrences(c, rest)
  {
    OccurrencesAppend(c, open + mid + close, rest);
    OccurrencesAppend(c, open + mid, close);
    OccurrencesAppend(c, open, mid);
  }

  lemma OccurrencesCons(c: char, s: string)
    requires |s| > 0
    ensures Occurrences(c, s) == Occurrences(c, [s[0]]) + Occurrences(c, s[1..])
  {
    assert s == [s[0]] + s[1..];
    OccurrencesAppend(c, [s[0]], s[1..]);
  }

  lemma OccurrencesSplit(c: char, s: string, i: nat, j: nat)
    requires i <= j <= |s|
    ensures Occurrences(c, s) == Occurrences(c, s[..i]) + Occurrences(c, s[i..j]) + Occurrences(c, s[j..])
  {
    assert s == s[..i] + s[i..j] + s[j..];
    OccurrencesAppend(c, s[..i] + s[i..j], s[j..]);
    OccurrencesAppend(c, s[..i], s[i..j]);
  }

  predicate DoubleStarAt(s: string, i: int) {
    0 <= i && i + 1 < |s| && s[i] == '*' && s[i + 1] == '*'
  }

  predicate LineFree(s: string, from: int, to: int)
    requires 0 <= from <= to <= |s|
  {
    forall k :: from <= k < to ==> s[k] != '\n'
  }

  // ---------------------------------------------------------------------
  // Bold.

  /** The lazy `(.*?)\*\*` after an opening `**`: the first `**` at or
      after `k`, provided no newline comes before it. */
  function CloseBold(s: string, k: nat): (r: Option<nat>)
    ensures r.Some? ==> k <= r.value && DoubleStarAt(s, r.value) && LineFree(s, k, r.value)
    ensures r.Some? ==> forall m :: k <= m < r.value ==> !DoubleStarAt(s, m)
    ensures r.None? ==> forall j :: k <= j && DoubleStarAt(s, j) ==> !LineFree(s, k, j)
    decreases |s| - k
  {
    if k + 1 >= |s| then None
    else if DoubleStarAt(s, k) then Some(k)
    else if s[k] == '\n' then None
    else CloseBold(s, k + 1)
  }

  /** First substitution. */
  function BoldSub(s: string): (r: string)
    decreases |s|
  {
    if |s| == 0 then ""
    else if DoubleStarAt(s, 0) then
      match CloseBold(s, 2)
      case Some(j) => "<b>" + s[2..j] + "</b>" + BoldSub(s[j + 2..])
      case None => [s[0]] + BoldSub(s[1..])
    else [s[0]] + BoldSub(s[1..])
  }

  /** Somewhere an opening `**` is closed by a later `**` on the same line:
      the pattern matches. */
  predicate BoldPair(s: string, i: int, j: int) {
    0 <= i && i + 2 <= j && DoubleStarAt(s, i) && DoubleStarAt(s, j) && LineFree(s, i + 2, j)
  }

  predicate HasBold(s: string) {
    exists i, j | 0 <= i < j < |s| :: BoldPair(s, i, j)
  }

  /** A match in the tail is a match in the whole string. */
  lemma NoBoldTail(s: string)
    requires |s| > 0 && !HasBold(s)
    ensures !HasBold(s[1..])
  {
    var t := s[1..];
    forall i, j | 0 <= i < j < |t| ensures !BoldPair(t, i, j) {
      if 0 <= i && i + 2 <= j && DoubleStarAt(t, i) && DoubleStarAt(t, j) {
        assert s[i + 1] == t[i] && s[i + 2] == t[i + 1] && s[j + 1] == t[j] && s[j + 2] == t[j + 1];
        assert DoubleStarAt(s, i + 1) && DoubleStarAt(s, j + 1);
        assert !BoldPair(s, i + 1, j + 1);
        assert !LineFree(s, i + 3, j + 1);
        var k :| i + 3 <= k < j + 1 && s[k] == '\n';
        assert t[k - 1] == '\n';
      }
    }
  }

  lemma BoldPairTail(s: string, i: int, j: int)
    requires |s| > 0 && BoldPair(s, i, j) && i >= 1
    ensures BoldPair(s[1..], i - 1, j - 1)
  {
    forall k | i + 1 <= k < j - 1 ensures s[1..][k] != '\n' {
      assert s[1..][k] == s[k + 1];
    }
  }

  /** Where the pattern cannot match, the first substitution changes
      nothing. */
  lemma {:induction false} BoldSubNoMatch(s: string)
    requires !HasBold(s)
    ensures BoldSub(s) == s
    decreases |s|
  {
    if |s| > 0 {
      if DoubleStarAt(s, 0) && CloseBold(s, 2).Some? {
        var j := CloseBold(s, 2).value;
        assert BoldPair(s, 0, j);
        assert false;
      }
      NoBoldTail(s);
      BoldSubNoMatch(s[1..]);
      assert s == [s[0]] + s[1..];
    }
  }

  /** Where it matches, at least one `**...**` pair is replaced: four
      asterisks fewer. */
  lemma {:induction false} BoldSubDropsStars(s: string)
    requires HasBold(s)
    ensures Occurrences('*', BoldSub(s)) + 4 <= Occurrences('*', s)
    decreases |s|
  {
    var i, j :| 0 <= i < j < |s| && BoldPair(s, i, j);
    if DoubleStarAt(s, 0) && CloseBold(s, 2).Some? {
      var c := CloseBold(s, 2).value;
      BoldSubStars(s[c + 2..]);
      BoldStep(s, c);
    } else {
      if i == 0 {
        assert false;
      }
      BoldPairTail(s, i, j);
      BoldSubDropsStars(s[1..]);
      OccurrencesCons('*', s);
      OccurrencesAppend('*', [s[0]], BoldSub(s[1..]));
    }
  }

  /** One replacement of `**mid**` by `<b>mid</b>`: four asterisks fewer,
      newlines kept. */
  lemma BoldStep(s: string, c: nat)
    requires DoubleStarAt(s, 0) && CloseBold(s, 2) == Some(c)
    ensures BoldSub(s) == "<b>" + s[2..c] + "</b>" + BoldSub(s[c + 2..])
    ensures Occurrences('*', s) == Occurrences('*', s[2..c]) + 4 + Occurrences('*', s[c + 2..])
    ensures Occurrences('\n', s) == Occurrences('\n', s[2..c]) + Occurrences('\n', s[c + 2..])
    ensures Occurrences('*', BoldSub(s)) == Occurrences('*', s[2..c]) + Occurrences('*', BoldSub(s[c + 2..]))
    ensures Occurrences('\n', BoldSub(s)) == Occurrences('\n', s[2..c]) + Occurrences('\n', BoldSub(s[c + 2..]))
  {
    var open, close := ['*', '*'], ['*', '*'];
    assert s == open + s[2..c] + close + s[c + 2..];
    OccurrencesWrap('*', open, s[2..c], close, s[c + 2..]);
    OccurrencesWrap('\n', open, s[2..c], close, s[c + 2..]);
    OccurrencesWrap('*', "<b>", s[2..c], "</b>", BoldSub(s[c + 2..]));
    OccurrencesWrap('\n', "<b>", s[2..c], "</b>", BoldSub(s[c + 2..]));
    TagCounts();
  }

  lemma TagCounts()
    ensures Occurrences('*', "<b>") == 0 && Occurrences('*', "</b>") == 0
    ensures Occurrences('\n', "<b>") == 0 && Occurrences('\n', "</b>") == 0
    ensures Occurrences('\n', "<ul><li>") == 0 && Occurrences('\n', "</li></ul>") == 0
    ensures Occurrences('*', ['*', '*']) == 2 && Occurrences('\n', ['*', '*']) == 0
    ensures Occurrences('\n', ['\n']) == 1
  {
    TagsHaveNoMarkers();
    MarkerCounts();
  }

  lemma TagsHaveNoMarkers()
    ensures Occurrences('*', "<b>") == 0 && Occurrences('*', "</b>") == 0
    ensures Occurrences('\n', "<b>") == 0 && Occurrences('\n', "</b>") == 0
    ensures Occurrences('\n', "<ul><li>") == 0 && Occurrences('\n', "</li></ul>") == 0
  {
  }

  lemma MarkerCounts()
    ensures Occurrences('*', ['*', '*']) == 2 && Occurrences('\n', ['*', '*']) == 0
    ensures Occurrences('\n', ['\n']) == 1
  {
  }

  /** The substitution never adds an asterisk. */
  lemma {:induction false} BoldSubStars(s: string)
    ensures Occurrences('*', BoldSub(s)) <= Occurrences('*', s)
    decreases |s|
  {
    if |s| > 0 {
      if DoubleStarAt(s, 0) && CloseBold(s, 2).Some? {
        var c := CloseBold(s, 2).value;
        BoldSubStars(s[c + 2..]);
        BoldStep(s, c);
      } else {
        BoldSubStars(s[1..]);
        OccurrencesCons('*', s);
        OccurrencesAppend('*', [s[0]], BoldSub(s[1..]));
      }
    }
  }

  /** Bold spans never cross a line: the first substitution keeps every
      newline. */
  lemma {:induction false} BoldSubKeepsNewlines(s: string)
    ensures Occurrences('\n', BoldSub(s)) == Occurrences('\n', s)
    decreases |s|
  {
    if |s| > 0 {
      if DoubleStarAt(s, 0) && CloseBold(s, 2).Some? {
        var c := CloseBold(s, 2).value;
        BoldSubKeepsNewlines(s[c + 2..]);
        BoldStep(s, c);
      } else {
        BoldSubKeepsNewlines(s[1..]);
        OccurrencesCons('\n', s);
        OccurrencesAppend('\n', [s[0]], BoldSub(s[1..]));
      }
    }
  }

  // ---------------------------------------------------------------------
  // Bullets.

  /** The lazy `(.*?)\n`: the first newline at or after `k`. */
  function NextNewline(s: string, k: nat): (r: Option<nat>)
    ensures r.Some? ==> k <= r.value < |s| && s[r.value] == '\n'
    ensures r.Some? ==> forall m :: k <= m < r.value ==> s[m] != '\n'
    ensures r.None? ==> forall m :: k <= m < |s| ==> s[m] != '\n'
    decreases |s| - k
  {
    if k >= |s| then None
    else if s[k] == '\n' then Some(k)
    else NextNewline(s, k + 1)
  }

  /** Second substitution. */
  function BulletSub(s: string): (r: string)
    decreases |s|
  {
    if |s| == 0 then ""
    else if s[0] == '*' then
      match NextNewline(s, 1)
      case Some(j) => "<ul><li>" + s[1..j] + "</li></ul>" + BulletSub(s[j + 1..])
      case None => [s[0]] + BulletSub(s[1..])
    else [s[0]] + BulletSub(s[1..])
  }

  /** An asterisk with a newline somewhere after it: the pattern matches. */
  predicate BulletPair(s: string, i: int, j: int) {
    0 <= i < j < |s| && s[i] == '*' && s[j] == '\n'
  }

  predicate HasBullet(s: string) {
    exists i, j | 0 <= i < j < |s| :: BulletPair(s, i, j)
  }

  lemma NoBulletTail(s: string)
    requires |s| > 0 && !HasBullet(s)
    ensures !HasBullet(s[1..])
  {
    var t := s[1..];
    forall i, j | 0 <= i < j < |t| ensures !BulletPair(t, i, j) {
      assert t[i] == s[i + 1] && t[j] == s[j + 1];
      assert !BulletPair(s, i + 1, j + 1);
    }
  }

  lemma {:induction false} BulletSubNoMatch(s: string)
    requires !HasBullet(s)
    ensures BulletSub(s) == s
    decreases |s|
  {
    if |s| > 0 {
      if s[0] == '*' && NextNewline(s, 1).Some? {
        assert BulletPair(s, 0, NextNewline(s, 1).value);
        assert false;
      }
      NoBulletTail(s);
      BulletSubNoMatch(s[1..]);
      assert s == [s[0]] + s[1..];
    }
  }

  /** Each bullet consumes the newline ending it. */
  lemma {:induction false} BulletSubNewlines(s: string)
    ensures Occurrences('\n', BulletSub(s)) <= Occurrences('\n', s)
    ensures HasBullet(s) ==> Occurrences('\n', BulletSub(s)) < Occurrences('\n', s)
    decreases |s|
  {
    if |s| > 0 {
      if s[0] == '*' && NextNewline(s, 1).Some? {
        var j := NextNewline(s, 1).value;
        BulletSubNewlines(s[j + 1..]);
        BulletStep(s, j);
      } else {
        BulletSubNewlines(s[1..]);
        OccurrencesCons('\n', s);
        OccurrencesAppend('\n', [s[0]], BulletSub(s[1..]));
        if HasBullet(s) {
          var i, j :| 0 <= i < j < |s| && BulletPair(s, i, j);
          if i == 0 {
            assert false;
          }
          assert BulletPair(s[1..], i - 1, j - 1);
        }
      }
    }
  }

  /** One replacement of `*mid\n` by `<ul><li>mid</li></ul>`: exactly one
      newline fewer. */
  lemma BulletStep(s: string, j: nat)
    requires |s| > 0 && s[0] == '*' && NextNewline(s, 1) == Some(j)
    ensures BulletSub(s) == "<ul><li>" + s[1..j] + "</li></ul>" + BulletSub(s[j + 1..])
    ensures Occurrences('\n', s) == Occurrences('\n', s[1..j]) + 1 + Occurrences('\n', s[j + 1..])
    ensures Occurrences('\n', BulletSub(s))
            == Occurrences('\n', s[1..j]) + Occurrences('\n', BulletSub(s[j + 1..]))
  {
    BulletUnfold(s, j);
    BulletSource(s, j);
    BulletResult(s[1..j], BulletSub(s[j + 1..]));
  }

  lemma BulletUnfold(s: string, j: nat)
    requires |s| > 0 && s[0] == '*' && NextNewline(s, 1) == Some(j)
    ensures BulletSub(s) == "<ul><li>" + s[1..j] + "</li></ul>" + BulletSub(s[j + 1..])
  {
  }

  lemma BulletSource(s: string, j: nat)
    requires 1 <= j < |s| && s[0] == '*' && s[j] == '\n'
    ensures Occurrences('\n', s) == Occurrences('\n', s[1..j]) + 1 + Occurrences('\n', s[j + 1..])
  {
    SplitAround(s, 1, j);
    assert s[..1] == ['*'] && s[j..j + 1] == ['\n'];
    OccurrencesWrap('\n', s[..1], s[1..j], s[j..j + 1], s[j + 1..]);
    assert Occurrences('\n', ['*']) == 0;
  }

  lemma SplitAround<T>(s: seq<T>, i: nat, j: nat)
    requires i <= j < |s|
    ensures s == s[..i] + s[i..j] + s[j..j + 1] + s[j + 1..]
  {
  }

  lemma BulletResult(mid: string, rest: string)
    ensures Occurrences('\n', "<ul><li>" + mid + "</li></ul>" + rest)
            == Occurrences('\n', mid) + Occurrences('\n', rest)
  {
    OccurrencesWrap('\n', "<ul><li>", mid, "</li></ul>", rest);
    TagCounts();
  }

  /** Closing search across a stretch with no asterisk and no newline. */
  lemma {:induction false} CloseBoldSkips(s: string, k: nat, m: nat)
    requires k <= m && DoubleStarAt(s, m)
    requires forall p :: k <= p < m ==> s[p] != '*' && s[p] != '\n'
    ensures CloseBold(s, k) == Some(m)
    decreases m - k
  {
    if k < m {
      CloseBoldSkips(s, k + 1, m);
    }
  }

  /** `**x**` on one line, with no asterisk inside, becomes `<b>x</b>`. */
  lemma BoldSpan(x: string)
    requires '*' !in x && '\n' !in x
    ensures BoldSub("**" + x + "**") == "<b>" + x + "</b>"
  {
    var s := "**" + x + "**";
    var m := |x| + 2;
    assert DoubleStarAt(s, 0) && DoubleStarAt(s, m);
    forall p | 2 <= p < m ensures s[p] != '*' && s[p] != '\n' {
      assert s[p] == x[p - 2];
    }
    CloseBoldSkips(s, 2, m);
    assert s[2..m] == x;
    assert s[m + 2..] == [];
    assert BoldSub(s) == "<b>" + x + "</b>" + BoldSub([]);
  }

  /** `*x` up to its newline, with no newline inside, becomes
      `<ul><li>x</li></ul>`: the newline is consumed. */
  lemma BulletLine(x: string)
    requires '\n' !in x
    ensures BulletSub("*" + x + "\n") == "<ul><li>" + x + "</li></ul>"
  {
    var s := "*" + x + "\n";
    var j := |x| + 1;
    assert NextNewline(s, 1) == Some(j) by {
      NextNewlineSkips(s, 1, j);
    }
    assert s[1..j] == x;
    assert s[j + 1..] == [];
    assert BulletSub(s) == "<ul><li>" + x + "</li></ul>" + BulletSub([]);
  }

  lemma {:induction false} NextNewlineSkips(s: string, k: nat, m: nat)
    requires k <= m < |s| && s[m] == '\n'
    requires forall p :: k <= p < m ==> s[p] != '\n'
    ensures NextNewline(s, k) == Some(m)
    decreases m - k
  {
    if k < m {
      NextNewlineSkips(s, k + 1, m);
    }
  }

  // ---------------------------------------------------------------------
  // `format_text`.

  function FormatText(text: string): (r: string) {
    BulletSub(BoldSub(text))
  }

  /** A reply without asterisks is returned unchanged. */
  lemma FormatTextStarFree(text: string)
    requires '*' !in text
    ensures FormatText(text) == text
  {
    assert !HasBold(text);
    BoldSubNoMatch(text);
    assert !HasBullet(text);
    BulletSubNoMatch(text);
  }

  /** The reply keeps its newlines exactly when no bullet pattern survives
      the bold pass. */
  lemma FormatTextNewlines(text: string)
    ensures Occurrences('\n', FormatText(text)) <= Occurrences('\n', text)
    ensures Occurrences('\n', FormatText(text)) == Occurrences('\n', text) <==> !HasBullet(BoldSub(text))
  {
    BoldSubKeepsNewlines(text);
    BulletSubNewlines(BoldSub(text));
    if !HasBullet(BoldSub(text)) {
      BulletSubNoMatch(BoldSub(text));
    }
  }
}
