/** String helpers shared by the chunkers and the chat endpoint. Each one
    mirrors a Python built-in the source relies on: `str.isspace`,
    `str.strip`, `str.split()`, `str.lower`, `sep.join`, `in` on strings and
    `str(int)`. */
module TextUtil {

  function Min(a: int, b: int): int { if a <= b then a else b }
  function Max(a: int, b: int): int { if a >= b then a else b }

  /** Python's `str.isspace` for one character, which is also what `\s`
      matches in a `str` regular expression. */
  predicate IsSpace(c: char) {
    || c == ' '
    || ('\t' <= c <= '\r')
    || ('\U{1C}' <= c <= '\U{1F}')
    || c == '\U{85}' || c == '\U{A0}' || c == '\U{1680}'
    || ('\U{2000}' <= c <= '\U{200A}')
    || c == '\U{2028}' || c == '\U{2029}' || c == '\U{202F}'
    || c == '\U{205F}' || c == '\U{3000}'
  }

  /** `not s.strip()`: the string is empty or whitespace only. */
  predicate IsBlank(s: string) {
    forall i :: 0 <= i < |s| ==> IsSpace(s[i])
  }

  /** A string with no leading or trailing whitespace and at least one
      character: what `s.strip()` returns when it is truthy. */
  predicate IsTrimmed(s: string) {
    |s| > 0 && !IsSpace(s[0]) && !IsSpace(s[|s| - 1])
  }

  /** The non-whitespace characters of `s`, in order. Used to say that an
      operation loses nothing but whitespace. */
  function NonSpace(s: string): string {
    if |s| == 0 then []
    else if IsSpace(s[0]) then NonSpace(s[1..])
    else [s[0]] + NonSpace(s[1..])
  }

  lemma {:induction false} NonSpaceAppend(a: string, b: string)
    ensures NonSpace(a + b) == NonSpace(a) + NonSpace(b)
  {
    if |a| == 0 {
      assert a + b == b;
    } else {
      assert (a + b)[1..] == a[1..] + b;
      NonSpaceAppend(a[1..], b);
    }
  }

  lemma {:induction false} NonSpaceEmptyIffBlank(s: string)
    ensures NonSpace(s) == [] <==> IsBlank(s)
  {
    if |s| > 0 {
      NonSpaceEmptyIffBlank(s[1..]);
      if IsBlank(s[1..]) && IsSpace(s[0]) {
        forall i | 0 <= i < |s| ensures IsSpace(s[i]) {
          if i > 0 { assert s[i] == s[1..][i - 1]; }
        }
      }
      if IsBlank(s) {
        forall i | 0 <= i < |s| - 1 ensures IsSpace(s[1..][i]) {
          assert s[1..][i] == s[i + 1];
        }
      }
    }
  }

  /** `s.lstrip()`. */
  function TrimLeft(s: string): (r: string)
    ensures |r| <= |s| && r == s[|s| - |r|..]
    ensures forall i :: 0 <= i < |s| - |r| ==> IsSpace(s[i])
    ensures r == [] || !IsSpace(r[0])
  {
    if |s| > 0 && IsSpace(s[0]) then TrimLeft(s[1..]) else s
  }

  /** `s.rstrip()`. */
  function TrimRight(s: string): (r: string)
    ensures |r| <= |s| && r == s[..|r|]
    ensures forall i :: |r| <= i < |s| ==> IsSpace(s[i])
    ensures r == [] || !IsSpace(r[|r| - 1])
  {
    if |s| > 0 && IsSpace(s[|s| - 1]) then TrimRight(s[..|s| - 1]) else s
  }

  lemma BlankPrefixNonSpace(s: string, k: nat)
    requires k <= |s|
    requires forall i :: 0 <= i < k ==> IsSpace(s[i])
    ensures NonSpace(s) == NonSpace(s[k..])
  {
    NonSpaceAppend(s[..k], s[k..]);
    assert s == s[..k] + s[k..];
    assert IsBlank(s[..k]) by {
      forall i | 0 <= i < k ensures IsSpace(s[..k][i]) {
        assert s[..k][i] == s[i];
      }
    }
    NonSpaceEmptyIffBlank(s[..k]);
  }

  lemma BlankSuffixNonSpace(s: string, k: nat)
    requires k <= |s|
    requires forall i :: k <= i < |s| ==> IsSpace(s[i])
    ensures NonSpace(s) == NonSpace(s[..k])
  {
    NonSpaceAppend(s[..k], s[k..]);
    assert s == s[..k] + s[k..];
    assert IsBlank(s[k..]) by {
      forall i | 0 <= i < |s| - k ensures IsSpace(s[k..][i]) {
        assert s[k..][i] == s[k + i];
      }
    }
    NonSpaceEmptyIffBlank(s[k..]);
  }

  /** `s.strip()`: drops surrounding whitespace and nothing else. */
  function Strip(s: string): (r: string)
    ensures r == [] || IsTrimmed(r)
    ensures NonSpace(r) == NonSpace(s)
    ensures r == [] <==> IsBlank(s)
  {
    var l := TrimLeft(s);
    var r := TrimRight(l);
    BlankPrefixNonSpace(s, |s| - |l|);
    BlankSuffixNonSpace(l, |r|);
    NonSpaceEmptyIffBlank(s);
    NonSpaceEmptyIffBlank(r);
    assert r != [] ==> r[0] == l[0];
    r
  }

  /** `strip` keeps a last character that is not whitespace. */
  lemma StripKeepsLast(s: string)
    requires |s| > 0 && !IsSpace(s[|s| - 1])
    ensures |Strip(s)| > 0 && Strip(s)[|Strip(s)| - 1] == s[|s| - 1]
  {
    var l := TrimLeft(s);
    TrimLeftKeepsLast(s);
    assert TrimRight(l) == l;
    assert Strip(s) == TrimRight(l);
  }

  lemma TrimLeftKeepsLast(s: string)
    requires |s| > 0 && !IsSpace(s[|s| - 1])
    ensures |TrimLeft(s)| > 0 && TrimLeft(s)[|TrimLeft(s)| - 1] == s[|s| - 1]
  {
    if IsSpace(s[0]) {
      TrimLeftKeepsLast(s[1..]);
    }
  }

  /** A stripped string is left alone by `strip`, so `strip` is idempotent. */
  lemma StripTrimmed(s: string)
    requires IsTrimmed(s)
    ensures Strip(s) == s
  {
    assert TrimLeft(s) == s;
  }

  lemma StripIdempotent(s: string)
    ensures Strip(Strip(s)) == Strip(s)
  {
    if Strip(s) != [] {
      StripTrimmed(Strip(s));
    }
  }

  /** Python `str.lower()`, restricted to the ASCII letters. */
  function LowerAscii(s: string): (r: string)
    ensures |r| == |s|
    ensures forall i :: 0 <= i < |s| ==>
      r[i] == (if 'A' <= s[i] <= 'Z' then (s[i] as int + 32) as char else s[i])
  {
    if |s| == 0 then []
    else [if 'A' <= s[0] <= 'Z' then (s[0] as int + 32) as char else s[0]] + LowerAscii(s[1..])
  }

  /** Python's `k in s` on strings: `k` occurs in `s` as a contiguous run. */
  predicate Contains(s: string, k: string) {
    exists i | 0 <= i <= |s| :: OccursAt(s, k, i)
  }

  /** `k` occurs in `s` starting at index `i`. */
  predicate OccursAt(s: string, k: string, i: int) {
    0 <= i && i + |k| <= |s| && s[i..i + |k|] == k
  }

  lemma ContainsMiddle(a: string, k: string, b: string)
    ensures Contains(a + k + b, k)
  {
    assert OccursAt(a + k + b, k, |a|);
  }

  lemma ContainsWithin(a: string, s: string, b: string, k: string)
    requires Contains(s, k)
    ensures Contains(a + s + b, k)
  {
    var i :| 0 <= i <= |s| && OccursAt(s, k, i);
    var t := a + s + b;
    assert t[|a| + i..|a| + i + |k|] == s[i..i + |k|];
    assert OccursAt(t, k, |a| + i);
  }

  /** A string lacking the first character of `k` does not contain `k`. */
  lemma NotContainsLonger(s: string, k: string)
    requires |k| > |s|
    ensures !Contains(s, k)
  {
  }

  lemma NotContainsFirstChar(s: string, k: string)
    requires |k| > 0
    requires forall i :: 0 <= i < |s| ==> s[i] != k[0]
    ensures !Contains(s, k)
  {
    forall i | 0 <= i <= |s| ensures !OccursAt(s, k, i) {
      if i + |k| <= |s| {
        assert s[i..i + |k|][0] == s[i];
      }
    }
  }

  /** `sep.join(parts)`. */
  function Join(sep: string, parts: seq<string>): string {
    if |parts| == 0 then ""
    else if |parts| == 1 then parts[0]
    else parts[0] + sep + Join(sep, parts[1..])
  }

  /** Joining appends the separator and the new part at the end. */
  lemma {:induction false} JoinSnoc(sep: string, parts: seq<string>, p: string)
    requires |parts| > 0
    ensures Join(sep, parts + [p]) == Join(sep, parts) + sep + p
  {
    if |parts| == 1 {
      assert (parts + [p])[1..] == [p];
    } else {
      assert (parts + [p])[1..] == parts[1..] + [p];
      JoinSnoc(sep, parts[1..], p);
    }
  }

  /** A join of at least two parts ends with the separator and the last part. */
  lemma JoinEnd(sep: string, parts: seq<string>)
    requires |parts| >= 2
    ensures EndsWith(Join(sep, parts), sep + parts[|parts| - 1])
  {
    var last := parts[|parts| - 1];
    var init := parts[..|parts| - 1];
    assert parts == init + [last];
    JoinSnoc(sep, init, last);
    assert (Join(sep, init) + sep + last)[|Join(sep, init)|..] == sep + last;
  }

  /** A join of at least two parts starts with the first two and the separator between. */
  lemma JoinStart(sep: string, parts: seq<string>)
    requires |parts| >= 2
    ensures parts[0] + sep + parts[1] <= Join(sep, parts)
  {
    var x := parts[0] + sep;
    var rest := Join(sep, parts[1..]);
    assert Join(sep, parts) == x + rest;
    assert parts[1..][0] == parts[1];
    assert parts[1] <= rest;
    assert (x + rest)[..|x + parts[1]|] == x + parts[1];
  }

  /** Each joined part occurs in the joined string. */
  lemma {:induction false} JoinContainsPart(sep: string, parts: seq<string>, i: nat)
    requires i < |parts|
    ensures Contains(Join(sep, parts), parts[i])
  {
    if |parts| == 1 {
      ContainsMiddle("", parts[0], "");
      assert "" + parts[0] + "" == parts[0];
    } else if i == 0 {
      ContainsMiddle("", parts[0], sep + Join(sep, parts[1..]));
      assert "" + parts[0] + (sep + Join(sep, parts[1..])) == Join(sep, parts);
    } else {
      JoinContainsPart(sep, parts[1..], i - 1);
      ContainsWithin(parts[0] + sep, Join(sep, parts[1..]), "", parts[i]);
      assert parts[0] + sep + Join(sep, parts[1..]) + "" == Join(sep, parts);
    }
  }

  lemma JoinContainsMember(sep: string, parts: seq<string>)
    ensures forall x :: x in parts ==> Contains(Join(sep, parts), x)
  {
    forall x | x in parts ensures Contains(Join(sep, parts), x) {
      var k :| 0 <= k < |parts| && parts[k] == x;
      JoinContainsPart(sep, parts, k);
    }
  }

  /** Concatenation of a list of lists, in order. */
  function Flatten<T>(xss: seq<seq<T>>): seq<T> {
    if |xss| == 0 then [] else xss[0] + Flatten(xss[1..])
  }

  lemma {:induction false} FlattenSnoc<T>(xss: seq<seq<T>>, xs: seq<T>)
    ensures Flatten(xss + [xs]) == Flatten(xss) + xs
  {
    if |xss| == 0 {
      assert [xs][1..] == [];
    } else {
      assert (xss + [xs])[1..] == xss[1..] + [xs];
      FlattenSnoc(xss[1..], xs);
    }
  }

  lemma {:induction false} FlattenAppend<T>(xss: seq<seq<T>>, yss: seq<seq<T>>)
    ensures Flatten(xss + yss) == Flatten(xss) + Flatten(yss)
  {
    if |xss| == 0 {
      assert xss + yss == yss;
    } else {
      assert (xss + yss)[1..] == xss[1..] + yss;
      FlattenAppend(xss[1..], yss);
    }
  }

  /** Element `x` of block `a` sits after every earlier block. */
  lemma FlattenAt<T>(xss: seq<seq<T>>, a: nat, x: nat)
    requires a < |xss| && x < |xss[a]|
    ensures |Flatten(xss[..a])| + x < |Flatten(xss)|
    ensures Flatten(xss)[|Flatten(xss[..a])| + x] == xss[a][x]
    ensures Flatten(xss[..a + 1]) == Flatten(xss[..a]) + xss[a]
  {
    assert xss == xss[..a] + ([xss[a]] + xss[a + 1..]);
    assert xss[..a + 1] == xss[..a] + [xss[a]];
    FlattenAppend(xss[..a], [xss[a]] + xss[a + 1..]);
    FlattenAppend([xss[a]], xss[a + 1..]);
    FlattenSnoc(xss[..a], xss[a]);
    assert Flatten([xss[a]]) == xss[a] + Flatten([]);
  }

  /** Earlier blocks flatten to a prefix of later ones. */
  lemma FlattenPrefixLength<T>(xss: seq<seq<T>>, a: nat, b: nat)
    requires a <= b <= |xss|
    ensures |Flatten(xss[..a])| <= |Flatten(xss[..b])|
  {
    assert xss[..b] == xss[..a] + xss[a..b];
    FlattenAppend(xss[..a], xss[a..b]);
  }

  /** `a` occurs in `s` and ends no later than an occurrence of `b` begins. */
  predicate Precedes(s: string, a: string, b: string) {
    exists i, j | 0 <= i <= j <= |s| :: OccursAt(s, a, i) && OccursAt(s, b, j) && i + |a| <= j
  }

  /** Every line of every block occurs in `s`, and a line occurs before
      every later line of its block and every line of a later block. */
  predicate InBlockOrder(s: string, bs: seq<seq<string>>) {
    && (forall a, x :: 0 <= a < |bs| && 0 <= x < |bs[a]| ==> Contains(s, bs[a][x]))
    && (forall a, x, b, y ::
          0 <= a < |bs| && 0 <= x < |bs[a]| && 0 <= b < |bs| && 0 <= y < |bs[b]|
          && (a < b || (a == b && x < y))
          ==> Precedes(s, bs[a][x], bs[b][y]))
  }

  lemma {:induction false} JoinAppend(sep: string, xs: seq<string>, ys: seq<string>)
    requires |xs| > 0 && |ys| > 0
    ensures Join(sep, xs + ys) == Join(sep, xs) + sep + Join(sep, ys)
  {
    if |xs| == 1 {
      assert (xs + ys)[1..] == ys;
    } else {
      assert (xs + ys)[1..] == xs[1..] + ys;
      JoinAppend(sep, xs[1..], ys);
    }
  }

  lemma JoinStartsWithFirst(sep: string, parts: seq<string>)
    requires |parts| > 0
    ensures parts[0] <= Join(sep, parts)
  {
  }

  /** An earlier part of a join occurs before a later one. */
  lemma JoinPrecedes(sep: string, parts: seq<string>, i: nat, j: nat)
    requires i < j < |parts|
    ensures Precedes(Join(sep, parts), parts[i], parts[j])
  {
    var xs, ys := parts[..j], parts[j..];
    assert parts == xs + ys;
    JoinAppend(sep, xs, ys);
    var front := Join(sep, xs);
    var t := Join(sep, parts);
    assert t == front + sep + Join(sep, ys);
    JoinContainsPart(sep, xs, i);
    assert xs[i] == parts[i];
    var k :| 0 <= k <= |front| && OccursAt(front, parts[i], k);
    JoinStartsWithFirst(sep, ys);
    assert ys[0] == parts[j];
    var p := |front| + |sep|;
    assert t[k..k + |parts[i]|] == front[k..k + |parts[i]|];
    assert t[p..p + |parts[j]|] == Join(sep, ys)[..|parts[j]|];
    assert OccursAt(t, parts[i], k) && OccursAt(t, parts[j], p);
  }

  /** Joining the flattened blocks keeps every line, in block order. */
  lemma JoinInBlockOrder(sep: string, bs: seq<seq<string>>)
    ensures InBlockOrder(Join(sep, Flatten(bs)), bs)
  {
    var parts := Flatten(bs);
    var t := Join(sep, parts);
    forall a, x | 0 <= a < |bs| && 0 <= x < |bs[a]| ensures Contains(t, bs[a][x]) {
      FlattenAt(bs, a, x);
      JoinContainsPart(sep, parts, |Flatten(bs[..a])| + x);
    }
    forall a, x, b, y |
      0 <= a < |bs| && 0 <= x < |bs[a]| && 0 <= b < |bs| && 0 <= y < |bs[b]| && (a < b || (a == b && x < y))
      ensures Precedes(t, bs[a][x], bs[b][y])
    {
      FlattenAt(bs, a, x);
      FlattenAt(bs, b, y);
      if a < b {
        FlattenPrefixLength(bs, a + 1, b);
      }
      JoinPrecedes(sep, parts, |Flatten(bs[..a])| + x, |Flatten(bs[..b])| + y);
    }
  }

  function DigitChar(d: nat): char
    requires d < 10
  {
    "0123456789"[d]
  }

  /** `str(n)` for a non-negative integer: decimal, no leading zeros. */
  function NatToString(n: nat): (r: string)
    ensures |r| > 0
    ensures forall i :: 0 <= i < |r| ==> '0' <= r[i] <= '9'
    ensures |r| > 1 ==> r[0] != '0'
  {
    if n < 10 then [DigitChar(n)] else NatToString(n / 10) + [DigitChar(n % 10)]
  }

  /** Reads back a decimal numeral. */
  function ParseNat(s: string): nat
    requires forall i :: 0 <= i < |s| ==> '0' <= s[i] <= '9'
  {
    if |s| == 0 then 0 else 10 * ParseNat(s[..|s| - 1]) + (s[|s| - 1] as int - '0' as int)
  }

  /** The numeral `str(n)` writes is read back as `n`. */
  lemma {:induction false} NatToStringRoundTrip(n: nat)
    ensures ParseNat(NatToString(n)) == n
  {
    if n >= 10 {
      var s := NatToString(n);
      assert s[..|s| - 1] == NatToString(n / 10);
      NatToStringRoundTrip(n / 10);
    }
  }

  /** `str(i)` / an f-string field for any integer. */
  function IntToString(i: int): (r: string)
    ensures |r| > 0
    ensures i < 0 <==> r[0] == '-'
  {
    if i < 0 then "-" + NatToString(-i) else NatToString(i)
  }

  /** `suffix` ends `s`. */
  predicate EndsWith(s: string, suffix: string) {
    |suffix| <= |s| && s[|s| - |suffix|..] == suffix
  }

  /** Index of the first whitespace character at or after `i`, or `|s|`. */
  function WordEnd(s: string, i: nat): (e: nat)
    requires i <= |s|
    ensures i <= e <= |s|
    ensures forall j :: i <= j < e ==> !IsSpace(s[j])
    ensures e < |s| ==> IsSpace(s[e])
    decreases |s| - i
  {
    if i == |s| || IsSpace(s[i]) then i else WordEnd(s, i + 1)
  }

  /** A word as `str.split()` yields it: non-empty, no whitespace inside. */
  predicate IsWord(w: string) {
    |w| > 0 && forall i :: 0 <= i < |w| ==> !IsSpace(w[i])
  }

  /** `s.split()` with no arguments: the maximal runs of non-whitespace. */
  function Words(s: string): (ws: seq<string>)
    ensures forall i :: 0 <= i < |ws| ==> IsWord(ws[i])
    decreases |s|
  {
    if |s| == 0 then []
    else if IsSpace(s[0]) then Words(s[1..])
    else
      var e := WordEnd(s, 0);
      [s[..e]] + Words(s[e..])
  }

  /** `WordEnd` stops at the first whitespace character. */
  lemma {:induction false} WordEndAt(s: string, i: nat, k: nat)
    requires i <= k <= |s|
    requires forall j :: i <= j < k ==> !IsSpace(s[j])
    requires k == |s| || IsSpace(s[k])
    ensures WordEnd(s, i) == k
    decreases k - i
  {
    if i < k {
      WordEndAt(s, i + 1, k);
    }
  }

  lemma WordsCons(w: string, rest: string)
    requires IsWord(w)
    requires rest == [] || IsSpace(rest[0])
    ensures Words(w + rest) == [w] + Words(rest)
  {
    var s := w + rest;
    assert s[0] == w[0];
    forall j | 0 <= j < |w| ensures !IsSpace(s[j]) {
      assert s[j] == w[j];
    }
    assert |w| < |s| ==> s[|w|] == rest[0];
    WordEndAt(s, 0, |w|);
    assert s[..|w|] == w;
    assert s[|w|..] == rest;
  }

  lemma WordsLeadingSpace(x: string)
    ensures Words(" " + x) == Words(x)
  {
    assert (" " + x)[1..] == x;
  }

  lemma WordsConsSpace(w: string, t: string)
    requires IsWord(w)
    ensures Words(w + (" " + t)) == [w] + Words(t)
  {
    WordsCons(w, " " + t);
    WordsLeadingSpace(t);
  }

  /** Splitting words joined by single spaces gives the words back: the
      partner of `Words` used by the conversation-context truncation. */
  lemma {:induction false} WordsOfJoin(ws: seq<string>)
    requires forall i :: 0 <= i < |ws| ==> IsWord(ws[i])
    ensures Words(Join(" ", ws)) == ws
  {
    if |ws| == 1 {
      WordsCons(ws[0], "");
      assert ws[0] + "" == ws[0];
    } else if |ws| > 1 {
      var w := ws[0];
      var rest := ws[1..];
      assert IsWord(w);
      assert forall i :: 0 <= i < |rest| ==> IsWord(rest[i]) by {
        forall i | 0 <= i < |rest| ensures IsWord(rest[i]) {
          assert rest[i] == ws[i + 1];
        }
      }
      WordsOfJoin(rest);
      var t := Join(" ", rest);
      assert Join(" ", ws) == w + " " + t;
      assert w + " " + t == w + (" " + t);
      WordsConsSpace(w, t);
      assert ws == [w] + rest;
    }
  }

  /** Words on either side of a whitespace character stay apart: splitting
      `a`, whitespace, `b` gives the words of `a` then those of `b`. */
  lemma {:induction false} WordsAppendSpace(a: string, c: char, b: string)
    requires IsSpace(c)
    ensures Words(a + [c] + b) == Words(a) + Words(b)
    decreases |a|
  {
    var s := a + [c] + b;
    if |a| == 0 {
      assert s[1..] == b;
    } else if IsSpace(a[0]) {
      assert s[1..] == a[1..] + [c] + b;
      WordsAppendSpace(a[1..], c, b);
    } else {
      var e := WordEnd(a, 0);
      forall j | 0 <= j < e ensures !IsSpace(s[j]) {
        assert s[j] == a[j];
      }
      assert IsSpace(s[e]) by {
        if e < |a| {
          assert s[e] == a[e];
        } else {
          assert s[e] == c;
        }
      }
      WordEndAt(s, 0, e);
      assert s[..e] == a[..e];
      assert s[e..] == a[e..] + [c] + b;
      WordsAppendSpace(a[e..], c, b);
    }
  }
}
