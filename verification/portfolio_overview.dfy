/** `_format_repositories_summary`: the GitHub overview chunk. It lists up
    to ten repositories that have a description, in input order, and the
    sorted set of all languages. */
module PortfolioOverview {
  import opened TextUtil
  import opened Profiles
  import opened StructuredFormat

  // ---------------------------------------------------------------------
  // Python's ordering of `str` values, used by `sorted`.

  /** `a < b` on Python strings: lexicographic by code point, a proper
      prefix first. */
  predicate LexLess(a: string, b: string)
    decreases |a|
  {
    if |a| == 0 then |b| > 0
    else if |b| == 0 then false
    else if a[0] != b[0] then a[0] < b[0]
    else LexLess(a[1..], b[1..])
  }

  lemma {:induction false} LexIrreflexive(a: string)
    ensures !LexLess(a, a)
    decreases |a|
  {
    if |a| > 0 {
      LexIrreflexive(a[1..]);
    }
  }

  lemma {:induction false} LexTransitive(a: string, b: string, c: string)
    requires LexLess(a, b) && LexLess(b, c)
    ensures LexLess(a, c)
    decreases |a|
  {
    if |a| > 0 && a[0] == b[0] && b[0] == c[0] {
      LexTransitive(a[1..], b[1..], c[1..]);
    }
  }

  lemma {:induction false} LexTotal(a: string, b: string)
    requires a != b
    ensures LexLess(a, b) || LexLess(b, a)
    decreases |a|
  {
    if |a| > 0 && |b| > 0 && a[0] == b[0] {
      assert a == [a[0]] + a[1..] && b == [b[0]] + b[1..];
      LexTotal(a[1..], b[1..]);
    }
  }

  predicate StrictlySorted(xs: seq<string>) {
    forall i, j :: 0 <= i < j < |xs| ==> LexLess(xs[i], xs[j])
  }

  /** The set of elements of a list. */
  function Elems(xs: seq<string>): set<string> {
    set x | x in xs
  }

  /** A first element below every element of a sorted tail keeps it sorted. */
  lemma ConsSorted(h: string, xs: seq<string>)
    requires StrictlySorted(xs)
    requires forall y :: y in xs ==> LexLess(h, y)
    ensures StrictlySorted([h] + xs)
  {
    var r := [h] + xs;
    forall i, j | 0 <= i < j < |r| ensures LexLess(r[i], r[j]) {
      if i == 0 {
        assert r[j] == xs[j - 1] && r[j] in xs;
      } else {
        assert r[i] == xs[i - 1] && r[j] == xs[j - 1];
      }
    }
  }

  /** Insertion into a strictly sorted list, skipping a value already
      present. */
  function Insert(xs: seq<string>, x: string): (r: seq<string>)
    requires StrictlySorted(xs)
    ensures StrictlySorted(r)
    ensures Elems(r) == Elems(xs) + {x}
  {
    if |xs| == 0 then [x]
    else if x == xs[0] then xs
    else if LexLess(x, xs[0]) then
      InsertFront(xs, x);
      [x] + xs
    else
      var rest := Insert(xs[1..], x);
      InsertBehind(xs, x, rest);
      [xs[0]] + rest
  }

  lemma InsertFront(xs: seq<string>, x: string)
    requires StrictlySorted(xs) && |xs| > 0 && LexLess(x, xs[0])
    ensures StrictlySorted([x] + xs)
  {
    forall y | y in xs ensures LexLess(x, y) {
      var k :| 0 <= k < |xs| && xs[k] == y;
      if k > 0 { LexTransitive(x, xs[0], y); }
    }
    ConsSorted(x, xs);
  }

  lemma InsertBehind(xs: seq<string>, x: string, rest: seq<string>)
    requires StrictlySorted(xs) && |xs| > 0 && x != xs[0] && !LexLess(x, xs[0])
    requires StrictlySorted(rest) && Elems(rest) == Elems(xs[1..]) + {x}
    ensures StrictlySorted([xs[0]] + rest)
    ensures Elems([xs[0]] + rest) == Elems(xs) + {x}
  {
    LexTotal(x, xs[0]);
    forall y | y in rest ensures LexLess(xs[0], y) {
      assert y in Elems(rest);
      if y != x {
        var k :| 0 <= k < |xs[1..]| && xs[1..][k] == y;
        assert xs[k + 1] == y;
      }
    }
    ConsSorted(xs[0], rest);
    ElemsCons(xs[0], rest);
    ElemsCons(xs[0], xs[1..]);
    assert xs == [xs[0]] + xs[1..];
  }

  lemma ElemsEmpty(xs: seq<string>)
    ensures Elems(xs) == {} <==> xs == []
  {
    if xs != [] {
      assert xs[0] in Elems(xs);
    }
  }

  lemma ElemsCons(h: string, t: seq<string>)
    ensures Elems([h] + t) == {h} + Elems(t)
  {
  }

  /** Inserting every element of `ys`, in order. */
  function InsertAll(xs: seq<string>, ys: seq<string>): (r: seq<string>)
    requires StrictlySorted(xs)
    ensures StrictlySorted(r)
    ensures Elems(r) == Elems(xs) + Elems(ys)
    decreases |ys|
  {
    if |ys| == 0 then xs
    else
      var r := InsertAll(Insert(xs, ys[0]), ys[1..]);
      assert ys == [ys[0]] + ys[1..];
      r
  }

  /** A strictly sorted list is determined by its set of elements: this is
      what makes the result `sorted(set(...))`. */
  lemma {:induction false} SortedUnique(xs: seq<string>, ys: seq<string>)
    requires StrictlySorted(xs) && StrictlySorted(ys)
    requires Elems(xs) == Elems(ys)
    ensures xs == ys
    decreases |xs|
  {
    ElemsEmpty(xs);
    ElemsEmpty(ys);
    if |xs| > 0 && |ys| > 0 {
      assert xs[0] in Elems(ys) && ys[0] in Elems(xs);
      if xs[0] != ys[0] {
        var i :| 0 <= i < |ys| && ys[i] == xs[0];
        var j :| 0 <= j < |xs| && xs[j] == ys[0];
        assert i > 0 && j > 0;
        assert LexLess(ys[0], xs[0]) && LexLess(xs[0], ys[0]);
        LexTransitive(xs[0], ys[0], xs[0]);
        LexIrreflexive(xs[0]);
        assert false;
      }
      forall y | y in xs[1..] ensures y != xs[0] {
        var k :| 0 <= k < |xs[1..]| && xs[1..][k] == y;
        assert LexLess(xs[0], xs[k + 1]);
        LexIrreflexive(xs[0]);
      }
      forall y | y in ys[1..] ensures y != ys[0] {
        var k :| 0 <= k < |ys[1..]| && ys[1..][k] == y;
        assert LexLess(ys[0], ys[k + 1]);
        LexIrreflexive(ys[0]);
      }
      assert xs == [xs[0]] + xs[1..] && ys == [ys[0]] + ys[1..];
      assert Elems(xs[1..]) == Elems(xs) - {xs[0]};
      assert Elems(ys[1..]) == Elems(ys) - {ys[0]};
      SortedUnique(xs[1..], ys[1..]);
    }
  }

  // ---------------------------------------------------------------------
  // The language list.

  /** Every `languages_used` list, concatenated in repository order. */
  function AllLanguages(repos: seq<Repository>): seq<string> {
    if |repos| == 0 then [] else repos[0].languagesUsed + AllLanguages(repos[1..])
  }

  lemma {:induction false} AllLanguagesMembers(repos: seq<Repository>)
    ensures forall l :: l in AllLanguages(repos) <==>
              exists i :: 0 <= i < |repos| && l in repos[i].languagesUsed
  {
    if |repos| > 0 {
      AllLanguagesMembers(repos[1..]);
      forall l | l in AllLanguages(repos)
        ensures exists i :: 0 <= i < |repos| && l in repos[i].languagesUsed
      {
        if l !in repos[0].languagesUsed {
          assert l in AllLanguages(repos[1..]);
          var i :| 0 <= i < |repos[1..]| && l in repos[1..][i].languagesUsed;
          assert repos[i + 1] == repos[1..][i];
        }
      }
      forall l | exists i :: 0 <= i < |repos| && l in repos[i].languagesUsed
        ensures l in AllLanguages(repos)
      {
        var i :| 0 <= i < |repos| && l in repos[i].languagesUsed;
        if i > 0 {
          assert repos[1..][i - 1] == repos[i];
        }
      }
    }
  }

  /** `sorted(all_languages)`: strictly ascending, and holding exactly the
      languages some repository uses. */
  function SortedLanguages(repos: seq<Repository>): (r: seq<string>)
    ensures StrictlySorted(r)
    ensures forall l :: l in r <==> exists i :: 0 <= i < |repos| && l in repos[i].languagesUsed
  {
    var r := InsertAll([], AllLanguages(repos));
    AllLanguagesMembers(repos);
    assert forall l :: l in r <==> l in Elems(r);
    r
  }

  // ---------------------------------------------------------------------
  // Key projects.

  /** `[r for r in repositories if r.get('description')]`. */
  function Described(repos: seq<Repository>): (r: seq<Repository>)
    ensures |r| <= |repos|
    ensures forall x :: x in r <==> x in repos && x.description != ""
  {
    if |repos| == 0 then []
    else
      var rest := Described(repos[1..]);
      assert forall x :: x in repos <==> x == repos[0] || x in repos[1..];
      if repos[0].description != "" then [repos[0]] + rest else rest
  }

  /** Filtering distributes over concatenation, so it keeps input order. */
  lemma {:induction false} DescribedAppend(a: seq<Repository>, b: seq<Repository>)
    ensures Described(a + b) == Described(a) + Described(b)
  {
    if |a| == 0 {
      assert a + b == b;
    } else {
      assert (a + b)[1..] == a[1..] + b;
      DescribedAppend(a[1..], b);
    }
  }

  const MaxKeyProjects: nat := 10

  /** `key_projects[:10]`. */
  function KeyProjects(repos: seq<Repository>): (r: seq<Repository>)
    ensures |r| == Min(MaxKeyProjects, |Described(repos)|)
    ensures r <= Described(repos)
    ensures forall x :: x in r ==> x in repos && x.description != ""
    ensures |Described(repos)| <= MaxKeyProjects ==> r == Described(repos)
  {
    var d := Described(repos);
    if |d| > MaxKeyProjects then d[..MaxKeyProjects] else d
  }

  /** The fixed wording of the overview chunk, gathered in one record so
      the proofs below hold for any wording. */
  datatype Wording = Wording(
    title: string,
    keyHeader: string,
    bullet: string,
    languagesLead: string,
    trailerTail: string)

  /** The wording the source writes. Its bullet is the UTF-8 bytes of
      U+2022 read back as Windows-1252, i.e. the three characters U+00E2
      U+20AC U+00A2. */
  const OverviewWording: Wording := Wording(
    "GitHub Portfolio Overview",
    "Key Projects:",
    "\U{E2}\U{20AC}\U{A2}",
    "Technologies used across portfolio: ",
    " repositories demonstrating expertise in full-stack development, AI/ML, LLMs, RAG systems, and modern web technologies.")

  function KeyProjectLine(w: Wording, r: Repository): string {
    w.bullet + " " + r.name + ": " + r.description
  }

  function LanguagesLine(w: Wording, langs: seq<string>): string {
    w.languagesLead + Join(", ", langs) + "."
  }

  function OverviewTrailer(w: Wording, n: nat): string {
    "Total: " + NatToString(n) + w.trailerTail
  }

  function OverviewHeader(w: Wording, n: nat): string {
    Counted(w.title, n, "repositories")
  }

  /** One bullet line per key project, in order. */
  function KeyLines(w: Wording, key: seq<Repository>): (r: seq<string>)
    ensures |r| == |key|
    ensures forall i :: 0 <= i < |key| ==> r[i] == KeyProjectLine(w, key[i])
  {
    if |key| == 0 then [] else [KeyProjectLine(w, key[0])] + KeyLines(w, key[1..])
  }

  function OverviewParts(w: Wording, n: nat, key: seq<Repository>, langs: seq<string>): seq<string> {
    [OverviewHeader(w, n), w.keyHeader]
    + KeyLines(w, key)
    + (if |langs| > 0 then [LanguagesLine(w, langs)] else [])
    + [OverviewTrailer(w, n)]
  }

  /** Where each piece sits in `[a, b] + ks + ls + [t]`. */
  lemma PartsLayout(a: string, b: string, ks: seq<string>, ls: seq<string>, t: string)
    ensures var parts := [a, b] + ks + ls + [t];
            && |parts| >= 3
            && parts[0] == a && parts[1] == b
            && (forall i :: 0 <= i < |ks| ==> parts[2 + i] == ks[i])
            && (forall i :: 0 <= i < |ls| ==> parts[2 + |ks| + i] == ls[i])
            && parts[|parts| - 1] == t
  {
  }

  /** The overview's parts, in order: the counted header, the key-project
      header, one bullet per key project, the languages line exactly when
      there are languages, and the closing total. */
  predicate OverviewLayout(parts: seq<string>, w: Wording, n: nat, key: seq<Repository>, langs: seq<string>) {
    && |parts| == 3 + |key| + (if |langs| > 0 then 1 else 0)
    && parts[0] == OverviewHeader(w, n)
    && parts[1] == w.keyHeader
    && parts[2..2 + |key|] == KeyLines(w, key)
    && (|langs| > 0 ==> parts[2 + |key|] == LanguagesLine(w, langs))
    && parts[|parts| - 1] == OverviewTrailer(w, n)
  }

  lemma OverviewPartsLayout(w: Wording, n: nat, key: seq<Repository>, langs: seq<string>)
    ensures OverviewLayout(OverviewParts(w, n, key, langs), w, n, key, langs)
  {
    var ks := KeyLines(w, key);
    var ls := if |langs| > 0 then [LanguagesLine(w, langs)] else [];
    var parts := OverviewParts(w, n, key, langs);
    PartsLayout(OverviewHeader(w, n), w.keyHeader, ks, ls, OverviewTrailer(w, n));
    assert parts[2..2 + |key|] == ks;
  }

  lemma OverviewPartsShape(w: Wording, n: nat, key: seq<Repository>, langs: seq<string>)
    ensures var parts := OverviewParts(w, n, key, langs);
            && |parts| >= 3
            && parts[0] == OverviewHeader(w, n)
            && parts[1] == w.keyHeader
            && (forall i :: 0 <= i < |key| ==> KeyProjectLine(w, key[i]) in parts)
            && (|langs| > 0 ==> LanguagesLine(w, langs) in parts)
            && parts[|parts| - 1] == OverviewTrailer(w, n)
  {
    var ks := KeyLines(w, key);
    var ls := if |langs| > 0 then [LanguagesLine(w, langs)] else [];
    var parts := OverviewParts(w, n, key, langs);
    PartsLayout(OverviewHeader(w, n), w.keyHeader, ks, ls, OverviewTrailer(w, n));
    forall i | 0 <= i < |key| ensures KeyProjectLine(w, key[i]) in parts {
      assert parts[2 + i] == ks[i];
    }
    if |langs| > 0 {
      assert parts[2 + |ks|] == ls[0];
    }
  }

  /** The overview text of `n` repositories with the given key projects and
      languages. */
  function OverviewText(w: Wording, n: nat, key: seq<Repository>, langs: seq<string>): (t: string)
    ensures OverviewHeader(w, n) + " " + w.keyHeader <= t
    ensures forall i :: 0 <= i < |key| ==> Contains(t, KeyProjectLine(w, key[i]))
    ensures |langs| > 0 ==> Contains(t, LanguagesLine(w, langs))
    ensures EndsWith(t, " " + OverviewTrailer(w, n))
  {
    var parts := OverviewParts(w, n, key, langs);
    OverviewPartsShape(w, n, key, langs);
    JoinFacts(parts);
    Join(" ", parts)
  }

  /** `_format_repositories_summary`: the counted header, one bullet per key
      project (at most ten, in order), the language line exactly when some
      repository lists a language, and the closing total, joined by
      spaces. */
  function FormatRepositoriesSummary(repos: seq<Repository>): (t: string)
    ensures var w := OverviewWording;
            && OverviewHeader(w, |repos|) + " " + w.keyHeader <= t
            && (forall i :: 0 <= i < |KeyProjects(repos)| ==> Contains(t, KeyProjectLine(w, KeyProjects(repos)[i])))
            && (|SortedLanguages(repos)| > 0 ==> Contains(t, LanguagesLine(w, SortedLanguages(repos))))
            && EndsWith(t, " " + OverviewTrailer(w, |repos|))
    ensures exists parts :: t == Join(" ", parts)
              && OverviewLayout(parts, OverviewWording, |repos|, KeyProjects(repos), SortedLanguages(repos))
  {
    OverviewPartsLayout(OverviewWording, |repos|, KeyProjects(repos), SortedLanguages(repos));
    OverviewText(OverviewWording, |repos|, KeyProjects(repos), SortedLanguages(repos))
  }

  /** What a space-joined list of at least three parts shows of them. */
  lemma JoinFacts(parts: seq<string>)
    requires |parts| >= 3
    ensures parts[0] + " " + parts[1] <= Join(" ", parts)
    ensures EndsWith(Join(" ", parts), " " + parts[|parts| - 1])
    ensures forall x :: x in parts ==> Contains(Join(" ", parts), x)
  {
    JoinContainsMember(" ", parts);
    JoinEnd(" ", parts);
    JoinStart(" ", parts);
  }
}
