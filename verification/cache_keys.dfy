/** Deterministic cache keys for the three query families: top headlines, the
    full-text search ("everything") and the sources listing. A key is the family
    prefix followed by `name=value` segments separated by `'|'`; absent fields
    give empty values, so every segment is always present and in the same place.
    Writing the key as `Join("|", segments)` yields exactly the text the string
    builder appends piece by piece. */
module CacheKeys {
  import opened Wrappers
  import opened Text

  const TopPrefix: string := "NewsApp:top:"
  const AllPrefix: string := "NewsApp:all:"
  const SourcesPrefix: string := "NewsApp:sources:"
  const Bar: string := "|"

  /** `x ?? ""`. */
  function OrEmpty(o: Option<string>): string {
    o.GetOr("")
  }

  /** A text field that cannot be mistaken for a segment separator. */
  predicate BarFree(o: Option<string>) {
    o.None? || '|' !in o.value
  }

  // ── The three key builders ────────────────────────────────────────────────

  /** The four text segments of a top-headline key, each value lower-cased. */
  function FieldSegments(country: Option<string>, category: Option<string>, sources: Option<string>,
                         query: Option<string>): seq<string>
  {
    ["c=" + LowerOrEmpty(country), "cat=" + LowerOrEmpty(category), "src=" + LowerOrEmpty(sources),
     "q=" + LowerOrEmpty(query)]
  }

  /** The two paging segments that end a top-headline or search key. */
  function PageSegments(page: int, pageSize: int): seq<string> {
    ["p=" + IntToString(page), "ps=" + IntToString(pageSize)]
  }

  function TopHeadlinesSegments(country: Option<string>, category: Option<string>, sources: Option<string>,
                                query: Option<string>, page: int, pageSize: int): seq<string>
  {
    FieldSegments(country, category, sources, query) + PageSegments(page, pageSize)
  }

  /** `CacheKeyBuilder.TopHeadlines`. */
  function TopHeadlines(country: Option<string>, category: Option<string>, sources: Option<string>,
                        query: Option<string>, page: int, pageSize: int): string
  {
    TopPrefix + Join(Bar, TopHeadlinesSegments(country, category, sources, query, page, pageSize))
  }

  function EverythingSegments(query: string, sources: Option<string>, language: Option<string>,
                              sortBy: Option<string>, from: Option<string>, to: Option<string>,
                              page: int, pageSize: int): seq<string>
  {
    ["q=" + Lower(query), "src=" + LowerOrEmpty(sources), "lang=" + LowerOrEmpty(language),
     "sort=" + LowerOrEmpty(sortBy), "from=" + OrEmpty(from), "to=" + OrEmpty(to),
     "p=" + IntToString(page), "ps=" + IntToString(pageSize)]
  }

  /** `CacheKeyBuilder.Everything`: the dates are not lower-cased. */
  function Everything(query: string, sources: Option<string>, language: Option<string>,
                      sortBy: Option<string>, from: Option<string>, to: Option<string>,
                      page: int, pageSize: int): string
  {
    AllPrefix + Join(Bar, EverythingSegments(query, sources, language, sortBy, from, to, page, pageSize))
  }

  /** `CacheKeyBuilder.Sources`: nothing is lower-cased. */
  function Sources(category: Option<string>, language: Option<string>, country: Option<string>): string {
    SourcesPrefix + Join(Bar, ["cat=" + OrEmpty(category), "lang=" + OrEmpty(language), "c=" + OrEmpty(country)])
  }

  // ── Splitting a key back into its parts ───────────────────────────────────

  /** Cancelling a common prefix. */
  lemma PrefixCancel(p: string, a: string, b: string)
    requires p + a == p + b
    ensures a == b
  {
    assert a == (p + a)[|p|..];
    assert b == (p + b)[|p|..];
  }

  /** A key is its prefix followed by its segments, and those can be recovered
      when no segment but the last holds a bar. */
  lemma KeySegments(prefix: string, xs: seq<string>, ys: seq<string>)
    requires |xs| == |ys|
    requires forall k :: 0 <= k < |xs| - 1 ==> '|' !in xs[k] && '|' !in ys[k]
    requires prefix + Join(Bar, xs) == prefix + Join(Bar, ys)
    ensures xs == ys
  {
    PrefixCancel(prefix, Join(Bar, xs), Join(Bar, ys));
    JoinBarInjective(xs, ys);
  }

  /** In a bar-free segment followed by a bar, that bar is the first one. */
  lemma FirstBar(x: string, r: string)
    requires '|' !in x
    ensures (x + Bar + r)[|x|] == '|'
    ensures forall i :: 0 <= i < |x| ==> (x + Bar + r)[i] != '|'
  {
    forall i | 0 <= i < |x|
      ensures (x + Bar + r)[i] != '|'
    {
      assert (x + Bar + r)[i] == x[i];
    }
  }

  /** The first `'|'` of a key ends its first segment. */
  lemma BarSplit(x: string, r: string, y: string, s: string)
    requires '|' !in x && '|' !in y
    requires x + Bar + r == y + Bar + s
    ensures x == y && r == s
  {
    var k1 := x + Bar + r;
    var k2 := y + Bar + s;
    FirstBar(x, r);
    FirstBar(y, s);
    assert |x| == |y|;
    assert x == k1[..|x|] && y == k2[..|y|];
    assert r == k1[|x| + 1..] && s == k2[|y| + 1..];
  }

  /** Joining two non-empty lists is joining each and putting one bar between them. */
  lemma {:induction false} JoinAppend(a: seq<string>, b: seq<string>)
    requires |a| > 0 && |b| > 0
    ensures Join(Bar, a + b) == Join(Bar, a) + Bar + Join(Bar, b)
    decreases |a|
  {
    if |a| == 1 {
      assert (a + b)[1..] == b;
    } else {
      assert (a + b)[1..] == a[1..] + b;
      JoinAppend(a[1..], b);
    }
  }

  /** Segments joined by bars can be recovered when no segment but the last holds a bar. */
  lemma {:induction false} JoinBarInjective(xs: seq<string>, ys: seq<string>)
    requires |xs| == |ys|
    requires forall k :: 0 <= k < |xs| - 1 ==> '|' !in xs[k] && '|' !in ys[k]
    requires Join(Bar, xs) == Join(Bar, ys)
    ensures xs == ys
    decreases |xs|
  {
    if |xs| > 1 {
      BarSplit(xs[0], Join(Bar, xs[1..]), ys[0], Join(Bar, ys[1..]));
      JoinBarInjective(xs[1..], ys[1..]);
      assert xs == [xs[0]] + xs[1..] && ys == [ys[0]] + ys[1..];
    }
  }

  /** A lower-cased field is bar-free when the field is. */
  lemma LowerBarFree(o: Option<string>)
    requires BarFree(o)
    ensures '|' !in LowerOrEmpty(o)
  {
    LowerKeepsNonLetter(o.GetOr(""), '|');
  }

  // ── What a key determines ─────────────────────────────────────────────────

  /** Two top-headline keys are equal exactly when the queries agree on every text
      field after lower-casing (a null field counting as empty) and on page and
      page size, provided no text field contains `'|'`. */
  lemma TopHeadlinesKeyIdentifiesQuery(
    c1: Option<string>, cat1: Option<string>, s1: Option<string>, q1: Option<string>, p1: int, ps1: int,
    c2: Option<string>, cat2: Option<string>, s2: Option<string>, q2: Option<string>, p2: int, ps2: int)
    requires BarFree(c1) && BarFree(cat1) && BarFree(s1) && BarFree(q1)
    requires BarFree(c2) && BarFree(cat2) && BarFree(s2) && BarFree(q2)
    ensures TopHeadlines(c1, cat1, s1, q1, p1, ps1) == TopHeadlines(c2, cat2, s2, q2, p2, ps2) <==>
            && LowerOrEmpty(c1) == LowerOrEmpty(c2) && LowerOrEmpty(cat1) == LowerOrEmpty(cat2)
            && LowerOrEmpty(s1) == LowerOrEmpty(s2) && LowerOrEmpty(q1) == LowerOrEmpty(q2)
            && p1 == p2 && ps1 == ps2
  {
    if TopHeadlines(c1, cat1, s1, q1, p1, ps1) == TopHeadlines(c2, cat2, s2, q2, p2, ps2) {
      var xs := TopHeadlinesSegments(c1, cat1, s1, q1, p1, ps1);
      var ys := TopHeadlinesSegments(c2, cat2, s2, q2, p2, ps2);
      TopHeadlinesSegmentsBarFree(c1, cat1, s1, q1, p1, ps1);
      TopHeadlinesSegmentsBarFree(c2, cat2, s2, q2, p2, ps2);
      KeySegments(TopPrefix, xs, ys);
      assert xs[0] == ys[0] && xs[1] == ys[1] && xs[2] == ys[2];
      assert xs[3] == ys[3] && xs[4] == ys[4] && xs[5] == ys[5];
      PrefixCancel("c=", LowerOrEmpty(c1), LowerOrEmpty(c2));
      PrefixCancel("cat=", LowerOrEmpty(cat1), LowerOrEmpty(cat2));
      PrefixCancel("src=", LowerOrEmpty(s1), LowerOrEmpty(s2));
      PrefixCancel("q=", LowerOrEmpty(q1), LowerOrEmpty(q2));
      PrefixCancel("p=", IntToString(p1), IntToString(p2));
      PrefixCancel("ps=", IntToString(ps1), IntToString(ps2));
      IntToStringInjective(p1, p2);
      IntToStringInjective(ps1, ps2);
    }
  }

  /** Every top-headline segment but the last is bar-free when the text fields are. */
  lemma TopHeadlinesSegmentsBarFree(c: Option<string>, cat: Option<string>, s: Option<string>,
                                    q: Option<string>, p: int, ps: int)
    requires BarFree(c) && BarFree(cat) && BarFree(s) && BarFree(q)
    ensures var xs := TopHeadlinesSegments(c, cat, s, q, p, ps);
            |xs| == 6 && forall k :: 0 <= k < |xs| - 1 ==> '|' !in xs[k]
  {
    LowerBarFree(c); LowerBarFree(cat); LowerBarFree(s); LowerBarFree(q);
    IntToStringChars(p);
  }

  /** A top-headline key is its prefix, its joined text segments, a bar and its
      joined paging segments. */
  lemma TopHeadlinesSplit(c: Option<string>, cat: Option<string>, s: Option<string>, q: Option<string>,
                          p: int, ps: int)
    ensures TopHeadlines(c, cat, s, q, p, ps)
            == (TopPrefix + Join(Bar, FieldSegments(c, cat, s, q)) + Bar) + Join(Bar, PageSegments(p, ps))
  {
    JoinAppend(FieldSegments(c, cat, s, q), PageSegments(p, ps));
  }

  /** The joined paging segments determine page and page size. */
  lemma PageSegmentsInjective(p1: int, ps1: int, p2: int, ps2: int)
    requires Join(Bar, PageSegments(p1, ps1)) == Join(Bar, PageSegments(p2, ps2))
    ensures p1 == p2 && ps1 == ps2
  {
    IntToStringChars(p1); IntToStringChars(p2);
    JoinBarInjective(PageSegments(p1, ps1), PageSegments(p2, ps2));
    PrefixCancel("p=", IntToString(p1), IntToString(p2));
    PrefixCancel("ps=", IntToString(ps1), IntToString(ps2));
    IntToStringInjective(p1, p2);
    IntToStringInjective(ps1, ps2);
  }

  /** Lower-casing leaves a string without capitals unchanged. */
  lemma LowerOfLowerCase(s: string)
    requires forall i :: 0 <= i < |s| ==> !('A' <= s[i] <= 'Z')
    ensures Lower(s) == s
  {
  }

  /** Without the bar-free condition the promise of one key per query fails: two
      different country/category pairs share a key. */
  lemma TopHeadlinesCollision()
    ensures LowerOrEmpty(Some("x|cat=y")) != LowerOrEmpty(Some("x"))
    ensures TopHeadlines(Some("x|cat=y"), Some(""), None, None, 1, 12)
         == TopHeadlines(Some("x"), Some("y|cat="), None, None, 1, 12)
  {
    LowerOfLowerCase("x|cat=y");
    LowerOfLowerCase("x");
    CollidingFields();
    TopHeadlinesSplit(Some("x|cat=y"), Some(""), None, None, 1, 12);
    TopHeadlinesSplit(Some("x"), Some("y|cat="), None, None, 1, 12);
  }

  /** The text segments of the colliding pair join to the same text. */
  lemma CollidingFields()
    ensures Join(Bar, FieldSegments(Some("x|cat=y"), Some(""), None, None))
         == Join(Bar, FieldSegments(Some("x"), Some("y|cat="), None, None))
  {
    var tail := ["src=", "q="];
    CollidingSegmentsLeft();
    CollidingSegmentsRight();
    JoinAppend(["c=x|cat=y", "cat="], tail);
    JoinAppend(["c=x", "cat=y|cat="], tail);
    assert Join(Bar, ["c=x|cat=y", "cat="]) == Join(Bar, ["c=x", "cat=y|cat="]);
  }

  /** The text segments of the first query of the colliding pair. */
  lemma CollidingSegmentsLeft()
    ensures FieldSegments(Some("x|cat=y"), Some(""), None, None) == ["c=x|cat=y", "cat="] + ["src=", "q="]
  {
    LowerOfLowerCase("x|cat=y");
    LowerOfLowerCase("");
    assert "c=" + "x|cat=y" == "c=x|cat=y" && "cat=" + "" == "cat=";
    assert "src=" + "" == "src=" && "q=" + "" == "q=";
  }

  /** The text segments of the second query of the colliding pair. */
  lemma CollidingSegmentsRight()
    ensures FieldSegments(Some("x"), Some("y|cat="), None, None) == ["c=x", "cat=y|cat="] + ["src=", "q="]
  {
    LowerOfLowerCase("x");
    LowerOfLowerCase("y|cat=");
    LowerOfLowerCase("");
    assert "c=" + "x" == "c=x" && "cat=" + "y|cat=" == "cat=y|cat=";
    assert "src=" + "" == "src=" && "q=" + "" == "q=";
  }

  /** Keys that agree on every text field differ whenever page or page size
      differ, whatever the text fields hold: both numbers are the final segments. */
  lemma TopHeadlinesPageDistinct(
    c: Option<string>, cat: Option<string>, s: Option<string>, q: Option<string>,
    p1: int, ps1: int, p2: int, ps2: int)
    requires p1 != p2 || ps1 != ps2
    ensures TopHeadlines(c, cat, s, q, p1, ps1) != TopHeadlines(c, cat, s, q, p2, ps2)
  {
    if TopHeadlines(c, cat, s, q, p1, ps1) == TopHeadlines(c, cat, s, q, p2, ps2) {
      TopHeadlinesSplit(c, cat, s, q, p1, ps1);
      TopHeadlinesSplit(c, cat, s, q, p2, ps2);
      PrefixCancel(TopPrefix + Join(Bar, FieldSegments(c, cat, s, q)) + Bar,
                   Join(Bar, PageSegments(p1, ps1)), Join(Bar, PageSegments(p2, ps2)));
      PageSegmentsInjective(p1, ps1, p2, ps2);
    }
  }

  /** Two search keys are equal exactly when the queries agree on query, sources,
      language and sort order after lower-casing, on the two dates exactly as
      written, and on page and page size, provided no text field contains `'|'`. */
  lemma EverythingKeyIdentifiesQuery(
    q1: string, s1: Option<string>, l1: Option<string>, o1: Option<string>, f1: Option<string>, t1: Option<string>,
    p1: int, ps1: int,
    q2: string, s2: Option<string>, l2: Option<string>, o2: Option<string>, f2: Option<string>, t2: Option<string>,
    p2: int, ps2: int)
    requires '|' !in q1 && BarFree(s1) && BarFree(l1) && BarFree(o1) && BarFree(f1) && BarFree(t1)
    requires '|' !in q2 && BarFree(s2) && BarFree(l2) && BarFree(o2) && BarFree(f2) && BarFree(t2)
    ensures Everything(q1, s1, l1, o1, f1, t1, p1, ps1) == Everything(q2, s2, l2, o2, f2, t2, p2, ps2) <==>
            && Lower(q1) == Lower(q2) && LowerOrEmpty(s1) == LowerOrEmpty(s2)
            && LowerOrEmpty(l1) == LowerOrEmpty(l2) && LowerOrEmpty(o1) == LowerOrEmpty(o2)
            && OrEmpty(f1) == OrEmpty(f2) && OrEmpty(t1) == OrEmpty(t2)
            && p1 == p2 && ps1 == ps2
  {
    if Everything(q1, s1, l1, o1, f1, t1, p1, ps1) == Everything(q2, s2, l2, o2, f2, t2, p2, ps2) {
      var xs := EverythingSegments(q1, s1, l1, o1, f1, t1, p1, ps1);
      var ys := EverythingSegments(q2, s2, l2, o2, f2, t2, p2, ps2);
      EverythingSegmentsBarFree(q1, s1, l1, o1, f1, t1, p1, ps1);
      EverythingSegmentsBarFree(q2, s2, l2, o2, f2, t2, p2, ps2);
      KeySegments(AllPrefix, xs, ys);
      assert xs[0] == ys[0] && xs[1] == ys[1] && xs[2] == ys[2] && xs[3] == ys[3];
      assert xs[4] == ys[4] && xs[5] == ys[5] && xs[6] == ys[6] && xs[7] == ys[7];
      PrefixCancel("q=", Lower(q1), Lower(q2));
      PrefixCancel("src=", LowerOrEmpty(s1), LowerOrEmpty(s2));
      PrefixCancel("lang=", LowerOrEmpty(l1), LowerOrEmpty(l2));
      PrefixCancel("sort=", LowerOrEmpty(o1), LowerOrEmpty(o2));
      PrefixCancel("from=", OrEmpty(f1), OrEmpty(f2));
      PrefixCancel("to=", OrEmpty(t1), OrEmpty(t2));
      PrefixCancel("p=", IntToString(p1), IntToString(p2));
      PrefixCancel("ps=", IntToString(ps1), IntToString(ps2));
      IntToStringInjective(p1, p2);
      IntToStringInjective(ps1, ps2);
    }
  }

  /** Every search-key segment but the last is bar-free when the text fields are. */
  lemma EverythingSegmentsBarFree(q: string, s: Option<string>, l: Option<string>, o: Option<string>,
                                  f: Option<string>, t: Option<string>, p: int, ps: int)
    requires '|' !in q && BarFree(s) && BarFree(l) && BarFree(o) && BarFree(f) && BarFree(t)
    ensures var xs := EverythingSegments(q, s, l, o, f, t, p, ps);
            |xs| == 8 && forall k :: 0 <= k < |xs| - 1 ==> '|' !in xs[k]
  {
    LowerBarFree(Some(q)); LowerBarFree(s); LowerBarFree(l); LowerBarFree(o);
    IntToStringChars(p);
  }

  /** Two sources keys are equal exactly when the three filters are equal as
      written (letter case included), provided category and language are bar-free. */
  lemma SourcesKeyIdentifiesQuery(
    cat1: Option<string>, l1: Option<string>, c1: Option<string>,
    cat2: Option<string>, l2: Option<string>, c2: Option<string>)
    requires BarFree(cat1) && BarFree(l1) && BarFree(cat2) && BarFree(l2)
    ensures Sources(cat1, l1, c1) == Sources(cat2, l2, c2) <==>
            OrEmpty(cat1) == OrEmpty(cat2) && OrEmpty(l1) == OrEmpty(l2) && OrEmpty(c1) == OrEmpty(c2)
  {
    if Sources(cat1, l1, c1) == Sources(cat2, l2, c2) {
      var xs := ["cat=" + OrEmpty(cat1), "lang=" + OrEmpty(l1), "c=" + OrEmpty(c1)];
      var ys := ["cat=" + OrEmpty(cat2), "lang=" + OrEmpty(l2), "c=" + OrEmpty(c2)];
      PrefixCancel(SourcesPrefix, Join(Bar, xs), Join(Bar, ys));
      JoinBarInjective(xs, ys);
      PrefixCancel("cat=", OrEmpty(cat1), OrEmpty(cat2));
      PrefixCancel("lang=", OrEmpty(l1), OrEmpty(l2));
      PrefixCancel("c=", OrEmpty(c1), OrEmpty(c2));
    }
  }

  /** Letter case: top-headline keys ignore it in every text field, and a null
      field keys like an empty one. */
  lemma TopHeadlinesIgnoreCase(c: Option<string>, cat: Option<string>, s: Option<string>, q: Option<string>,
                               page: int, pageSize: int)
    ensures c.Some? ==> TopHeadlines(Some(Lower(c.value)), cat, s, q, page, pageSize)
                        == TopHeadlines(c, cat, s, q, page, pageSize)
    ensures cat.Some? ==> TopHeadlines(c, Some(Lower(cat.value)), s, q, page, pageSize)
                          == TopHeadlines(c, cat, s, q, page, pageSize)
    ensures s.Some? ==> TopHeadlines(c, cat, Some(Lower(s.value)), q, page, pageSize)
                        == TopHeadlines(c, cat, s, q, page, pageSize)
    ensures q.Some? ==> TopHeadlines(c, cat, s, Some(Lower(q.value)), page, pageSize)
                        == TopHeadlines(c, cat, s, q, page, pageSize)
    ensures TopHeadlines(None, None, None, None, page, pageSize)
            == TopHeadlines(Some(""), Some(""), Some(""), Some(""), page, pageSize)
  {
    if c.Some? { LowerIdempotent(c.value); }
    if cat.Some? { LowerIdempotent(cat.value); }
    if s.Some? { LowerIdempotent(s.value); }
    if q.Some? { LowerIdempotent(q.value); }
    assert Lower("") == "";
  }

  /** Letter case: search dates keep it. */
  lemma SearchDatesKeepCase()
    ensures Everything("a", None, None, None, Some("T"), None, 1, 1)
            != Everything("a", None, None, None, Some("t"), None, 1, 1)
  {
    EverythingKeyIdentifiesQuery("a", None, None, None, Some("T"), None, 1, 1,
                                 "a", None, None, None, Some("t"), None, 1, 1);
  }

  /** Letter case: every sources filter keeps it. */
  lemma SourcesFiltersKeepCase()
    ensures Sources(Some("Business"), None, None) != Sources(Some("business"), None, None)
  {
    SourcesKeyIdentifiesQuery(Some("Business"), None, None, Some("business"), None, None);
  }

  /** The three families never share a key: their prefixes differ at the ninth character. */
  lemma FamiliesDisjoint(
    c: Option<string>, cat: Option<string>, s: Option<string>, q: Option<string>, p: int, ps: int,
    query: string, src: Option<string>, lang: Option<string>, sort: Option<string>,
    from: Option<string>, to: Option<string>, p2: int, ps2: int,
    scat: Option<string>, slang: Option<string>, sc: Option<string>)
    ensures TopHeadlines(c, cat, s, q, p, ps)[..|TopPrefix|] == TopPrefix
    ensures Everything(query, src, lang, sort, from, to, p2, ps2)[..|AllPrefix|] == AllPrefix
    ensures Sources(scat, slang, sc)[..|SourcesPrefix|] == SourcesPrefix
    ensures TopHeadlines(c, cat, s, q, p, ps) != Everything(query, src, lang, sort, from, to, p2, ps2)
    ensures TopHeadlines(c, cat, s, q, p, ps) != Sources(scat, slang, sc)
    ensures Everything(query, src, lang, sort, from, to, p2, ps2) != Sources(scat, slang, sc)
  {
    var k1 := TopHeadlines(c, cat, s, q, p, ps);
    var k2 := Everything(query, src, lang, sort, from, to, p2, ps2);
    var k3 := Sources(scat, slang, sc);
    assert k1[8] == 't' && k2[8] == 'a' && k3[8] == 's';
  }
}
