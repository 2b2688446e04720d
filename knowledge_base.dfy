/**
 * The knowledge-base page: the article search and category filter, the
 * "popular articles" list (the article array sorted in place by views, then
 * its first five), and the statistics card (total, public, internal, views).
 */
module KnowledgeBase {
  import opened Wrappers
  import opened Seqs
  import opened Text

  datatype Article = Article(
    id: int,
    title: string,
    category: string,
    description: string,
    tags: seq<string>,
    views: int,
    helpful: int,
    notHelpful: int,
    isPublic: bool,
    lastUpdated: string)

  datatype Category = Category(id: string, name: string, count: int)

  /** The page's category list. */
  const Categories: seq<Category> := [
    Category("all", "Todas", 45),
    Category("technical", "Técnico", 18),
    Category("billing", "Faturamento", 12),
    Category("account", "Conta", 8),
    Category("features", "Funcionalidades", 7)
  ]

  /** `categories.find(c => c.id === id)`: the first category with that id. */
  function FindCategory(cats: seq<Category>, id: string): (r: Option<Category>)
    ensures r.None? <==> forall i :: 0 <= i < |cats| ==> cats[i].id != id
    ensures r.Some? ==> exists k :: 0 <= k < |cats| && cats[k] == r.value && r.value.id == id
                                    && forall i :: 0 <= i < k ==> cats[i].id != id
    decreases |cats|
  {
    if |cats| == 0 then None
    else if cats[0].id == id then Some(cats[0])
    else
      var r := FindCategory(cats[1..], id);
      assert forall i :: 1 <= i < |cats| ==> cats[i] == cats[1..][i - 1];
      r
  }

  /** Some tag contains the (already lower-cased) term, ignoring case. */
  predicate SomeTagIncludes(tags: seq<string>, term: string)
  {
    exists i :: 0 <= i < |tags| && Includes(Lower(tags[i]), term)
  }

  /** The search half of the filter: title, description or some tag. */
  predicate MatchesSearch(a: Article, searchTerm: string)
  {
    var term := Lower(searchTerm);
    Includes(Lower(a.title), term) || Includes(Lower(a.description), term) || SomeTagIncludes(a.tags, term)
  }

  /**
   * The category half: "all", or the article's category equals the selected
   * category's name ignoring case. An unknown id compares a string with
   * `undefined`, which never holds.
   */
  predicate MatchesCategory(a: Article, cats: seq<Category>, selectedCategory: string)
  {
    selectedCategory == "all" ||
    match FindCategory(cats, selectedCategory)
    case None => false
    case Some(c) => Lower(a.category) == Lower(c.name)
  }

  /** `filteredArticles`. */
  function FilteredArticles(arts: seq<Article>, cats: seq<Category>, searchTerm: string, selectedCategory: string)
    : (r: seq<Article>)
    ensures IsSubsequence(r, arts)
    ensures forall a :: a in r <==> a in arts && MatchesSearch(a, searchTerm) && MatchesCategory(a, cats, selectedCategory)
    ensures forall a :: multiset(r)[a] ==
              if MatchesSearch(a, searchTerm) && MatchesCategory(a, cats, selectedCategory) then multiset(arts)[a] else 0
  {
    var p := (a: Article) => MatchesSearch(a, searchTerm) && MatchesCategory(a, cats, selectedCategory);
    FilterIsSubsequence(arts, p);
    FilterMultiset(arts, p);
    Filter(arts, p)
  }

  /** The empty search term matches every article. */
  lemma EmptySearchMatchesAll(a: Article)
    ensures MatchesSearch(a, "")
  {
    IncludesEmpty(Lower(a.title));
  }

  /** With an empty search and category "all" the filter keeps the whole list. */
  lemma UnfilteredListsAll(arts: seq<Article>, cats: seq<Category>)
    ensures FilteredArticles(arts, cats, "", "all") == arts
  {
    var p := (a: Article) => MatchesSearch(a, "") && MatchesCategory(a, cats, "all");
    forall i | 0 <= i < |arts| ensures p(arts[i]) {
      EmptySearchMatchesAll(arts[i]);
    }
    FilterKeepsAll(arts, p);
  }

  /** A selected category id that is not in the list yields no articles. */
  lemma UnknownCategoryListsNone(arts: seq<Article>, cats: seq<Category>, searchTerm: string, selectedCategory: string)
    requires selectedCategory != "all"
    requires forall i :: 0 <= i < |cats| ==> cats[i].id != selectedCategory
    ensures FilteredArticles(arts, cats, searchTerm, selectedCategory) == []
  {
  }

  /** Choosing the "technical" category lists exactly the matching articles filed under "Técnico". */
  lemma TechnicalCategoryExample(arts: seq<Article>, a: Article)
    ensures MatchesCategory(a, Categories, "technical") <==> Lower(a.category) == Lower("Técnico")
    ensures a in FilteredArticles(arts, Categories, "", "technical") <==>
      a in arts && Lower(a.category) == Lower("Técnico")
  {
    EmptySearchMatchesAll(a);
    assert Categories[0].id != "technical";
    assert FindCategory(Categories, "technical") == Some(Categories[1]);
  }

  /** Views never increase along the sequence. */
  predicate ByViews(s: seq<Article>)
  {
    forall k, l :: 0 <= k < l < |s| ==> s[k].views >= s[l].views
  }

  /** Swaps the article at `j` with the one before it. */
  method SwapWithPrevious(a: array<Article>, j: int)
    requires 0 < j < a.Length
    modifies a
    ensures a[..] == old(a[..])[j - 1 := old(a[j])][j := old(a[j - 1])]
    ensures multiset(a[..]) == multiset(old(a[..]))
  {
    a[j - 1], a[j] := a[j], a[j - 1];
  }

  /**
   * One insertion step: the article at `i` moves left past every article with
   * fewer views, so the first `i + 1` articles are ordered by views.
   */
  method InsertByViews(a: array<Article>, i: int)
    requires 0 <= i < a.Length
    requires ByViews(a[..i])
    modifies a
    ensures ByViews(a[..i + 1])
    ensures multiset(a[..]) == multiset(old(a[..]))
  {
    var j := i;
    while j > 0 && a[j - 1].views < a[j].views
      invariant 0 <= j <= i
      invariant forall k, l :: 0 <= k < l <= i && k != j && l != j ==> a[k].views >= a[l].views
      invariant forall l :: j < l <= i ==> a[j].views > a[l].views
      invariant multiset(a[..]) == multiset(old(a[..]))
    {
      SwapWithPrevious(a, j);
      j := j - 1;
    }
  }

  /**
   * `articles.sort((a, b) => b.views - a.views)`: sorts the array in place by
   * views, largest first.
   */
  method SortByViews(a: array<Article>)
    modifies a
    ensures ByViews(a[..])
    ensures multiset(a[..]) == multiset(old(a[..]))
  {
    var i := 0;
    while i < a.Length
      invariant 0 <= i <= a.Length
      invariant ByViews(a[..i])
      invariant multiset(a[..]) == multiset(old(a[..]))
    {
      InsertByViews(a, i);
      i := i + 1;
    }
    assert a[..] == a[..a.Length];
  }

  /**
   * `popularArticles`: sorts the article array in place, then takes its first
   * five entries (fewer when there are fewer articles).
   */
  method PopularArticles(a: array<Article>) returns (top: seq<Article>)
    modifies a
    ensures multiset(a[..]) == multiset(old(a[..]))
    ensures ByViews(a[..])
    ensures |top| == if a.Length < 5 then a.Length else 5
    ensures top == a[..|top|]
    ensures ByViews(top)
    ensures forall k, l :: 0 <= k < |top| <= l < a.Length ==> top[k].views >= a[l].views
  {
    SortByViews(a);
    top := if a.Length < 5 then a[..] else a[..5];
  }

  /** The number of public articles. */
  function PublicCount(arts: seq<Article>): (n: nat)
    ensures n <= |arts|
    ensures n == 0 <==> forall i :: 0 <= i < |arts| ==> !arts[i].isPublic
    ensures n == |arts| <==> forall i :: 0 <= i < |arts| ==> arts[i].isPublic
  {
    FilterEmptyLength(arts, (a: Article) => a.isPublic);
    FilterFullLength(arts, (a: Article) => a.isPublic);
    |Filter(arts, (a: Article) => a.isPublic)|
  }

  /** The number of internal (non-public) articles. */
  function InternalCount(arts: seq<Article>): (n: nat)
    ensures n <= |arts|
    ensures n == 0 <==> forall i :: 0 <= i < |arts| ==> arts[i].isPublic
    ensures n == |arts| <==> forall i :: 0 <= i < |arts| ==> !arts[i].isPublic
  {
    FilterEmptyLength(arts, (a: Article) => !a.isPublic);
    FilterFullLength(arts, (a: Article) => !a.isPublic);
    |Filter(arts, (a: Article) => !a.isPublic)|
  }

  /** Every article is either public or internal. */
  lemma PublicPlusInternal(arts: seq<Article>)
    ensures PublicCount(arts) + InternalCount(arts) == |arts|
  {
    FilterComplementLength(arts, (a: Article) => a.isPublic, (a: Article) => !a.isPublic);
  }

  /** The sum of the per-article views. */
  function TotalViews(arts: seq<Article>): int
    decreases |arts|
  {
    if |arts| == 0 then 0 else arts[0].views + TotalViews(arts[1..])
  }

  /**
   * `arts.reduce((sum, a) => sum + a.views, acc)`: a left fold from `acc`, which
   * adds the sum of the per-article views to its seed.
   */
  function ReduceViews(arts: seq<Article>, acc: int): (total: int)
    ensures total == acc + TotalViews(arts)
    decreases |arts|
  {
    if |arts| == 0 then acc else ReduceViews(arts[1..], acc + arts[0].views)
  }

  /** The sum of views splits around any one article. */
  lemma {:induction false} SumViewsAround(t: seq<Article>, k: int)
    requires 0 <= k < |t|
    ensures TotalViews(t) == t[k].views + TotalViews(t[..k] + t[k + 1..])
    decreases k
  {
    if k == 0 {
      assert t[..0] + t[1..] == t[1..];
    } else {
      var tail := t[1..];
      SumViewsAround(tail, k - 1);
      var rest := t[..k] + t[k + 1..];
      assert rest[0] == t[0];
      assert rest[1..] == tail[..k - 1] + tail[k..];
    }
  }

  /** Removing the same article from two permutations of each other leaves permutations. */
  lemma RemoveFromPermutation(s: seq<Article>, t: seq<Article>, k: int)
    requires multiset(s) == multiset(t)
    requires |s| > 0 && 0 <= k < |t| && t[k] == s[0]
    ensures multiset(s[1..]) == multiset(t[..k] + t[k + 1..])
  {
    var x := s[0];
    assert t == t[..k] + [x] + t[k + 1..];
    assert s == [x] + s[1..];
    assert multiset(t) == multiset(t[..k]) + multiset{x} + multiset(t[k + 1..]);
    assert multiset(s) == multiset{x} + multiset(s[1..]);
    assert multiset(t[..k] + t[k + 1..]) == multiset(t[..k]) + multiset(t[k + 1..]);
    assert multiset(s[1..]) == multiset(s) - multiset{x};
  }

  /** The sum of views does not depend on the order of the articles. */
  lemma {:induction false} SumViewsPermutation(s: seq<Article>, t: seq<Article>)
    requires multiset(s) == multiset(t)
    ensures TotalViews(s) == TotalViews(t)
    decreases |s|
  {
    if |s| == 0 {
      assert |t| == |multiset(t)| == 0;
    } else {
      assert s[0] in multiset(t);
      var k :| 0 <= k < |t| && t[k] == s[0];
      RemoveFromPermutation(s, t, k);
      SumViewsPermutation(s[1..], t[..k] + t[k + 1..]);
      SumViewsAround(t, k);
    }
  }

  /** A filter's length depends only on the multiset it is applied to. */
  lemma FilterCountPermutation(s: seq<Article>, t: seq<Article>, p: Article -> bool)
    requires multiset(s) == multiset(t)
    ensures |Filter(s, p)| == |Filter(t, p)|
  {
    FilterMultiset(s, p);
    FilterMultiset(t, p);
    assert multiset(Filter(s, p)) == multiset(Filter(t, p));
    assert |Filter(s, p)| == |multiset(Filter(s, p))| == |multiset(Filter(t, p))| == |Filter(t, p)|;
  }

  /**
   * Sorting the articles in place leaves the statistics card unchanged: the
   * article count, the public and internal counts and the total views.
   */
  lemma SortKeepsStatistics(before: seq<Article>, after: seq<Article>)
    requires multiset(before) == multiset(after)
    ensures |after| == |before|
    ensures PublicCount(after) == PublicCount(before)
    ensures InternalCount(after) == InternalCount(before)
    ensures ReduceViews(after, 0) == ReduceViews(before, 0)
  {
    assert |after| == |multiset(after)| == |multiset(before)| == |before|;
    FilterCountPermutation(before, after, (a: Article) => a.isPublic);
    FilterCountPermutation(before, after, (a: Article) => !a.isPublic);
    SumViewsPermutation(before, after);
  }
}
