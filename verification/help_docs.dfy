/** The in-app help browser: a fixed list of articles, a search box that
    filters them by title and excerpt, and a back button that leaves an open
    article before it leaves the browser. */
module HelpDocs {
  import opened Wrappers
  import Text
  import Seqs

  /** An article; its body is view content and is not modelled. */
  datatype Article = Article(slug: string, title: string, excerpt: string)

  const Articles: seq<Article> := [
    Article("setup-discount", "How to set up your first discount",
            "A step-by-step guide to creating and managing discounts in your store."),
    Article("sales-predictions", "Understanding the AI Sales Predictions",
            "Learn how our AI analyzes data to forecast your sales."),
    Article("aov-optimization", "Optimizing your Average Order Value (AOV)",
            "Strategies and tools to help you increase your AOV."),
    Article("billing-plans", "How billing and plans work",
            "An overview of our subscription plans and billing cycles.")
  ]

  /** The search test: the lower-cased term occurs in the lower-cased title or
      the lower-cased excerpt. */
  predicate Matches(term: string, a: Article) {
    Text.Includes(Text.Lower(a.title), Text.Lower(term))
    || Text.Includes(Text.Lower(a.excerpt), Text.Lower(term))
  }

  /** `filteredArticles`: the articles of `library` the current term matches;
      the component searches `Articles`. */
  function FilteredArticles(library: seq<Article>, term: string): (r: seq<Article>)
    ensures |r| <= |library|
    ensures forall i :: 0 <= i < |r| ==> r[i] in library && Matches(term, r[i])
    ensures forall i :: 0 <= i < |library| && Matches(term, library[i]) ==> library[i] in r
  {
    Seqs.Filter(a => Matches(term, a), library)
  }

  /** An article is listed exactly when the term matches it. */
  lemma ListedIff(library: seq<Article>, term: string, a: Article)
    requires a in library
    ensures a in FilteredArticles(library, term) <==> Matches(term, a)
  {
    var r := FilteredArticles(library, term);
    if a in r {
      var i :| 0 <= i < |r| && r[i] == a;
    }
  }

  /** The empty term lists every article, in order. */
  lemma EmptyTermListsAll(library: seq<Article>)
    ensures FilteredArticles(library, "") == library
  {
    forall i | 0 <= i < |library|
      ensures Matches("", library[i])
    {
      Text.IncludesEmpty(Text.Lower(library[i].title));
    }
    Seqs.FilterKeepsAll(a => Matches("", a), library);
  }

  /** The list keeps the articles' order: it is a sub-sequence of them. */
  lemma ListIsOrderedSublist(library: seq<Article>, term: string)
    ensures Seqs.IsSubsequence(FilteredArticles(library, term), library)
  {
    Seqs.FilterIsSubsequence(a => Matches(term, a), library);
  }

  /** Searching ignores case: a term and its lower-case form list the same
      articles. */
  lemma SearchIgnoresCase(library: seq<Article>, term: string)
    ensures FilteredArticles(library, Text.Lower(term)) == FilteredArticles(library, term)
  {
    Text.LowerIdempotent(term);
    Seqs.FilterAgrees(a => Matches(Text.Lower(term), a), a => Matches(term, a), library);
  }

  /** A longer term never lists more: an article matching `pre + post` also
      matches its prefix `pre`. */
  lemma NarrowingTermNarrowsList(library: seq<Article>, pre: string, post: string)
    ensures Seqs.IsSubsequence(FilteredArticles(library, pre + post), FilteredArticles(library, pre))
  {
    forall i | 0 <= i < |library| && Matches(pre + post, library[i])
      ensures Matches(pre, library[i])
    {
      var a := library[i];
      assert Text.Lower(pre + post)[..|pre|] == Text.Lower(pre);
      if Text.Includes(Text.Lower(a.title), Text.Lower(pre + post)) {
        PrefixIncluded(Text.Lower(a.title), Text.Lower(pre), Text.Lower(pre + post));
      } else {
        PrefixIncluded(Text.Lower(a.excerpt), Text.Lower(pre), Text.Lower(pre + post));
      }
    }
    Seqs.FilterMonotone(a => Matches(pre + post, a), a => Matches(pre, a), library);
  }

  /** If a string includes `t`, it includes every prefix `p` of `t`. */
  lemma PrefixIncluded(s: string, p: string, t: string)
    requires Text.Includes(s, t)
    requires |p| <= |t| && t[..|p|] == p
    ensures Text.Includes(s, p)
  {
    var k := Text.IncludesWitness(s, t);
    assert s[k..k + |p|] == t[..|p|];
    Text.OccursImpliesIncludes(s, p, k);
  }

  /** The browser's state: the search term and the open article, if any. */
  datatype HelpView = HelpView(searchTerm: string, selected: Option<Article>)

  const Initial := HelpView("", None)

  /** Clicking an article in the list opens it. */
  function Select(v: HelpView, a: Article): (w: HelpView)
    ensures w.selected == Some(a) && w.searchTerm == v.searchTerm
  {
    v.(selected := Some(a))
  }

  /** Typing in the search box. */
  function Search(v: HelpView, term: string): (w: HelpView)
    ensures w.searchTerm == term && w.selected == v.selected
  {
    v.(searchTerm := term)
  }

  /** What the back button does: stay in the browser with a new state, or call
      the parent's `onBack`. */
  datatype BackEffect = Stay(view: HelpView) | CallOnBack

  /** `handleBack`: closes an open article, otherwise leaves the browser. */
  function HandleBack(v: HelpView): (e: BackEffect)
    ensures e.Stay? <==> v.selected.Some?
    ensures e.Stay? ==> e.view.selected.None? && e.view.searchTerm == v.searchTerm
  {
    if v.selected.Some? then Stay(v.(selected := None)) else CallOnBack
  }

  /** Opening an article and going back returns to the same list, search term
      included. */
  lemma SelectThenBack(v: HelpView, a: Article)
    requires v.selected.None?
    ensures HandleBack(Select(v, a)) == Stay(v)
  {
  }

  /** Back twice from an open article leaves the browser. */
  lemma BackTwiceLeaves(v: HelpView)
    requires v.selected.Some?
    ensures HandleBack(v).Stay? && HandleBack(HandleBack(v).view) == CallOnBack
  {
  }

  /** What the browser shows. */
  datatype Screen =
    | ArticleScreen(title: string)
    | ListScreen(items: seq<Article>, notice: Option<string>)

  function NoArticlesNotice(term: string): string {
    "No articles found for \"" + term + "\""
  }

  /** The open article, or the filtered list with the "No articles found"
      notice under it exactly when the list is empty. */
  function Render(library: seq<Article>, v: HelpView): (s: Screen)
    ensures v.selected.Some? ==> s == ArticleScreen(v.selected.value.title)
    ensures v.selected.None? ==> s.ListScreen? && s.items == FilteredArticles(library, v.searchTerm)
    ensures v.selected.None? ==> (s.notice.Some? <==> forall a :: a in library ==> !Matches(v.searchTerm, a))
    ensures s.ListScreen? && s.notice.Some? ==> s.notice.value == NoArticlesNotice(v.searchTerm)
  {
    match v.selected
    case Some(a) => ArticleScreen(a.title)
    case None =>
      var items := FilteredArticles(library, v.searchTerm);
      assert items == [] <==> forall a :: a in library ==> !Matches(v.searchTerm, a) by {
        if items != [] {
          assert items[0] in library;
        }
        forall a | a in library && Matches(v.searchTerm, a) ensures items != [] {
          var i :| 0 <= i < |library| && library[i] == a;
        }
      }
      ListScreen(items, if items == [] then Some(NoArticlesNotice(v.searchTerm)) else None)
  }

  /** The browser opens on the full list of its articles with no notice. */
  lemma InitialShowsAll()
    ensures Render(Articles, Initial) == ListScreen(Articles, None)
  {
    EmptyTermListsAll(Articles);
  }
}
