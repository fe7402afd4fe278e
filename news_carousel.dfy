/**
 * The medical news carousel of the dashboard
 * (frontend/src/components/dashboard/NewsCarousel.jsx): it loads articles once, keeps
 * at most ten that have a title and a description, files each under a category by
 * keywords, and steps through them in a circle.
 *
 * The news service, the clock and the random choice of icon are left out: the fetch
 * outcome and the number of seconds since publication are parameters.
 */
module NewsCarousel {
  import opened Wrappers
  import opened TextUtil

  // ---------------------------------------------------------------- categories

  datatype Category = Category(name: string, color: string)

  /** A keyword group and the category it files an article under. */
  datatype Group = Group(keywords: seq<string>, category: Category)

  /** The groups in the order they are tried (NewsCarousel.jsx:108-152). */
  const Groups := [
    Group(["covid", "virus", "pandemic"], Category("Infectious Disease", "bg-red-100 text-red-600")),
    Group(["research", "study", "discovery"], Category("Medical Research", "bg-purple-100 text-purple-600")),
    Group(["hospital", "clinic", "healthcare facility"], Category("Healthcare Facility", "bg-blue-100 text-blue-600")),
    Group(["vaccine", "immunization", "vaccination"], Category("Vaccination", "bg-green-100 text-green-600")),
    Group(["policy", "regulation", "ministry"], Category("Health Policy", "bg-amber-100 text-amber-600")),
    Group(["drug", "medicine", "pharmaceutical"], Category("Pharmaceuticals", "bg-indigo-100 text-indigo-600"))
  ]

  /** The category of an article no group matches (NewsCarousel.jsx:153-155). */
  const Fallback := Category("Healthcare", "bg-teal-100 text-teal-600")

  /** The text the keywords are looked for in. */
  function Content(title: string, description: string): string
  {
    Lower(title) + " " + Lower(description)
  }

  predicate MatchesGroup(content: string, g: Group)
  {
    exists k :: 0 <= k < |g.keywords| && Contains(content, g.keywords[k])
  }

  /** The position of the first group whose keywords occur in `content`, if any. */
  function FirstMatch(content: string, groups: seq<Group>): (r: Option<nat>)
    ensures r.Some? ==>
      (r.value < |groups| && MatchesGroup(content, groups[r.value])
       && forall j :: 0 <= j < r.value ==> !MatchesGroup(content, groups[j]))
    ensures r.None? ==> forall j :: 0 <= j < |groups| ==> !MatchesGroup(content, groups[j])
  {
    if groups == [] then None
    else if MatchesGroup(content, groups[0]) then Some(0)
    else match FirstMatch(content, groups[1..])
      case None => None
      case Some(i) => Some(i + 1)
  }

  /** getCategoryFromArticle (NewsCarousel.jsx:103-156). */
  function CategoryOf(title: string, description: string): Category
  {
    match FirstMatch(Content(title, description), Groups)
    case Some(i) => Groups[i].category
    case None => Fallback
  }

  /** The first group, in the fixed order, whose keywords occur wins; later groups that
      also match do not count. */
  lemma FirstGroupWins(title: string, description: string, i: nat)
    requires i < |Groups| && MatchesGroup(Content(title, description), Groups[i])
    requires forall j :: 0 <= j < i ==> !MatchesGroup(Content(title, description), Groups[j])
    ensures CategoryOf(title, description) == Groups[i].category
  {
  }

  /** An article gets group `i`'s category only if that group matches and none before
      it does; no keyword at all gives the fallback. */
  lemma CategoryDecided(title: string, description: string)
    ensures var content := Content(title, description);
      && (forall i :: 0 <= i < |Groups| && CategoryOf(title, description) == Groups[i].category ==>
            MatchesGroup(content, Groups[i]) && forall j :: 0 <= j < i ==> !MatchesGroup(content, Groups[j]))
      && ((forall j :: 0 <= j < |Groups| ==> !MatchesGroup(content, Groups[j])) ==> CategoryOf(title, description) == Fallback)
  {
    var content := Content(title, description);
    forall i | 0 <= i < |Groups| && CategoryOf(title, description) == Groups[i].category
      ensures MatchesGroup(content, Groups[i]) && forall j :: 0 <= j < i ==> !MatchesGroup(content, Groups[j])
    {
      DistinctCategories();
      var r := FirstMatch(content, Groups);
      assert r.Some? && Groups[r.value].category == Groups[i].category;
    }
  }

  /** The seven categories are pairwise different. */
  lemma DistinctCategories()
    ensures forall i, j :: 0 <= i < j < |Groups| ==> Groups[i].category.name != Groups[j].category.name
    ensures forall i :: 0 <= i < |Groups| ==> Groups[i].category.name != Fallback.name
  {
  }

  lemma LowerIdempotent(s: string)
    ensures Lower(Lower(s)) == Lower(s)
  {
  }

  /** Matching ignores case: lower-casing title or description first changes nothing. */
  lemma CategoryIgnoresCase(title: string, description: string)
    ensures CategoryOf(Lower(title), Lower(description)) == CategoryOf(title, description)
  {
    LowerIdempotent(title);
    LowerIdempotent(description);
  }

  // ---------------------------------------------------------------- loading

  /** The fields of an article the carousel relies on ("" when missing). */
  datatype Article = Article(title: string, description: string, publishedAt: string, url: string)

  datatype NewsItem = NewsItem(article: Article, category: Category)

  predicate HasText(a: Article) { a.title != "" && a.description != "" }

  const MaxItems := 10

  /** The filter, map and slice of fetchNews (NewsCarousel.jsx:78-85). */
  function ProcessArticles(articles: seq<Article>): (r: seq<NewsItem>)
    ensures |r| <= MaxItems
  {
    var kept := Filter(HasText, articles);
    var shown := if |kept| <= MaxItems then kept else kept[..MaxItems];
    seq(|shown|, k requires 0 <= k < |shown| => NewsItem(shown[k], CategoryOf(shown[k].title, shown[k].description)))
  }

  function Articles(items: seq<NewsItem>): seq<Article>
  {
    seq(|items|, k requires 0 <= k < |items| => items[k].article)
  }

  /** The processed list holds the first (at most ten) articles with a title and a
      description, in their order, each filed under its category. */
  lemma ProcessedList(articles: seq<Article>)
    ensures var r := ProcessArticles(articles);
      && |r| == Min(MaxItems, |Filter(HasText, articles)|)
      && IsPrefix(Articles(r), Filter(HasText, articles))
      && forall k :: 0 <= k < |r| ==>
           (HasText(r[k].article) && r[k].category == CategoryOf(r[k].article.title, r[k].article.description))
  {
  }

  function Min(a: int, b: int): int { if a <= b then a else b }

  /** What the request gives: a thrown error or a failed status, or the articles of the
      response (empty when the field is missing). */
  datatype FetchOutcome = FetchThrown | NotOk | Fetched(articles: seq<Article>)

  const LoadError := "Failed to load news. Please try again later."

  // ---------------------------------------------------------------- navigation

  /** goToNextNews (NewsCarousel.jsx:159-163). */
  function NextIndex(i: int, n: int): int
  {
    if i == n - 1 then 0 else i + 1
  }

  /** goToPrevNews (NewsCarousel.jsx:165-169). */
  function PrevIndex(i: int, n: int): int
  {
    if i == 0 then n - 1 else i - 1
  }

  /** On a non-empty list both steps stay in range, wrap around at the ends and undo each
      other. */
  lemma NavigationInRange(i: int, n: int)
    requires 0 <= i < n
    ensures 0 <= NextIndex(i, n) < n && 0 <= PrevIndex(i, n) < n
    ensures NextIndex(i, n) == (i + 1) % n && PrevIndex(i, n) == (i - 1) % n
    ensures PrevIndex(NextIndex(i, n), n) == i && NextIndex(PrevIndex(i, n), n) == i
  {
  }

  function NextTimes(i: int, n: int, k: nat): int
  {
    if k == 0 then i else NextIndex(NextTimes(i, n, k - 1), n)
  }

  /** Short of the end, `k` steps forward move `k` places. */
  lemma {:induction false} NextTimesNoWrap(i: int, n: int, k: nat)
    requires 0 <= i && i + k < n
    ensures NextTimes(i, n, k) == i + k
  {
    if k > 0 {
      NextTimesNoWrap(i, n, k - 1);
    }
  }

  lemma {:induction false} NextTimesAdd(i: int, n: int, a: nat, b: nat)
    ensures NextTimes(i, n, a + b) == NextTimes(NextTimes(i, n, a), n, b)
  {
    if b > 0 {
      NextTimesAdd(i, n, a, b - 1);
    }
  }

  /** `n` steps forward come back to where they started. */
  lemma FullCircle(i: int, n: int)
    requires 0 <= i < n
    ensures NextTimes(i, n, n) == i
  {
    NextTimesNoWrap(i, n, n - 1 - i);
    NextTimesAdd(i, n, n - 1 - i, 1);
    assert NextTimes(i, n, n - i) == 0;
    NextTimesAdd(i, n, n - i, i);
    NextTimesNoWrap(0, n, i);
  }

  // ---------------------------------------------------------------- time

  /** How long ago, as a count and a unit (NewsCarousel.jsx:213-223). */
  function Elapsed(seconds: int): (r: (int, string))
    ensures seconds < 60 ==> r == (seconds, "seconds")
    ensures seconds >= 60 ==> var unit := if seconds < 3600 then 60 else if seconds < 86400 then 3600 else 86400;
      r.0 >= 1 && r.0 * unit <= seconds < (r.0 + 1) * unit
    ensures 60 <= seconds < 3600 ==> r.1 == "minutes" && r.0 < 60
    ensures 3600 <= seconds < 86400 ==> r.1 == "hours" && r.0 < 24
    ensures seconds >= 86400 ==> r.1 == "days"
  {
    if seconds < 60 then (seconds, "seconds")
    else if seconds < 3600 then (seconds / 60, "minutes")
    else if seconds < 86400 then (seconds / 3600, "hours")
    else (seconds / 86400, "days")
  }

  /** getTimeAgo on the whole seconds since publication. */
  function TimeAgo(seconds: int): string
  {
    var (count, unit) := Elapsed(seconds);
    IntToString(count) + " " + unit + " ago"
  }

  /** From a minute on the count is a plain positive number, which reads back as itself. */
  lemma TimeAgoReadsBack(seconds: int)
    requires seconds >= 60
    ensures var count := Elapsed(seconds).0;
      count >= 1 && IntToString(count) == NatToString(count) && DecimalValue(NatToString(count)) == count
  {
    NatToStringRoundTrip(Elapsed(seconds).0);
  }

  // ---------------------------------------------------------------- the component

  class Carousel {
    var newsItems: seq<NewsItem>
    var loading: bool
    var error: Option<string>
    var currentNewsIndex: int
    var isAutoPlay: bool

    /** The index points into a non-empty list, and is 0 on an empty one. */
    ghost predicate Valid()
      reads this
    {
      if newsItems == [] then currentNewsIndex == 0 else 0 <= currentNewsIndex < |newsItems|
    }

    constructor ()
      ensures Valid() && newsItems == [] && loading && error.None? && currentNewsIndex == 0 && isAutoPlay
    {
      newsItems := [];
      loading := true;
      error := None;
      currentNewsIndex := 0;
      isAutoPlay := true;
    }

    /** fetchNews (NewsCarousel.jsx:56-100), run once on mount, while the index is 0. */
    method FetchNews(outcome: FetchOutcome)
      requires Valid() && currentNewsIndex == 0
      modifies this
      ensures Valid() && !loading && currentNewsIndex == 0 && isAutoPlay == old(isAutoPlay)
      ensures outcome.Fetched? && outcome.articles != [] ==>
        newsItems == ProcessArticles(outcome.articles) && error == old(error)
      ensures !(outcome.Fetched? && outcome.articles != []) ==>
        newsItems == old(newsItems) && error == Some(LoadError)
    {
      loading := true;
      if outcome.Fetched? && outcome.articles != [] {
        newsItems := ProcessArticles(outcome.articles);
      } else {
        error := Some(LoadError);
      }
      loading := false;
    }

    /** Navigation is reachable only with a non-empty list: the auto-play interval is
        started only then, and the buttons are rendered only then. */
    method GoToNextNews()
      requires Valid() && newsItems != []
      modifies this
      ensures Valid() && currentNewsIndex == NextIndex(old(currentNewsIndex), |newsItems|)
      ensures newsItems == old(newsItems) && isAutoPlay == old(isAutoPlay)
      ensures loading == old(loading) && error == old(error)
    {
      currentNewsIndex := if currentNewsIndex == |newsItems| - 1 then 0 else currentNewsIndex + 1;
    }

    method GoToPrevNews()
      requires Valid() && newsItems != []
      modifies this
      ensures Valid() && currentNewsIndex == PrevIndex(old(currentNewsIndex), |newsItems|)
      ensures newsItems == old(newsItems) && isAutoPlay == old(isAutoPlay)
      ensures loading == old(loading) && error == old(error)
    {
      currentNewsIndex := if currentNewsIndex == 0 then |newsItems| - 1 else currentNewsIndex - 1;
    }

    /** A dot under the carousel selects its article. One dot is rendered per item, so
        the index is one of the list's. */
    method GoTo(index: int)
      requires Valid() && 0 <= index < |newsItems|
      modifies this
      ensures Valid() && currentNewsIndex == index && newsItems == old(newsItems)
      ensures isAutoPlay == old(isAutoPlay) && loading == old(loading) && error == old(error)
    {
      currentNewsIndex := index;
    }

    /** Hovering pauses auto-play and leaving resumes it. */
    method SetAutoPlay(on: bool)
      modifies this
      ensures isAutoPlay == on && newsItems == old(newsItems) && currentNewsIndex == old(currentNewsIndex)
      ensures loading == old(loading) && error == old(error)
    {
      isAutoPlay := on;
    }
  }
}
