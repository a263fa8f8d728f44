/**
 * The search results screen (SearchResultsActivity): relevance scoring of
 * every product against the query's keywords, ranking by score, and the
 * price / rating sort the filter dialog applies to the ranked list.
 *
 * Scores are kept in tenths so that they are whole numbers: a whole-word
 * title match is worth 30, a whole-word category match 5, a title substring
 * that is not a word 20 and a category substring that is not a word 3.
 */
module Search {
  import opened Wrappers
  import opened ItemsModel
  import opened SeqUtil
  import opened Text
  import opened FilterModels

  const TitleWord: int := 30
  const CategoryWord: int := 5
  const TitlePart: int := 20
  const CategoryPart: int := 3

  /** The query extra, trimmed; a missing extra is the empty query. */
  function Query(extra: Option<string>): string {
    Trim(extra.GetOr(""))
  }

  /** `query.lowercase().split(" ").filter { it.isNotEmpty() }`. */
  function Keywords(query: string): seq<string> {
    Words(Lower(query))
  }

  /** What one keyword adds to an item with lower-cased title `tl` and category `cl`. */
  function KeywordScore(keyword: string, tl: string, cl: string): (r: int)
    ensures 0 <= r <= TitleWord + CategoryPart
  {
    var titleWords := Words(tl);
    var categoryWords := Words(cl);
    (if keyword in titleWords then TitleWord else if keyword in categoryWords then CategoryWord else 0)
    + (if Contains(tl, keyword) && keyword !in titleWords then TitlePart else 0)
    + (if Contains(cl, keyword) && keyword !in categoryWords then CategoryPart else 0)
  }

  /** The sum of the keywords' scores. */
  function Score(keywords: seq<string>, tl: string, cl: string): (r: int)
    ensures 0 <= r <= (TitleWord + CategoryPart) * |keywords|
  {
    if keywords == [] then 0
    else Score(keywords[..|keywords| - 1], tl, cl) + KeywordScore(keywords[|keywords| - 1], tl, cl)
  }

  function ItemScore(keywords: seq<string>, item: Item): int {
    Score(keywords, Lower(item.title), Lower(item.categoryId))
  }

  /** The scoring loop for one product. */
  method ScoreItem(keywords: seq<string>, item: Item) returns (score: int)
    ensures score == ItemScore(keywords, item)
    ensures 0 <= score <= (TitleWord + CategoryPart) * |keywords|
  {
    var titleLower := Lower(item.title);
    var categoryLower := Lower(item.categoryId);
    var titleWords := Words(titleLower);
    var categoryWords := Words(categoryLower);
    score := 0;
    for i := 0 to |keywords|
      invariant score == Score(keywords[..i], titleLower, categoryLower)
    {
      var keyword := keywords[i];
      if keyword in titleWords {
        score := score + TitleWord;
      } else if keyword in categoryWords {
        score := score + CategoryWord;
      }
      if Contains(titleLower, keyword) && keyword !in titleWords {
        score := score + TitlePart;
      }
      if Contains(categoryLower, keyword) && keyword !in categoryWords {
        score := score + CategoryPart;
      }
      assert keywords[..i + 1][..i] == keywords[..i];
    }
    assert keywords[..|keywords|] == keywords;
  }

  /** A keyword scores exactly when it occurs, as a word or not, in the title or the category. */
  lemma KeywordScorePositive(keyword: string, tl: string, cl: string)
    ensures KeywordScore(keyword, tl, cl) > 0 <==> Contains(tl, keyword) || Contains(cl, keyword)
  {
    if keyword in Words(tl) {
      WordOccurs(tl, keyword);
    } else if keyword in Words(cl) {
      WordOccurs(cl, keyword);
    }
  }

  /**
   * The scoring rules: a title word outranks everything a keyword can earn
   * without one, and a category word counts only when the title has no such word.
   */
  lemma KeywordScoreRules(keyword: string, tl: string, cl: string, tl2: string, cl2: string)
    ensures keyword in Words(tl) && keyword !in Words(tl2) ==>
      KeywordScore(keyword, tl, cl) > KeywordScore(keyword, tl2, cl2)
    ensures keyword in Words(tl) && keyword in Words(cl) ==> KeywordScore(keyword, tl, cl) == TitleWord
    ensures keyword !in Words(tl) && keyword in Words(cl) && !Contains(tl, keyword) ==>
      KeywordScore(keyword, tl, cl) == CategoryWord
    ensures keyword !in Words(tl) && Contains(tl, keyword) && !Contains(cl, keyword) ==>
      KeywordScore(keyword, tl, cl) == TitlePart
  {
    if keyword in Words(cl) {
      WordOccurs(cl, keyword);
    }
  }

  /** Some keyword occurs in the lower-cased title or category of `item`. */
  predicate Matches(keywords: seq<string>, item: Item) {
    exists j :: 0 <= j < |keywords| &&
      (Contains(Lower(item.title), keywords[j]) || Contains(Lower(item.categoryId), keywords[j]))
  }

  /** A product scores above zero exactly when some keyword occurs in its title or category. */
  lemma {:induction false} ScorePositive(keywords: seq<string>, tl: string, cl: string)
    ensures Score(keywords, tl, cl) > 0 <==>
      exists j :: 0 <= j < |keywords| && (Contains(tl, keywords[j]) || Contains(cl, keywords[j]))
  {
    if keywords != [] {
      var n := |keywords| - 1;
      var front := keywords[..n];
      ScorePositive(front, tl, cl);
      KeywordScorePositive(keywords[n], tl, cl);
      if Score(keywords, tl, cl) > 0 {
        if Score(front, tl, cl) > 0 {
          var j :| 0 <= j < |front| && (Contains(tl, front[j]) || Contains(cl, front[j]));
          assert keywords[j] == front[j];
        }
      } else {
        forall j | 0 <= j < |keywords| ensures !(Contains(tl, keywords[j]) || Contains(cl, keywords[j])) {
          if j < n {
            assert keywords[j] == front[j];
          }
        }
      }
    }
  }

  lemma ItemScorePositive(keywords: seq<string>, item: Item)
    ensures ItemScore(keywords, item) > 0 <==> Matches(keywords, item)
  {
    ScorePositive(keywords, Lower(item.title), Lower(item.categoryId));
  }

  /** One child of the `Items` snapshot: its key and the record it decodes to, if any. */
  datatype Child = Child(key: Option<string>, value: Option<Item>)

  /** A product kept by the search, carrying its score. */
  datatype Hit = Hit(item: Item, score: int)

  function HitScore(h: Hit): int {
    h.score
  }

  /** The item of child `c` as kept by the search: the record with the child's key as id. */
  function Kept(c: Child): Item
    requires c.value.Some?
  {
    c.value.value.(id := c.key.GetOr(""))
  }

  /** Child `c` holds a record, `x` is that record as kept, and some keyword matches it. */
  predicate Found(c: Child, keywords: seq<string>, x: Item) {
    c.value.Some? && x == Kept(c) && Matches(keywords, x)
  }

  /** The scored products in snapshot order: those scoring above zero, with the key as id. */
  function Hits(children: seq<Child>, keywords: seq<string>): (r: seq<Hit>)
    ensures |r| <= |children|
    ensures forall i :: 0 <= i < |r| ==> r[i].score > 0 && r[i].score == ItemScore(keywords, r[i].item)
  {
    if children == [] then []
    else
      var rest := Hits(children[..|children| - 1], keywords);
      var c := children[|children| - 1];
      if c.value.Some? && ItemScore(keywords, c.value.value) > 0 then
        rest + [Hit(Kept(c), ItemScore(keywords, c.value.value))]
      else rest
  }

  /** The loop over the snapshot's children. */
  method CollectHits(children: seq<Child>, keywords: seq<string>) returns (hits: seq<Hit>)
    ensures hits == Hits(children, keywords)
  {
    hits := [];
    for i := 0 to |children|
      invariant hits == Hits(children[..i], keywords)
    {
      var c := children[i];
      match c.value {
        case Some(item) =>
          var score := ScoreItem(keywords, item);
          if score > 0 {
            hits := hits + [Hit(item.(id := c.key.GetOr("")), score)];
          }
        case None =>
      }
      assert children[..i + 1][..i] == children[..i];
    }
    assert children[..|children|] == children;
  }

  /** Some hit carries the item `x`. */
  predicate HasItem(hits: seq<Hit>, x: Item) {
    exists m :: 0 <= m < |hits| && hits[m].item == x
  }

  /** Whether the last child adds a hit for `x`. */
  lemma LastChildHit(children: seq<Child>, keywords: seq<string>, x: Item)
    requires children != []
    ensures var n := |children| - 1;
      HasItem(Hits(children, keywords), x) <==>
        HasItem(Hits(children[..n], keywords), x) || Found(children[n], keywords, x)
  {
    var n := |children| - 1;
    var c := children[n];
    var rest := Hits(children[..n], keywords);
    if c.value.Some? {
      ItemScorePositive(keywords, c.value.value);
      assert ItemScore(keywords, Kept(c)) == ItemScore(keywords, c.value.value);
      ItemScorePositive(keywords, Kept(c));
      if ItemScore(keywords, c.value.value) > 0 {
        var hits := Hits(children, keywords);
        assert hits == rest + [Hit(Kept(c), ItemScore(keywords, c.value.value))];
        if HasItem(hits, x) {
          var m :| 0 <= m < |hits| && hits[m].item == x;
          if m < |rest| {
            assert rest[m] == hits[m];
          }
        }
        if HasItem(rest, x) {
          var m :| 0 <= m < |rest| && rest[m].item == x;
          assert hits[m] == rest[m];
        }
        if Found(c, keywords, x) {
          assert hits[|rest|].item == x;
        }
      }
    }
  }

  /** The items the search keeps are those of children with a record that some keyword matches. */
  lemma {:induction false} HitItems(children: seq<Child>, keywords: seq<string>, x: Item)
    ensures HasItem(Hits(children, keywords), x) <==>
      exists i :: 0 <= i < |children| && Found(children[i], keywords, x)
  {
    if children != [] {
      var n := |children| - 1;
      var front := children[..n];
      HitItems(front, keywords, x);
      LastChildHit(children, keywords, x);
      assert forall i :: 0 <= i < |front| ==> front[i] == children[i];
      if Found(children[n], keywords, x) {
        assert 0 <= n < |children|;
      }
    }
  }

  /** For every score, the hits carrying it, in their relative order. */
  lemma RankStable(hits: seq<Hit>)
    ensures forall k :: WithKey(SortByDescending(hits, HitScore), HitScore, k) == WithKey(hits, HitScore, k)
  {
    forall k ensures WithKey(SortByDescending(hits, HitScore), HitScore, k) == WithKey(hits, HitScore, k) {
      SortByDescendingStable(hits, HitScore, k);
    }
  }

  /** `sortedByDescending { it.second }`: highest score first, equal scores in snapshot order. */
  function Rank(hits: seq<Hit>): (r: seq<Hit>)
    ensures multiset(r) == multiset(hits)
    ensures forall i, j :: 0 <= i < j < |r| ==> r[i].score >= r[j].score
    ensures forall k :: WithKey(r, HitScore, k) == WithKey(hits, HitScore, k)
  {
    SortByDescendingSorted(hits, HitScore);
    RankStable(hits);
    SortByDescending(hits, HitScore)
  }

  function ItemsOf(hits: seq<Hit>): (r: seq<Item>)
    ensures |r| == |hits| && forall i :: 0 <= i < |hits| ==> r[i] == hits[i].item
  {
    if hits == [] then [] else [hits[0].item] + ItemsOf(hits[1..])
  }

  /** `searchResults` after a snapshot arrives. */
  function SearchResults(children: seq<Child>, keywords: seq<string>): seq<Item> {
    ItemsOf(Rank(Hits(children, keywords)))
  }

  /** The body of `onDataChange`: collect the hits, rank them, keep the items. */
  method RankedResults(children: seq<Child>, keywords: seq<string>) returns (results: seq<Item>)
    ensures results == SearchResults(children, keywords)
  {
    var hits := CollectHits(children, keywords);
    results := ItemsOf(Rank(hits));
  }

  lemma ItemsOfMembers(hits: seq<Hit>, x: Item)
    ensures x in ItemsOf(hits) <==> HasItem(hits, x)
  {
    if HasItem(hits, x) {
      var m :| 0 <= m < |hits| && hits[m].item == x;
      assert ItemsOf(hits)[m] == x;
    }
  }

  /** Ranking neither adds nor drops a product. */
  lemma RankMembers(hits: seq<Hit>, x: Item)
    ensures HasItem(Rank(hits), x) <==> HasItem(hits, x)
  {
    var ranked := Rank(hits);
    if HasItem(ranked, x) {
      var m :| 0 <= m < |ranked| && ranked[m].item == x;
      assert ranked[m] in multiset(hits);
      var p :| 0 <= p < |hits| && hits[p] == ranked[m];
    }
    if HasItem(hits, x) {
      var p :| 0 <= p < |hits| && hits[p].item == x;
      assert hits[p] in multiset(ranked);
      var m :| 0 <= m < |ranked| && ranked[m] == hits[p];
    }
  }

  /** A product is among the results exactly when it comes from a child some keyword matches. */
  lemma ResultsMembers(children: seq<Child>, keywords: seq<string>, x: Item)
    ensures x in SearchResults(children, keywords) <==>
      exists i :: 0 <= i < |children| && Found(children[i], keywords, x)
  {
    var hits := Hits(children, keywords);
    HitItems(children, keywords, x);
    RankMembers(hits, x);
    ItemsOfMembers(Rank(hits), x);
  }

  /** Ordered by `key` in the direction `dir`; `NoSort` asks for nothing. */
  ghost predicate InOrder(s: seq<Item>, key: Item -> int, dir: SortOption) {
    match dir
    case NoSort => true
    case Ascending => forall i, j :: 0 <= i < j < |s| ==> key(s[i]) <= key(s[j])
    case Descending => forall i, j :: 0 <= i < j < |s| ==> key(s[i]) >= key(s[j])
  }

  /** `sortedBy` or `sortedByDescending` on `key`, or nothing for `NoSort`. */
  function SortByOption(s: seq<Item>, key: Item -> int, dir: SortOption): (r: seq<Item>)
    ensures multiset(r) == multiset(s) && |r| == |s|
  {
    match dir
    case NoSort => s
    case Ascending => SortBy(s, key)
    case Descending => SortByDescending(s, key)
  }

  /** A sort by option orders by its key and keeps the order of equal keys. */
  lemma SortByOptionOrders(s: seq<Item>, key: Item -> int, dir: SortOption, k: int)
    ensures InOrder(SortByOption(s, key, dir), key, dir)
    ensures WithKey(SortByOption(s, key, dir), key, k) == WithKey(s, key, k)
  {
    match dir {
      case NoSort =>
      case Ascending =>
        SortBySorted(s, key);
        SortByStable(s, key, k);
      case Descending =>
        SortByDescendingSorted(s, key);
        SortByDescendingStable(s, key, k);
    }
  }

  /** Order in a direction survives taking a subsequence. */
  lemma InOrderSubsequence(a: seq<Item>, b: seq<Item>, key: Item -> int, dir: SortOption)
    requires IsSubsequence(a, b) && InOrder(b, key, dir)
    ensures InOrder(a, key, dir)
  {
    match dir {
      case NoSort =>
      case Ascending =>
        SubsequenceSorted(a, b, key);
      case Descending =>
        forall i, j | 0 <= i < j < |b| ensures Negated(key)(b[i]) <= Negated(key)(b[j]) {
        }
        SubsequenceSorted(a, b, Negated(key));
        forall i, j | 0 <= i < j < |a| ensures key(a[i]) >= key(a[j]) {
          assert Negated(key)(a[i]) <= Negated(key)(a[j]);
        }
    }
  }

  /** The sort effect: first by price, then by rating, each only when set. */
  function SortEffect(results: seq<Item>, sortByPrice: SortOption, sortByRating: SortOption): (r: seq<Item>)
    ensures multiset(r) == multiset(results) && |r| == |results|
  {
    SortByOption(SortByOption(results, Price, sortByPrice), Rating, sortByRating)
  }

  /**
   * The sorted list is ordered by rating when that is set, by price when only
   * that is set, and products of equal rating stay in price order: the second
   * sort is stable. With neither set the score order is kept.
   */
  lemma SortEffectOrder(results: seq<Item>, sortByPrice: SortOption, sortByRating: SortOption)
    ensures InOrder(SortEffect(results, sortByPrice, sortByRating), Rating, sortByRating)
    ensures sortByRating == NoSort ==> InOrder(SortEffect(results, sortByPrice, sortByRating), Price, sortByPrice)
    ensures forall k :: InOrder(WithKey(SortEffect(results, sortByPrice, sortByRating), Rating, k), Price, sortByPrice)
    ensures sortByPrice == NoSort && sortByRating == NoSort ==> SortEffect(results, sortByPrice, sortByRating) == results
  {
    var byPrice := SortByOption(results, Price, sortByPrice);
    var r := SortEffect(results, sortByPrice, sortByRating);
    SortByOptionOrders(results, Price, sortByPrice, 0);
    SortByOptionOrders(byPrice, Rating, sortByRating, 0);
    forall k ensures InOrder(WithKey(r, Rating, k), Price, sortByPrice) {
      SortByOptionOrders(byPrice, Rating, sortByRating, k);
      WithKeyIsSubsequence(byPrice, Rating, k);
      InOrderSubsequence(WithKey(byPrice, Rating, k), byPrice, Price, sortByPrice);
    }
  }

  /** The screen's state. */
  class SearchScreen {
    const query: string
    var searchResults: seq<Item>
    var filteredResults: seq<Item>
    var isLoading: bool
    /** A single-value read of `Items` is outstanding. */
    var reading: bool
    var showFilterDialog: bool
    var sortByPrice: SortOption
    var sortByRating: SortOption
    var tempSortByPrice: SortOption
    var tempSortByRating: SortOption

    constructor(extra: Option<string>)
      ensures query == Query(extra)
      ensures searchResults == [] && filteredResults == [] && isLoading && !reading && !showFilterDialog
      ensures sortByPrice == NoSort && sortByRating == NoSort
      ensures tempSortByPrice == NoSort && tempSortByRating == NoSort
    {
      query := Query(extra);
      searchResults := [];
      filteredResults := [];
      isLoading := true;
      reading := false;
      showFilterDialog := false;
      sortByPrice := NoSort;
      sortByRating := NoSort;
      tempSortByPrice := NoSort;
      tempSortByRating := NoSort;
    }

    /** The effect keyed on the query: read the catalogue, or stop loading when there is no query. */
    method Start()
      modifies this
      ensures query != "" ==> reading && isLoading == old(isLoading)
      ensures query == "" ==> !reading && !isLoading
      ensures searchResults == old(searchResults) && filteredResults == old(filteredResults)
      ensures showFilterDialog == old(showFilterDialog)
      ensures sortByPrice == old(sortByPrice) && sortByRating == old(sortByRating)
      ensures tempSortByPrice == old(tempSortByPrice) && tempSortByRating == old(tempSortByRating)
    {
      if query != "" {
        reading := true;
      } else {
        reading := false;
        isLoading := false;
      }
    }

    /** The snapshot of `Items` arrives: score, rank, show unsorted. */
    method OnDataChange(children: seq<Child>)
      requires reading
      modifies this
      ensures searchResults == SearchResults(children, Keywords(query))
      ensures filteredResults == searchResults && !isLoading && !reading
      ensures showFilterDialog == old(showFilterDialog)
      ensures sortByPrice == old(sortByPrice) && sortByRating == old(sortByRating)
      ensures tempSortByPrice == old(tempSortByPrice) && tempSortByRating == old(tempSortByRating)
    {
      var results := RankedResults(children, Keywords(query));
      ShowResults(results);
    }

    /** The end of either callback: show `results` unsorted and stop loading. */
    method ShowResults(results: seq<Item>)
      modifies this
      ensures searchResults == results && filteredResults == results && !isLoading && !reading
      ensures showFilterDialog == old(showFilterDialog)
      ensures sortByPrice == old(sortByPrice) && sortByRating == old(sortByRating)
      ensures tempSortByPrice == old(tempSortByPrice) && tempSortByRating == old(tempSortByRating)
    {
      searchResults, filteredResults, isLoading, reading := results, results, false, false;
    }

    /** The read fails: no results. */
    method OnCancelled()
      requires reading
      modifies this
      ensures searchResults == [] && filteredResults == [] && !isLoading && !reading
      ensures showFilterDialog == old(showFilterDialog)
      ensures sortByPrice == old(sortByPrice) && sortByRating == old(sortByRating)
      ensures tempSortByPrice == old(tempSortByPrice) && tempSortByRating == old(tempSortByRating)
    {
      ShowResults([]);
    }

    /** The effect keyed on the two sort options. */
    method ApplySort()
      modifies this
      ensures filteredResults == SortEffect(searchResults, sortByPrice, sortByRating)
      ensures searchResults == old(searchResults) && isLoading == old(isLoading) && reading == old(reading)
      ensures showFilterDialog == old(showFilterDialog)
      ensures sortByPrice == old(sortByPrice) && sortByRating == old(sortByRating)
      ensures tempSortByPrice == old(tempSortByPrice) && tempSortByRating == old(tempSortByRating)
    {
      var result := searchResults;
      if sortByPrice != NoSort {
        result := if sortByPrice == Ascending then SortBy(result, Price) else SortByDescending(result, Price);
      }
      if sortByRating != NoSort {
        result := if sortByRating == Ascending then SortBy(result, Rating) else SortByDescending(result, Rating);
      }
      filteredResults := result;
    }

    method OpenFilterDialog()
      modifies this
      ensures showFilterDialog
      ensures searchResults == old(searchResults) && filteredResults == old(filteredResults)
      ensures isLoading == old(isLoading) && reading == old(reading)
      ensures sortByPrice == old(sortByPrice) && sortByRating == old(sortByRating)
      ensures tempSortByPrice == old(tempSortByPrice) && tempSortByRating == old(tempSortByRating)
    {
      showFilterDialog := true;
    }

    /** A choice in the dialog changes only the pending options. */
    method Choose(price: SortOption, rating: SortOption)
      modifies this
      ensures tempSortByPrice == price && tempSortByRating == rating
      ensures showFilterDialog == old(showFilterDialog)
      ensures searchResults == old(searchResults) && filteredResults == old(filteredResults)
      ensures isLoading == old(isLoading) && reading == old(reading)
      ensures sortByPrice == old(sortByPrice) && sortByRating == old(sortByRating)
    {
      tempSortByPrice := price;
      tempSortByRating := rating;
    }

    /**
     * "Apply": the pending options become the sort options; the sort effect
     * runs again only when one of them changed.
     */
    method Confirm()
      modifies this
      ensures sortByPrice == old(tempSortByPrice) && sortByRating == old(tempSortByRating)
      ensures !showFilterDialog
      ensures (sortByPrice, sortByRating) != old((sortByPrice, sortByRating)) ==>
        filteredResults == SortEffect(searchResults, sortByPrice, sortByRating)
      ensures (sortByPrice, sortByRating) == old((sortByPrice, sortByRating)) ==>
        filteredResults == old(filteredResults)
      ensures searchResults == old(searchResults) && isLoading == old(isLoading) && reading == old(reading)
      ensures tempSortByPrice == old(tempSortByPrice) && tempSortByRating == old(tempSortByRating)
    {
      var changed := sortByPrice != tempSortByPrice || sortByRating != tempSortByRating;
      sortByPrice := tempSortByPrice;
      sortByRating := tempSortByRating;
      showFilterDialog := false;
      if changed {
        ApplySort();
      }
    }

    /** "Cancel": close and put the pending options back. */
    method Cancel()
      modifies this
      ensures !showFilterDialog
      ensures tempSortByPrice == sortByPrice && tempSortByRating == sortByRating
      ensures searchResults == old(searchResults) && filteredResults == old(filteredResults)
      ensures isLoading == old(isLoading) && reading == old(reading)
      ensures sortByPrice == old(sortByPrice) && sortByRating == old(sortByRating)
    {
      showFilterDialog := false;
      tempSortByPrice := sortByPrice;
      tempSortByRating := sortByRating;
    }

    /** Tapping outside the dialog closes it and keeps the pending options. */
    method DismissRequest()
      modifies this
      ensures !showFilterDialog
      ensures tempSortByPrice == old(tempSortByPrice) && tempSortByRating == old(tempSortByRating)
      ensures searchResults == old(searchResults) && filteredResults == old(filteredResults)
      ensures isLoading == old(isLoading) && reading == old(reading)
      ensures sortByPrice == old(sortByPrice) && sortByRating == old(sortByRating)
    {
      showFilterDialog := false;
    }
  }
}
