/**
 * Filtering and sorting of a category's product list (ListItemsActivity):
 * price range, brand / RAM / storage sets, sort by price, and the
 * post-processing of what the description regexes match. The regex engine
 * itself is not modelled: what the patterns find in a description is given
 * by a `Scanner`.
 */
module ListFilters {
  import opened Wrappers
  import opened ItemsModel
  import opened SeqUtil
  import opened Text
  import opened FilterModels

  /** The two capture groups of a RAM or storage match: the amount and the unit. */
  datatype SizeMatch = SizeMatch(amount: string, unit: string)

  /**
   * What the patterns find in one description: for each of the two brand
   * patterns, in order, the matched texts; and the RAM and storage matches.
   */
  datatype DescriptionMatches = DescriptionMatches(
    brand: seq<seq<string>>,
    ram: seq<SizeMatch>,
    storage: seq<SizeMatch>)

  type Scanner = string -> DescriptionMatches

  /** `String.capitalize`: first character upper-cased, the rest lower-cased. */
  function Capitalize(s: string): (r: string)
    ensures |r| == |s|
    ensures Lower(r) == Lower(s)
    ensures r != "" ==> !('a' <= r[0] <= 'z')
    ensures forall i :: 1 <= i < |r| ==> !('A' <= r[i] <= 'Z')
  {
    if s == "" then s else [UpperChar(s[0])] + Lower(s[1..])
  }

  /** Capitalizing is idempotent. */
  lemma CapitalizeIdempotent(s: string)
    ensures Capitalize(Capitalize(s)) == Capitalize(s)
  {
  }

  /** The brand label of one match: `value.lowercase().capitalize()`. */
  function BrandLabel(v: string): string {
    Capitalize(Lower(v))
  }

  function BrandLabels(ms: seq<string>): (r: seq<string>)
    ensures |r| == |ms| && forall i :: 0 <= i < |ms| ==> r[i] == BrandLabel(ms[i])
  {
    if ms == [] then [] else BrandLabels(ms[..|ms| - 1]) + [BrandLabel(ms[|ms| - 1])]
  }

  /** The labels of every match of every pattern, patterns in order, before `distinct()`. */
  function AllBrandLabels(pm: seq<seq<string>>): seq<string> {
    if pm == [] then [] else AllBrandLabels(pm[..|pm| - 1]) + BrandLabels(pm[|pm| - 1])
  }

  /** `extractBrandsFromDescription`, as a value. */
  function ExtractedBrands(pm: seq<seq<string>>): seq<string> {
    Distinct(AllBrandLabels(pm))
  }

  /** The nested `forEach` of `extractBrandsFromDescription`, then `distinct()`. */
  method ExtractBrandsFromDescription(pm: seq<seq<string>>) returns (brands: seq<string>)
    ensures brands == ExtractedBrands(pm)
    ensures forall i, j :: 0 <= i < j < |brands| ==> brands[i] != brands[j]
  {
    var found: seq<string> := [];
    for p := 0 to |pm|
      invariant found == AllBrandLabels(pm[..p])
    {
      found := AddBrandLabels(found, pm[p]);
      assert pm[..p + 1][..p] == pm[..p];
    }
    assert pm[..|pm|] == pm;
    brands := Distinct(found);
  }

  /** The inner `forEach`: one label per match of one pattern, appended in match order. */
  method AddBrandLabels(found: seq<string>, matches: seq<string>) returns (r: seq<string>)
    ensures r == found + BrandLabels(matches)
  {
    r := found;
    for m := 0 to |matches|
      invariant r == found + BrandLabels(matches[..m])
    {
      assert matches[..m + 1][..m] == matches[..m];
      r := r + [BrandLabel(matches[m])];
    }
    assert matches[..|matches|] == matches;
  }

  /** The label of a RAM or storage match: amount, a space, the unit upper-cased. */
  function SizeLabel(m: SizeMatch): string {
    m.amount + " " + Upper(m.unit)
  }

  /** `extractRamFromDescription` / `extractStorageFromDescription` after matching. */
  function SizeLabels(ms: seq<SizeMatch>): (r: seq<string>)
    ensures forall i, j :: 0 <= i < j < |r| ==> r[i] != r[j]
    ensures forall i :: 0 <= i < |r| ==> exists k :: 0 <= k < |ms| && r[i] == SizeLabel(ms[k])
    ensures forall k :: 0 <= k < |ms| ==> SizeLabel(ms[k]) in r
  {
    var labels := seq(|ms|, i requires 0 <= i < |ms| => SizeLabel(ms[i]));
    assert forall k :: 0 <= k < |ms| ==> labels[k] == SizeLabel(ms[k]);
    Distinct(labels)
  }

  /** `"<digits> <UNIT>"`: a non-empty run of digits, one space, a unit with no lower-case letter. */
  predicate IsSizeLabel(x: string) {
    var i := SpaceIndex(x);
    0 < i < |x| && AllDigits(x[..i]) &&
    forall j :: i < j < |x| ==> !('a' <= x[j] <= 'z')
  }

  /** When the amount group matched digits (as `\d+` does), every label is well formed. */
  lemma SizeLabelsWellFormed(ms: seq<SizeMatch>)
    requires forall k :: 0 <= k < |ms| ==> ms[k].amount != "" && AllDigits(ms[k].amount)
    ensures forall i :: 0 <= i < |SizeLabels(ms)| ==> IsSizeLabel(SizeLabels(ms)[i])
  {
    forall i | 0 <= i < |SizeLabels(ms)| ensures IsSizeLabel(SizeLabels(ms)[i]) {
      var k :| 0 <= k < |ms| && SizeLabels(ms)[i] == SizeLabel(ms[k]);
      SizeLabelShape(ms[k]);
    }
  }

  lemma SizeLabelShape(m: SizeMatch)
    requires m.amount != "" && AllDigits(m.amount)
    ensures IsSizeLabel(SizeLabel(m))
  {
    var x := SizeLabel(m);
    assert forall j :: 0 <= j < |m.amount| ==> x[j] == m.amount[j] && x[j] != ' ';
    assert x[|m.amount|] == ' ';
    SpaceIndexAt(x, |m.amount|);
    assert x[..|m.amount|] == m.amount;
  }

  lemma {:induction false} SpaceIndexAt(x: string, n: nat)
    requires n < |x| && x[n] == ' ' && forall j :: 0 <= j < n ==> x[j] != ' '
    ensures SpaceIndex(x) == n
  {
    if n > 0 {
      SpaceIndexAt(x[1..], n - 1);
    }
  }

  /** `any { it in set }`. */
  predicate AnyIn(s: seq<string>, values: set<string>) {
    exists i :: 0 <= i < |s| && s[i] in values
  }

  /** An empty selection applies no filter; otherwise some extracted value must be selected. */
  predicate PassesSet(extracted: seq<string>, selected: set<string>) {
    selected == {} || AnyIn(extracted, selected)
  }

  /** The item survives all four filters of `applyFilters`. */
  predicate Selects(it: Item, opts: FilterOptions, scan: Scanner) {
    var found := scan(it.description);
    InRange(it.price, opts.priceRange) &&
    PassesSet(ExtractedBrands(found.brand), opts.brands) &&
    PassesSet(SizeLabels(found.ram), opts.ramOptions) &&
    PassesSet(SizeLabels(found.storage), opts.storageOptions)
  }

  // The test of each stage of the chain, as a function value.

  function PriceTest(opts: FilterOptions): Item -> bool {
    (it: Item) => InRange(it.price, opts.priceRange)
  }

  function BrandTest(opts: FilterOptions, scan: Scanner): Item -> bool {
    (it: Item) => PassesSet(ExtractedBrands(scan(it.description).brand), opts.brands)
  }

  function RamTest(opts: FilterOptions, scan: Scanner): Item -> bool {
    (it: Item) => PassesSet(SizeLabels(scan(it.description).ram), opts.ramOptions)
  }

  function StorageTest(opts: FilterOptions, scan: Scanner): Item -> bool {
    (it: Item) => PassesSet(SizeLabels(scan(it.description).storage), opts.storageOptions)
  }

  /** One optional stage of the chain: filter by `q` only when its selection is non-empty. */
  method FilterIfSelected(items: seq<Item>, before: seq<Item>, p: Item -> bool, q: Item -> bool, active: bool)
    returns (after: seq<Item>)
    requires IsSubsequence(before, items)
    requires forall x :: multiset(before)[x] == if p(x) then multiset(items)[x] else 0
    requires !active ==> forall x :: q(x)
    ensures IsSubsequence(after, items)
    ensures forall x :: multiset(after)[x] == if And(p, q)(x) then multiset(items)[x] else 0
  {
    if active {
      FilterStep(items, before, p, q);
      after := Filter(before, q);
    } else {
      after := before;
    }
  }

  /** An empty selection lets every item through its stage. */
  lemma EmptySelectionPassesAll(opts: FilterOptions, scan: Scanner, x: Item)
    ensures opts.brands == {} ==> BrandTest(opts, scan)(x)
    ensures opts.ramOptions == {} ==> RamTest(opts, scan)(x)
    ensures opts.storageOptions == {} ==> StorageTest(opts, scan)(x)
  {
  }

  /** The four stages together are `Selects`. */
  lemma ChainIsSelects(opts: FilterOptions, scan: Scanner, x: Item)
    ensures And(And(And(PriceTest(opts), BrandTest(opts, scan)), RamTest(opts, scan)), StorageTest(opts, scan))(x)
            == Selects(x, opts, scan)
  {
  }

  /** The filter stages of `applyFilters`, in order. */
  method SelectItems(items: seq<Item>, opts: FilterOptions, scan: Scanner) returns (filteredItems: seq<Item>)
    ensures IsSubsequence(filteredItems, items)
    ensures forall x :: multiset(filteredItems)[x] == if Selects(x, opts, scan) then multiset(items)[x] else 0
  {
    var pass := PriceTest(opts);
    filteredItems := Filter(items, pass);
    FilterIsSubsequence(items, pass);
    forall x ensures multiset(filteredItems)[x] == if pass(x) then multiset(items)[x] else 0 {
      FilterMultiset(items, pass, x);
    }
    forall x ensures opts.brands == {} ==> BrandTest(opts, scan)(x) {
      EmptySelectionPassesAll(opts, scan, x);
    }
    forall x ensures opts.ramOptions == {} ==> RamTest(opts, scan)(x) {
      EmptySelectionPassesAll(opts, scan, x);
    }
    forall x ensures opts.storageOptions == {} ==> StorageTest(opts, scan)(x) {
      EmptySelectionPassesAll(opts, scan, x);
    }
    filteredItems := FilterIfSelected(items, filteredItems, pass, BrandTest(opts, scan), opts.brands != {});
    pass := And(pass, BrandTest(opts, scan));
    filteredItems := FilterIfSelected(items, filteredItems, pass, RamTest(opts, scan), opts.ramOptions != {});
    pass := And(pass, RamTest(opts, scan));
    filteredItems := FilterIfSelected(items, filteredItems, pass, StorageTest(opts, scan), opts.storageOptions != {});
    pass := And(pass, StorageTest(opts, scan));
    forall x ensures pass(x) == Selects(x, opts, scan) {
      ChainIsSelects(opts, scan, x);
    }
  }

  /** The last stage of `applyFilters`: `sortedBy` or `sortedByDescending` on the price, or no sort. */
  function SortedByPrice(xs: seq<Item>, order: SortOption): (r: seq<Item>)
    ensures multiset(r) == multiset(xs) && |r| == |xs|
    ensures order == NoSort ==> r == xs
    ensures order == Ascending ==> forall i, j :: 0 <= i < j < |r| ==> r[i].price <= r[j].price
    ensures order == Descending ==> forall i, j :: 0 <= i < j < |r| ==> r[i].price >= r[j].price
  {
    match order
    case Ascending => SortBySorted(xs, Price); SortBy(xs, Price)
    case Descending => SortByDescendingSorted(xs, Price); SortByDescending(xs, Price)
    case NoSort => xs
  }

  /** The price sort is stable: the items of any one price keep their order. */
  lemma SortedByPriceStable(xs: seq<Item>, order: SortOption, k: int)
    ensures WithKey(SortedByPrice(xs, order), Price, k) == WithKey(xs, Price, k)
  {
    match order {
      case Ascending => SortByStable(xs, Price, k);
      case Descending => SortByDescendingStable(xs, Price, k);
      case NoSort =>
    }
  }

  /**
   * `applyFilters`: the price filter, the brand, RAM and storage filters
   * when their sets are non-empty, then the optional stable sort by price.
   */
  method ApplyFilters(items: seq<Item>, opts: FilterOptions, scan: Scanner) returns (filteredItems: seq<Item>)
    ensures |filteredItems| <= |items|
    ensures forall x :: multiset(filteredItems)[x] == if Selects(x, opts, scan) then multiset(items)[x] else 0
    ensures forall x :: x in filteredItems <==> x in items && Selects(x, opts, scan)
    ensures opts.sortByPrice == NoSort ==> IsSubsequence(filteredItems, items)
    ensures opts.sortByPrice == Ascending ==>
      forall i, j :: 0 <= i < j < |filteredItems| ==> filteredItems[i].price <= filteredItems[j].price
    ensures opts.sortByPrice == Descending ==>
      forall i, j :: 0 <= i < j < |filteredItems| ==> filteredItems[i].price >= filteredItems[j].price
    ensures forall k :: IsSubsequence(WithKey(filteredItems, Price, k), items)
  {
    var selected := SelectItems(items, opts, scan);
    filteredItems := SortedByPrice(selected, opts.sortByPrice);
    forall k ensures IsSubsequence(WithKey(filteredItems, Price, k), items) {
      SortedByPriceStable(selected, opts.sortByPrice, k);
      WithKeyIsSubsequence(selected, Price, k);
      SubsequenceTrans(WithKey(selected, Price, k), selected, items);
    }
    SelectedMembers(items, filteredItems, opts, scan);
  }

  lemma SelectedMembers(items: seq<Item>, r: seq<Item>, opts: FilterOptions, scan: Scanner)
    requires forall x :: multiset(r)[x] == if Selects(x, opts, scan) then multiset(items)[x] else 0
    ensures |r| <= |items|
    ensures forall x :: x in r <==> x in items && Selects(x, opts, scan)
  {
    assert multiset(r) <= multiset(items);
    assert |multiset(r)| <= |multiset(items)| by {
      assert multiset(items) == multiset(r) + (multiset(items) - multiset(r));
    }
    forall x ensures x in r <==> x in items && Selects(x, opts, scan) {
      assert x in r <==> x in multiset(r);
      assert x in items <==> x in multiset(items);
    }
  }

  /** Removing a brand chip drops that brand only. */
  function RemoveBrand(opts: FilterOptions, brand: string): (r: FilterOptions)
    ensures r.brands == opts.brands - {brand}
    ensures r.priceRange == opts.priceRange && r.ramOptions == opts.ramOptions
    ensures r.storageOptions == opts.storageOptions && r.sortByPrice == opts.sortByPrice
  {
    opts.(brands := opts.brands - {brand})
  }

  /** Removing a RAM chip drops that option only. */
  function RemoveRam(opts: FilterOptions, ram: string): (r: FilterOptions)
    ensures r.ramOptions == opts.ramOptions - {ram}
    ensures r.priceRange == opts.priceRange && r.brands == opts.brands
    ensures r.storageOptions == opts.storageOptions && r.sortByPrice == opts.sortByPrice
  {
    opts.(ramOptions := opts.ramOptions - {ram})
  }

  /** Removing a storage chip drops that option only. */
  function RemoveStorage(opts: FilterOptions, storage: string): (r: FilterOptions)
    ensures r.storageOptions == opts.storageOptions - {storage}
    ensures r.priceRange == opts.priceRange && r.brands == opts.brands
    ensures r.ramOptions == opts.ramOptions && r.sortByPrice == opts.sortByPrice
  {
    opts.(storageOptions := opts.storageOptions - {storage})
  }

  /**
   * The filter dialog's Apply button: an unparseable minimum becomes 0 and
   * an unparseable maximum becomes "no upper bound".
   */
  function DialogOptions(minPrice: string, maxPrice: string, parse: DoubleParser,
                         brands: set<string>, ramOptions: set<string>, storageOptions: set<string>,
                         sortByPrice: SortOption): (r: FilterOptions)
    ensures r.priceRange.first == if parse(minPrice).Some? then parse(minPrice).value else 0
    ensures r.priceRange.second.None? <==> parse(maxPrice).None?
    ensures r.priceRange.second.Some? ==> r.priceRange.second == parse(maxPrice)
    ensures r.brands == brands && r.ramOptions == ramOptions && r.storageOptions == storageOptions
    ensures r.sortByPrice == sortByPrice
  {
    FilterOptions(PriceRange(parse(minPrice).GetOr(0), parse(maxPrice)),
                  brands, ramOptions, storageOptions, sortByPrice)
  }
}
