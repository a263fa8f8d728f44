/** The filter settings of the product list, and the sort order shared with search. */
module FilterModels {
  import opened Wrappers

  /** SortOption: NONE, ASCENDING, DESCENDING (declared twice in the app with the same values). */
  datatype SortOption = NoSort | Ascending | Descending

  /** An inclusive price range; an upper bound of `None` stands for Double.MAX_VALUE. */
  datatype PriceRange = PriceRange(first: int, second: Option<int>)

  datatype FilterOptions = FilterOptions(
    priceRange: PriceRange,
    brands: set<string>,
    ramOptions: set<string>,
    storageOptions: set<string>,
    sortByPrice: SortOption)

  /** The range that excludes nothing priced at 0 or more. */
  const FullRange: PriceRange := PriceRange(0, None)

  /** `FilterOptions()`: no restriction and no sorting. */
  const DefaultOptions: FilterOptions := FilterOptions(FullRange, {}, {}, {}, NoSort)

  /** `first <= price <= second`, with no upper limit when `second` is absent. */
  predicate InRange(price: int, range: PriceRange) {
    range.first <= price && (range.second.None? || price <= range.second.value)
  }
}
