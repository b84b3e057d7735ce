/**
 * filters.rb: the same product allow-list as bug_filter.rb, but the object
 * fetches the bug data itself, once, in its constructor.
 */
module ProductFilters {
  import opened Wrappers
  import opened Tracker
  import BugFilters

  /** A Filters object after construction: its config, its bug id and the data fetched for it. */
  datatype Filters = Filters(config: BugFilters.FilterConfig, bugId: int, bugInfo: BugData)

  /** Filters.new(bugzilla, config, bug_id): `fetch` stands for `bugzilla.bug_data`. */
  function NewFilters(fetch: int -> BugData, config: BugFilters.FilterConfig, bugId: int): (f: Filters)
    ensures f.config == config && f.bugId == bugId
    ensures f.bugInfo == fetch(bugId)
  {
    Filters(config, bugId, fetch(bugId))
  }

  /** Filters#by_product. */
  function ByProduct(f: Filters): (r: bool)
    ensures f.config.products.None? ==> r
    ensures f.bugInfo.product.None? ==> r
    ensures r <==> f.config.products.None? || f.bugInfo.product.None?
                   || f.bugInfo.product.value in f.config.products.value
  {
    BugFilters.ProductAllowed(f.config.products, f.bugInfo.product)
  }

  /** Filters#check_all. */
  function CheckAll(f: Filters): (r: bool)
    ensures r == ByProduct(f)
  {
    ByProduct(f)
  }

  /**
   * The verdict depends only on the configuration and the data fetched for
   * the bug id: two trackers that agree on that bug give the same verdict.
   */
  lemma VerdictDependsOnFetchedData(fetch1: int -> BugData, fetch2: int -> BugData,
                                    config: BugFilters.FilterConfig, bugId: int)
    requires fetch1(bugId).product == fetch2(bugId).product
    ensures CheckAll(NewFilters(fetch1, config, bugId)) == CheckAll(NewFilters(fetch2, config, bugId))
  {
  }

  /** Filters#by_product and BugFilter#by_product agree on the same config and bug data. */
  lemma AgreesWithBugFilter(fetch: int -> BugData, config: BugFilters.FilterConfig, bugId: int)
    ensures CheckAll(NewFilters(fetch, config, bugId))
            == BugFilters.FilteredAll(BugFilters.BugFilter(config, fetch(bugId)))
  {
  }

  /** The four cases of the unit tests that drive Filters#check_all with a stubbed tracker. */
  lemma UnitTestCases()
    ensures CheckAll(NewFilters(_ => BugFilters.WithProduct(Some("TestProduct")),
                                BugFilters.FilterConfig(Some(["TestProduct"])), 12345))
    ensures !CheckAll(NewFilters(_ => BugFilters.WithProduct(Some("AnotherProduct")),
                                 BugFilters.FilterConfig(Some(["TestProduct"])), 12345))
    ensures CheckAll(NewFilters(_ => BugFilters.WithProduct(Some("TestProduct")),
                                BugFilters.FilterConfig(None), 12345))
    ensures CheckAll(NewFilters(_ => BugFilters.WithProduct(None),
                                BugFilters.FilterConfig(Some(["TestProduct"])), 12345))
  {
  }
}
