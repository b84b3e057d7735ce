/**
 * bug_filter.rb: a chat's product allow-list, checked against bug data
 * that the caller has already fetched.
 */
module BugFilters {
  import opened Wrappers
  import opened Tracker

  /** The part of a chat's configuration the filter reads: `config['products']`. */
  datatype FilterConfig = FilterConfig(products: Option<seq<string>>)

  /** A BugFilter object: the configuration and the bug data given to its constructor. */
  datatype BugFilter = BugFilter(config: FilterConfig, bugData: BugData)

  /** `list&.include?(x)`: nil when the list is nil, otherwise whether it holds x. */
  function SafeInclude(list: Option<seq<string>>, x: Option<string>): Option<bool>
  {
    match list
    case None => None
    case Some(l) => Some(x.Some? && x.value in l)
  }

  /** Ruby truthiness of a nil-or-boolean value. */
  function Truthy(v: Option<bool>): bool
  {
    v.Some? && v.value
  }

  /**
   * `products&.include?(product) || products.nil? || product.nil?`,
   * operand by operand; the result is always a boolean.
   */
  function ProductAllowed(products: Option<seq<string>>, product: Option<string>): (r: bool)
    ensures r <==> products.None? || product.None? || product.value in products.value
    ensures !r <==> products.Some? && product.Some? && product.value !in products.value
  {
    Truthy(SafeInclude(products, product)) || products.None? || product.None?
  }

  /** BugFilter#by_product. */
  function ByProduct(f: BugFilter): (r: bool)
    ensures f.config.products.None? ==> r
    ensures f.bugData.product.None? ==> r
    ensures r <==> f.config.products.None? || f.bugData.product.None?
                   || f.bugData.product.value in f.config.products.value
  {
    ProductAllowed(f.config.products, f.bugData.product)
  }

  /** BugFilter#filtered_all?: every filter the class has, which is the product filter alone. */
  function FilteredAll(f: BugFilter): (r: bool)
    ensures r == ByProduct(f)
  {
    ByProduct(f)
  }

  /** A bug whose product is listed passes; one whose product is not listed does not. */
  lemma ListedProductDecides(f: BugFilter)
    requires f.config.products.Some? && f.bugData.product.Some?
    ensures FilteredAll(f) <==> f.bugData.product.value in f.config.products.value
  {
  }

  function WithProduct(product: Option<string>): BugData
  {
    BugData(12345, None, None, None, None, None, None, None, product, None)
  }

  /** The four cases of the unit tests for BugFilter#by_product. */
  lemma UnitTestCases()
    ensures ByProduct(BugFilter(FilterConfig(Some(["TestProduct"])), WithProduct(Some("TestProduct"))))
    ensures !ByProduct(BugFilter(FilterConfig(Some(["TestProduct"])), WithProduct(Some("AnotherProduct"))))
    ensures ByProduct(BugFilter(FilterConfig(None), WithProduct(Some("TestProduct"))))
    ensures ByProduct(BugFilter(FilterConfig(Some(["TestProduct"])), WithProduct(None)))
  {
  }
}
