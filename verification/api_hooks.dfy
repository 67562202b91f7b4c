/**
 * The data hooks of the storefront: the generic fetch-with-fallback state
 * machine behind every API hook, the product search with its blank-query
 * rule and offline fallback, and the views two hooks derive from their
 * data. The API client itself is outside the model: each request is
 * started by one method and settled later by another, which receives the
 * response (or the thrown value) as a parameter.
 *
 * Every response value is taken to be truthy, as the objects and arrays
 * the API returns are; so "`data` is falsy" is `data.None?`.
 */
module ApiHooks {
  import opened Wrappers
  import opened Text
  import opened Sequences

  /** What a rejected request throws: an `Error` with its message, or any other value. */
  datatype Thrown = ErrorValue(message: string) | OtherValue

  /** `err instanceof Error ? err.message : fallbackText`. */
  function ErrorMessage(thrown: Thrown, fallbackText: string): (r: string)
    ensures thrown.ErrorValue? ==> r == thrown.message
    ensures thrown.OtherValue? ==> r == fallbackText
  {
    match thrown
    case ErrorValue(message) => message
    case OtherValue => fallbackText
  }

  const UnknownError: string := "Unbekannter Fehler"
  const SearchError: string := "Suchfehler"

  // ---------------------------------------------------------------------
  // useApiCall
  // ---------------------------------------------------------------------

  /**
   * One run of the hook's effect: its own `mounted` flag (cleared by the
   * cleanup), whether its request has settled, and the `data` its closure
   * captured when the effect ran.
   */
  datatype Run<T> = Run(mounted: bool, settled: bool, dataAtStart: Option<T>)

  /** The state of one `useApiCall` instance. */
  class ApiCall<T> {
    var data: Option<T>
    var loading: bool
    var error: Option<string>
    const fallback: Option<T>
    /** Every effect run so far, oldest first. */
    var runs: seq<Run<T>>

    /**
     * With a fallback, `data` is never empty: it starts as the fallback and
     * is only ever replaced by a response or by the fallback again.
     */
    predicate Valid()
      reads this
    {
      fallback.Some? ==> data.Some? && forall i :: 0 <= i < |runs| ==> runs[i].dataAtStart.Some?
    }

    /** The first render: `data` is the fallback if there is one, loading, no error. */
    constructor (fallbackData: Option<T>)
      ensures fallback == fallbackData && data == fallbackData
      ensures loading && error.None? && runs == []
      ensures Valid()
    {
      fallback := fallbackData;
      data := fallbackData;
      loading := true;
      error := None;
      runs := [];
    }

    /**
     * The effect runs (on mount and whenever a dependency changes): a new
     * mounted run captures the current `data`, and `fetchData` sets
     * loading and clears the error before it awaits the request.
     */
    method Start() returns (run: nat)
      modifies this
      ensures run == |old(runs)| && runs == old(runs) + [Run(true, false, old(data))]
      ensures data == old(data) && loading && error.None?
      ensures old(Valid()) ==> Valid()
    {
      runs := runs + [Run(true, false, data)];
      run := |runs| - 1;
      loading := true;
      error := None;
    }

    /** The effect's cleanup (unmount or a dependency change): that run's `mounted` becomes false. */
    method Cleanup(run: nat)
      requires run < |runs|
      modifies this
      ensures runs == old(runs)[run := old(runs)[run].(mounted := false)]
      ensures data == old(data) && loading == old(loading) && error == old(error)
      ensures old(Valid()) ==> Valid()
    {
      runs := runs[run := runs[run].(mounted := false)];
    }

    /**
     * The run's request resolves. While mounted, `data` becomes the result
     * and `loading` ends; the error stays as it is. Once unmounted, none of
     * `data`, `error`, `loading` changes.
     */
    method Succeed(run: nat, result: T)
      requires run < |runs| && !runs[run].settled
      modifies this
      ensures runs == old(runs)[run := old(runs)[run].(settled := true)]
      ensures old(runs)[run].mounted ==> data == Some(result) && !loading && error == old(error)
      ensures !old(runs)[run].mounted ==> data == old(data) && loading == old(loading) && error == old(error)
      ensures old(Valid()) ==> Valid()
    {
      var mounted := runs[run].mounted;
      runs := runs[run := runs[run].(settled := true)];
      if mounted {
        data := Some(result);
      }
      if mounted {
        loading := false;
      }
    }

    /**
     * The run's request rejects. While mounted, the error becomes the
     * thrown message ('Unbekannter Fehler' for a non-`Error`), `data` falls
     * back only when there is a fallback and the data captured at the
     * start was empty, and `loading` ends. Once unmounted, nothing changes.
     * While `Valid()` holds the captured data is never empty when there is
     * a fallback, so a failure never changes `data`.
     */
    method Fail(run: nat, thrown: Thrown)
      requires run < |runs| && !runs[run].settled
      modifies this
      ensures runs == old(runs)[run := old(runs)[run].(settled := true)]
      ensures old(runs)[run].mounted ==>
                error == Some(ErrorMessage(thrown, UnknownError)) && !loading &&
                data == (if fallback.Some? && old(runs)[run].dataAtStart.None? then fallback else old(data))
      ensures !old(runs)[run].mounted ==> data == old(data) && loading == old(loading) && error == old(error)
      ensures old(Valid()) ==> Valid() && data == old(data)
    {
      var current := runs[run];
      runs := runs[run := current.(settled := true)];
      if current.mounted {
        var errorMessage := ErrorMessage(thrown, UnknownError);
        error := Some(errorMessage);
        if fallback.Some? && current.dataAtStart.None? {
          data := fallback;
        }
      }
      if current.mounted {
        loading := false;
      }
    }

    /** `refetch`: loading, no error, and a new request is issued. */
    method Refetch()
      modifies this
      ensures loading && error.None?
      ensures data == old(data) && runs == old(runs)
      ensures old(Valid()) ==> Valid()
    {
      loading := true;
      error := None;
    }

    /** A request issued by `refetch` resolves: `data` is the result and loading ends, mounted or not. */
    method RefetchSucceed(result: T)
      modifies this
      ensures data == Some(result) && !loading
      ensures error == old(error) && runs == old(runs)
      ensures old(Valid()) ==> Valid()
    {
      data := Some(result);
      loading := false;
    }

    /**
     * A request issued by `refetch` rejects: the error is set, `data`
     * becomes the fallback whenever there is one, even over data already
     * held, and loading ends, mounted or not.
     */
    method RefetchFail(thrown: Thrown)
      modifies this
      ensures error == Some(ErrorMessage(thrown, UnknownError)) && !loading
      ensures data == (if fallback.Some? then fallback else old(data))
      ensures runs == old(runs)
      ensures old(Valid()) ==> Valid()
    {
      error := Some(ErrorMessage(thrown, UnknownError));
      if fallback.Some? {
        data := fallback;
      }
      loading := false;
    }
  }

  // ---------------------------------------------------------------------
  // The API's product records and the hooks' fixed fallbacks
  // ---------------------------------------------------------------------

  /** A product as the API returns it (price in cents; fields the hooks do not read are left out). */
  datatype ApiProduct = ApiProduct(id: string, name: string, description: string, price: int, category: string)

  /** The body of the products endpoint. */
  datatype ProductsResponse = ProductsResponse(products: seq<ApiProduct>, total: int, page: int)

  /** The body of the health endpoint. */
  datatype Health = Health(status: string, database: string)

  /** The three offline products of `useProducts`. */
  const MockProducts: seq<ApiProduct> := [
    ApiProduct("1", "Atlanta Street Shirt",
               "Urbanes Shirt mit Atlanta-Street-Style. Perfekt f\U{FC}r den l\U{E4}ssigen Alltag.", 3999, "shirts"),
    ApiProduct("2", "Berlin Urban Dress",
               "Elegantes Kleid mit Berlin-urbanem Flair. F\U{FC}r besondere Anl\U{E4}sse.", 12999, "dresses"),
    ApiProduct("3", "Premium Urban Jacket",
               "Hochwertige Jacke f\U{FC}r den urbanen Lifestyle. Berlin meets Atlanta.", 19999, "jackets")
  ]

  /** The fallback of `useProducts`: the mock products, their count, page 1. */
  const MockProductsResponse: ProductsResponse := ProductsResponse(MockProducts, |MockProducts|, 1)

  /** The fallback of `useApiHealth`. */
  const MockHealth: Health := Health("mock", "disconnected")

  /** The one offline product the failed search filters. */
  const MockSearchProducts: seq<ApiProduct> := [
    ApiProduct("1", "Atlanta Street Shirt", "Mock-Suchergebnis", 3999, "shirts")
  ]

  // ---------------------------------------------------------------------
  // useProducts and useApiHealth
  // ---------------------------------------------------------------------

  /** `products: data?.products || []` and `total: data?.total || 0`. */
  function ProductsView(data: Option<ProductsResponse>): (r: (seq<ApiProduct>, int))
    ensures data.None? ==> r == ([], 0)
    ensures data.Some? ==> r.0 == data.value.products && r.1 == data.value.total
  {
    if data.None? then ([], 0) else (data.value.products, data.value.total)
  }

  /** Before any response, `useProducts` shows the three mock products and a total of 3. */
  lemma FirstRenderShowsMocks()
    ensures ProductsView(Some(MockProductsResponse)) == (MockProducts, 3)
  {
  }

  /** `isConnected`: the API says it is up and so is its database, and nothing else counts. */
  predicate IsConnected(data: Option<Health>)
    ensures IsConnected(data) <==> data == Some(Health("ok", "connected"))
  {
    data.Some? && data.value.status == "ok" && data.value.database == "connected"
  }

  /** The fallback health value, and the absence of any, never count as connected. */
  lemma MockNotConnected()
    ensures !IsConnected(Some(MockHealth)) && !IsConnected(None)
  {
  }

  // ---------------------------------------------------------------------
  // useProductSearch
  // ---------------------------------------------------------------------

  /**
   * A mock product matches a query when its lowercased name or description
   * contains the lowercased query: every product matches the empty query,
   * and none matches a query longer than both its name and its description.
   */
  predicate MatchesQuery(p: ApiProduct, query: string)
    ensures query == "" ==> MatchesQuery(p, query)
    ensures MatchesQuery(p, query) ==> |query| <= |p.name| || |query| <= |p.description|
  {
    Contains(Lower(p.name), Lower(query)) || Contains(Lower(p.description), Lower(query))
  }

  /** The offline search ignores case: lowering the query does not change what matches. */
  lemma QueryIgnoresCase(p: ApiProduct, query: string)
    ensures MatchesQuery(p, Lower(query)) == MatchesQuery(p, query)
  {
    LowerIdempotent(query);
  }

  function QueryRule(query: string): ApiProduct -> bool
  {
    (p: ApiProduct) => MatchesQuery(p, query)
  }

  /** The offline search: the mock products that match the query, in their order. */
  function FallbackSearch(query: string): (r: seq<ApiProduct>)
    ensures forall p :: p in r <==> p in MockSearchProducts && MatchesQuery(p, query)
    ensures multiset(r) <= multiset(MockSearchProducts)
  {
    SelectMembers(MockSearchProducts, QueryRule(query));
    SelectSubMultiset(MockSearchProducts, QueryRule(query));
    Select(MockSearchProducts, QueryRule(query))
  }

  /** The offline search for "ATLANTA" finds the mock shirt. */
  lemma FallbackFindsShirt()
    ensures FallbackSearch("ATLANTA") == MockSearchProducts
  {
    var shirt := MockSearchProducts[0];
    assert Lower("ATLANTA") == "atlanta";
    assert Lower(shirt.name)[..7] == "atlanta";
    assert MatchesQuery(shirt, "ATLANTA");
    assert Select(MockSearchProducts[1..], QueryRule("ATLANTA")) == [];
  }

  /** The state of one `useProductSearch` instance. */
  class ProductSearch {
    var searchResults: seq<ApiProduct>
    var loading: bool
    var error: Option<string>

    constructor ()
      ensures searchResults == [] && !loading && error.None?
    {
      searchResults := [];
      loading := false;
      error := None;
    }

    /**
     * `search(query)` up to its request. A query that trims to nothing
     * empties the results and returns without a request, leaving loading
     * and error alone; any other query sets loading, clears the error and
     * issues the request (`requested`).
     */
    method Search(query: string) returns (requested: bool)
      modifies this
      ensures requested <==> !IsBlank(query)
      ensures !requested ==> searchResults == [] && loading == old(loading) && error == old(error)
      ensures requested ==> searchResults == old(searchResults) && loading && error.None?
    {
      TrimEmptyIffBlank(query);
      if Trim(query) == "" {
        searchResults := [];
        return false;
      }
      loading := true;
      error := None;
      requested := true;
    }

    /** The search request resolves: its products become the results and loading ends. */
    method SearchSucceed(products: seq<ApiProduct>)
      modifies this
      ensures searchResults == products && !loading && error == old(error)
    {
      searchResults := products;
      loading := false;
    }

    /**
     * The search request for `query` rejects: the error is the thrown
     * message ('Suchfehler' for a non-`Error`), the results are the mock
     * products matching the query, and loading ends.
     */
    method SearchFail(query: string, thrown: Thrown)
      requires !IsBlank(query)
      modifies this
      ensures error == Some(ErrorMessage(thrown, SearchError)) && !loading
      ensures forall p :: p in searchResults <==> p in MockSearchProducts && MatchesQuery(p, query)
      ensures searchResults == FallbackSearch(query)
    {
      error := Some(ErrorMessage(thrown, SearchError));
      searchResults := FallbackSearch(query);
      loading := false;
    }
  }
}
