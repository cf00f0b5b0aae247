/**
 * Lemmas proved about the store's actions on concrete listing and page
 * payloads shaped like the Wagtail API's, following the API call end to end
 * where the client shapes the result.
 */
module StoreScenarios {
  import opened Wrappers
  import opened JsValue
  import WagtailApi
  import opened WagtailStore

  function HomeSummary(): JsVal {
    Obj(map["id" := Num(1.0), "title" := Str("Home")])
  }

  /** A listing of one page, with its `items` array and `meta.total_count`. */
  lemma ListingIsCommitted(s: StoreState)
    ensures var listing := Obj(map["items" := Arr([HomeSummary()]),
                                   "meta" := Obj(map["total_count" := Num(1.0)])]);
            var r := AfterFetchPages(s, Resolved(listing));
            r.pages == [HomeSummary()] && r.error == None && !r.isLoading
  {
  }

  /** An `items` field that is not an array is a local validation failure; the listing becomes empty, not null. */
  lemma ItemsNotAnArray(s: StoreState)
    ensures var r := AfterFetchPages(s, Resolved(Obj(map["items" := Str("not-an-array")])));
            r.pages == [] && r.error == Some("Invalid response format from API") && !r.isLoading
  {
  }

  /** A listing with no items is a valid, empty listing. */
  lemma EmptyListingIsCommitted(s: StoreState)
    ensures var r := AfterFetchPages(s, Resolved(Obj(map["items" := Arr([])])));
            r.pages == [] && r.error == None
  {
  }

  /** A network error's message becomes the store's error. */
  lemma PageRequestTimesOut(s: StoreState, get: string -> Outcome)
    requires get(WagtailApi.PagePath(5)) == Rejected(ErrorInstance("timeout"))
    ensures var r := AfterFetchPage(s, WagtailApi.GetPage(get, 5));
            r.currentPage == Null && r.error == Some("timeout") && !r.isLoading
  {
  }

  /** A thrown value that is not an Error yields the fixed fallback message. */
  lemma NonErrorRejection(s: StoreState, thrown: JsVal)
    ensures AfterFetchPage(s, Rejected(NonError(thrown))).error == Some("Failed to fetch page")
    ensures AfterFetchPages(s, Rejected(NonError(thrown))).error == Some("Failed to fetch pages")
    ensures AfterFetchHomePage(s, Rejected(NonError(thrown))).error == Some("Failed to fetch homepage")
  {
  }

  /** An array passes the page check; a string does not. */
  lemma PageCheckAdmitsArrays(s: StoreState)
    ensures AfterFetchPage(s, Resolved(Arr([]))).currentPage == Arr([])
    ensures AfterFetchPage(s, Resolved(Str("page"))).error == Some("Invalid page data received")
  {
  }

  /** The home page, with its featured image, is committed as listed. */
  lemma HomePageWithImage(s: StoreState, get: string -> Outcome)
    ensures var image := Obj(map["id" := Num(9.0)]);
            var home := Obj(map["id" := Num(1.0), "title" := Str("Home"),
                                "intro" := Str("Welcome"), "featured_image" := image]);
            var response := Obj(map["data" := Obj(map["items" := Arr([home])])]);
            get(WagtailApi.HomePagePath) == Resolved(response) ==>
              var r := AfterFetchHomePage(s, WagtailApi.GetHomePage(get));
              r.homePage == home && Get(Get(r.homePage, "featured_image"), "id") == Num(9.0) &&
              r.error == None
  {
  }

  /** An empty home-page listing surfaces the client's message in the store. */
  lemma HomePageListingEmpty(s: StoreState, get: string -> Outcome)
    requires get(WagtailApi.HomePagePath) == Resolved(Obj(map["data" := Obj(map["items" := Arr([])])]))
    ensures var r := AfterFetchHomePage(s, WagtailApi.GetHomePage(get));
            r.homePage == Null && r.error == Some("HomePage not found") && !r.isLoading
  {
  }

  /** A client of the store object: after two fetches the last one's outcome is what the store shows. */
  method TwoFetches(get: string -> Outcome)
    requires get(WagtailApi.PagesPath) == Rejected(ErrorInstance("Network Error"))
    requires get(WagtailApi.PagePath(3)) == Resolved(HomeSummary())
  {
    var store := new Store();
    store.FetchPages(get);
    assert store.pages == [] && store.error == Some("Network Error") && !store.isLoading;
    store.FetchPage(3, get);
    assert store.pages == [] && store.currentPage == HomeSummary() && store.error == None;
    store.ClearError();
    assert store.error == None && store.currentPage == HomeSummary();
  }
}
