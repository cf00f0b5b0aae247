/**
 * The Wagtail store: one shared loading flag and one shared error message
 * for three data fields (the page listing, the current page and the home
 * page), and the four actions that update them. Each fetch enters loading,
 * awaits one API call, and settles by committing a valid value, or by
 * emptying its field and recording an error message; it always ends with
 * loading off and never lets an exception escape.
 */
module WagtailStore {
  import opened Wrappers
  import opened JsValue
  import WagtailApi

  const InvalidPagesFormat: string := "Invalid response format from API"
  const InvalidPageData: string := "Invalid page data received"
  const InvalidHomePageData: string := "Invalid homepage data received"
  const PagesFallback: string := "Failed to fetch pages"
  const PageFallback: string := "Failed to fetch page"
  const HomePageFallback: string := "Failed to fetch homepage"

  /** The store's five fields as one value; `Null` and `None` stand for `null`. */
  datatype StoreState = StoreState(
    pages: seq<JsVal>,
    currentPage: JsVal,
    homePage: JsVal,
    isLoading: bool,
    error: Option<string>)

  /** The state the store is created with. */
  function Initial(): StoreState {
    StoreState([], Null, Null, false, None)
  }

  /** Each single-page field holds null or a value that passed the object check. */
  predicate WellFormed(s: StoreState) {
    (s.currentPage.Null? || IsObjectLike(s.currentPage)) &&
    (s.homePage.Null? || IsObjectLike(s.homePage))
  }

  predicate SameData(s: StoreState, t: StoreState) {
    s.pages == t.pages && s.currentPage == t.currentPage && s.homePage == t.homePage
  }

  /** The two assignments every fetch starts with. */
  function Enter(s: StoreState): (r: StoreState)
    ensures r.isLoading && r.error == None
    ensures SameData(r, s)
  {
    s.(isLoading := true, error := None)
  }

  /** `e instanceof Error ? e.message : fallback`. */
  function CaughtMessage(e: Thrown, fallback: string): (m: string)
    ensures e.ErrorInstance? ==> m == e.message
    ensures e.NonError? ==> m == fallback
  {
    match e
    case ErrorInstance(message) => message
    case NonError(_) => fallback
  }

  /** The guard `response && response.items && Array.isArray(response.items)`. */
  function HasItemsArray(v: JsVal): (r: bool)
    ensures r <==> v.Obj? && "items" in v.props && v.props["items"].Arr?
  {
    Truthy(v) && Truthy(Get(v, "items")) && IsArray(Get(v, "items"))
  }

  /**
   * The `featured_image` reassignment of `fetchHomePage`: a property
   * assigned its own value, guarded by the object check.
   */
  function NormalizeFeaturedImage(v: JsVal): (r: JsVal)
    requires IsObjectLike(v)
    ensures r == v
  {
    var image := Get(v, "featured_image");
    if IsObjectLike(image) then SetProp(v, "featured_image", image) else v
  }

  /** The try/catch/finally of `fetchPages`, from the loading state `s`. */
  function SettlePages(s: StoreState, result: Outcome): StoreState {
    match result
    case Resolved(response) =>
      if HasItemsArray(response) then s.(pages := Get(response, "items").elems, isLoading := false)
      else s.(pages := [], error := Some(InvalidPagesFormat), isLoading := false)
    case Rejected(e) => s.(error := Some(CaughtMessage(e, PagesFallback)), pages := [], isLoading := false)
  }

  /** The try/catch/finally of `fetchPage`, from the loading state `s`. */
  function SettlePage(s: StoreState, result: Outcome): StoreState {
    match result
    case Resolved(page) =>
      if IsObjectLike(page) then s.(currentPage := page, isLoading := false)
      else s.(currentPage := Null, error := Some(InvalidPageData), isLoading := false)
    case Rejected(e) => s.(error := Some(CaughtMessage(e, PageFallback)), currentPage := Null, isLoading := false)
  }

  /** The try/catch/finally of `fetchHomePage`, from the loading state `s`. */
  function SettleHomePage(s: StoreState, result: Outcome): StoreState {
    match result
    case Resolved(homePage) =>
      if IsObjectLike(homePage) then s.(homePage := NormalizeFeaturedImage(homePage), isLoading := false)
      else s.(homePage := Null, error := Some(InvalidHomePageData), isLoading := false)
    case Rejected(e) => s.(error := Some(CaughtMessage(e, HomePageFallback)), homePage := Null, isLoading := false)
  }

  /** What `fetchPages` leaves behind, given how `getPages()` settled. */
  function AfterFetchPages(s: StoreState, result: Outcome): (r: StoreState)
    ensures !r.isLoading
    ensures r.currentPage == s.currentPage && r.homePage == s.homePage
    ensures r.error == None <==> result.Resolved? && HasItemsArray(result.value)
    ensures r.error == None ==> Arr(r.pages) == result.value.props["items"]
    ensures r.error != None ==> r.pages == []
    ensures result.Resolved? && !HasItemsArray(result.value) ==>
              r.error == Some("Invalid response format from API")
    ensures result.Rejected? && result.reason.ErrorInstance? ==> r.error == Some(result.reason.message)
    ensures result.Rejected? && result.reason.NonError? ==> r.error == Some("Failed to fetch pages")
    ensures WellFormed(s) ==> WellFormed(r)
  {
    SettlePages(Enter(s), result)
  }

  /** What `fetchPage` leaves behind, given how `getPage(id)` settled. */
  function AfterFetchPage(s: StoreState, result: Outcome): (r: StoreState)
    ensures !r.isLoading
    ensures r.pages == s.pages && r.homePage == s.homePage
    ensures r.error == None <==> result.Resolved? && (result.value.Arr? || result.value.Obj?)
    ensures r.error == None ==> r.currentPage == result.value
    ensures r.error != None ==> r.currentPage == Null
    ensures result.Resolved? && !(result.value.Arr? || result.value.Obj?) ==>
              r.error == Some("Invalid page data received")
    ensures result.Rejected? && result.reason.ErrorInstance? ==> r.error == Some(result.reason.message)
    ensures result.Rejected? && result.reason.NonError? ==> r.error == Some("Failed to fetch page")
    ensures WellFormed(s) ==> WellFormed(r)
  {
    SettlePage(Enter(s), result)
  }

  /** What `fetchHomePage` leaves behind, given how `getHomePage()` settled. */
  function AfterFetchHomePage(s: StoreState, result: Outcome): (r: StoreState)
    ensures !r.isLoading
    ensures r.pages == s.pages && r.currentPage == s.currentPage
    ensures r.error == None <==> result.Resolved? && (result.value.Arr? || result.value.Obj?)
    ensures r.error == None ==> r.homePage == result.value
    ensures r.error != None ==> r.homePage == Null
    ensures result.Resolved? && !(result.value.Arr? || result.value.Obj?) ==>
              r.error == Some("Invalid homepage data received")
    ensures result.Rejected? && result.reason.ErrorInstance? ==> r.error == Some(result.reason.message)
    ensures result.Rejected? && result.reason.NonError? ==> r.error == Some("Failed to fetch homepage")
    ensures WellFormed(s) ==> WellFormed(r)
  {
    SettleHomePage(Enter(s), result)
  }

  /** What `clearError` leaves behind. */
  function AfterClearError(s: StoreState): (r: StoreState)
    ensures r.error == None
    ensures SameData(r, s) && r.isLoading == s.isLoading
  {
    s.(error := None)
  }

  /** The store object, with the five fields the actions assign. */
  class Store {
    var pages: seq<JsVal>
    var currentPage: JsVal
    var homePage: JsVal
    var isLoading: bool
    var error: Option<string>

    function State(): StoreState
      reads this
    {
      StoreState(pages, currentPage, homePage, isLoading, error)
    }

    ghost predicate Valid()
      reads this
    {
      WellFormed(State())
    }

    constructor ()
      ensures Valid() && State() == Initial()
    {
      pages := [];
      currentPage := Null;
      homePage := Null;
      isLoading := false;
      error := None;
    }

    /** The state while a fetch is awaiting its API call. */
    method BeginFetch()
      requires Valid()
      modifies this
      ensures Valid()
      ensures State() == Enter(old(State()))
    {
      isLoading := true;
      error := None;
    }

    /** `fetchPages()`, where `get` is the HTTP instance's `get`. */
    method FetchPages(get: string -> Outcome)
      requires Valid()
      modifies this
      ensures Valid()
      ensures State() == AfterFetchPages(old(State()), WagtailApi.GetPages(get))
    {
      BeginFetch();
      var result := WagtailApi.GetPages(get);
      match result {
        case Resolved(response) =>
          if HasItemsArray(response) {
            pages := Get(response, "items").elems;
          } else {
            pages := [];
            error := Some(InvalidPagesFormat);
          }
        case Rejected(e) =>
          error := Some(CaughtMessage(e, PagesFallback));
          pages := [];
      }
      isLoading := false;
    }

    /** `fetchPage(id)`. */
    method FetchPage(id: int, get: string -> Outcome)
      requires Valid()
      modifies this
      ensures Valid()
      ensures State() == AfterFetchPage(old(State()), WagtailApi.GetPage(get, id))
    {
      BeginFetch();
      var result := WagtailApi.GetPage(get, id);
      match result {
        case Resolved(page) =>
          if IsObjectLike(page) {
            currentPage := page;
          } else {
            currentPage := Null;
            error := Some(InvalidPageData);
          }
        case Rejected(e) =>
          error := Some(CaughtMessage(e, PageFallback));
          currentPage := Null;
      }
      isLoading := false;
    }

    /** `fetchHomePage()`. */
    method FetchHomePage(get: string -> Outcome)
      requires Valid()
      modifies this
      ensures Valid()
      ensures State() == AfterFetchHomePage(old(State()), WagtailApi.GetHomePage(get))
    {
      BeginFetch();
      var result := WagtailApi.GetHomePage(get);
      match result {
        case Resolved(homePageValue) =>
          if IsObjectLike(homePageValue) {
            homePage := NormalizeFeaturedImage(homePageValue);
          } else {
            homePage := Null;
            error := Some(InvalidHomePageData);
          }
        case Rejected(e) =>
          error := Some(CaughtMessage(e, HomePageFallback));
          homePage := Null;
      }
      isLoading := false;
    }

    /** `clearError()`. */
    method ClearError()
      requires Valid()
      modifies this
      ensures Valid()
      ensures State() == AfterClearError(old(State()))
    {
      error := None;
    }
  }
}
