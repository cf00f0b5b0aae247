/**
 * The Wagtail API client: which path each call requests, and how the home
 * page is picked out of the filtered page listing. The HTTP instance is the
 * parameter `get`: it maps a request path to the way the awaited request
 * settles. Whether that instance resolves to the raw HTTP response or to its
 * body is not part of this model; the functions below read the resolved value
 * exactly as the client does.
 */
module WagtailApi {
  import opened JsValue
  import Decimal

  const PagesPath: string := "/pages/"
  const HomePagePath: string := "/pages/?type=home.HomePage&fields=*"
  const ImagesPath: string := "/images/"
  const HomePageNotFound: string := "HomePage not found"

  /** The path `/pages/${id}/` requested for one page. */
  function PagePath(id: int): (p: string)
    ensures |p| > |PagesPath| + 1
    ensures p[..|PagesPath|] == PagesPath && p[|p| - 1] == '/'
    ensures p[|PagesPath|..|p| - 1] == Decimal.IntToDecimal(id)
  {
    PagesPath + Decimal.IntToDecimal(id) + "/"
  }

  /** `getPages()`: the listing, passed through without any check. */
  function GetPages(get: string -> Outcome): (r: Outcome)
    ensures r == get("/pages/")
  {
    get(PagesPath)
  }

  /** `getPage(id)`: one page, passed through without any check. */
  function GetPage(get: string -> Outcome, id: int): (r: Outcome)
    ensures r == get("/pages/" + Decimal.IntToDecimal(id) + "/")
  {
    get(PagePath(id))
  }

  /** `getImages()`: the image listing, passed through without any check. */
  function GetImages(get: string -> Outcome): (r: Outcome)
    ensures r == get("/images/")
  {
    get(ImagesPath)
  }

  /** `getHomePage()`: the home-page listing, narrowed to its first item. */
  function GetHomePage(get: string -> Outcome): (r: Outcome)
    ensures get("/pages/?type=home.HomePage&fields=*").Rejected? ==>
              r == get("/pages/?type=home.HomePage&fields=*")
    ensures get("/pages/?type=home.HomePage&fields=*").Resolved? ==>
              r == SelectHomePage(get("/pages/?type=home.HomePage&fields=*").value)
  {
    Then(get(HomePagePath), SelectHomePage)
  }

  /**
   * `response.data?.items?.[0]`, for a response that is not itself undefined
   * or null: the first element of an array listing, undefined for an empty
   * one, and undefined when `data` or `items` is missing or nullish. The
   * `HomePage*` lemmas below restate this over `ListsItems`.
   */
  function FirstListedItem(response: JsVal): (first: JsVal)
    requires !IsNullish(response)
    ensures IsNullish(Get(response, "data")) ==> first == Undefined
    ensures !IsNullish(Get(response, "data")) && IsNullish(Get(Get(response, "data"), "items")) ==>
              first == Undefined
    ensures response.Obj? && "data" in response.props && response.props["data"].Obj? &&
            "items" in response.props["data"].props && response.props["data"].props["items"].Arr? ==>
              var elems := response.props["data"].props["items"].elems;
              first == if |elems| > 0 then elems[0] else Undefined
  {
    var data := Get(response, "data");
    var items := if IsNullish(data) then Undefined else Get(data, "items");
    if IsNullish(items) then Undefined else Index(items, 0)
  }

  /**
   * The callback given to `then` in `getHomePage`: return the first listed
   * item when it is truthy, otherwise throw `Error('HomePage not found')`.
   * Reading `.data` of an undefined or null response throws a TypeError.
   */
  function SelectHomePage(response: JsVal): (r: Outcome)
    ensures r.Resolved? ==> Truthy(r.value)
    ensures r.Rejected? ==> r.reason.ErrorInstance?
    ensures IsNullish(response) ==> r == Rejected(ReadOfNullish(response, "data"))
    ensures !IsNullish(response) ==> (r.Resolved? <==> Truthy(FirstListedItem(response)))
    ensures !IsNullish(response) && r.Resolved? ==> r.value == FirstListedItem(response)
    ensures !IsNullish(response) && r.Rejected? ==> r.reason == ErrorInstance(HomePageNotFound)
  {
    if IsNullish(response) then
      Rejected(ReadOfNullish(response, "data"))
    else
      var first := FirstListedItem(response);
      if Truthy(first) then Resolved(first) else Rejected(ErrorInstance(HomePageNotFound))
  }

  /** `response.data.items` is an array holding `xs`. */
  predicate ListsItems(response: JsVal, xs: seq<JsVal>) {
    response.Obj? && "data" in response.props &&
    response.props["data"].Obj? && "items" in response.props["data"].props &&
    response.props["data"].props["items"] == Arr(xs)
  }

  /** The four calls request these four literal paths and return what the transport gives. */
  lemma RequestPaths(get: string -> Outcome, id: int)
    ensures GetPages(get) == get("/pages/")
    ensures GetPage(get, id) == get("/pages/" + Decimal.IntToDecimal(id) + "/")
    ensures GetImages(get) == get("/images/")
    ensures GetHomePage(get) == Then(get("/pages/?type=home.HomePage&fields=*"), SelectHomePage)
  {
  }

  /** Different page ids request different paths. */
  lemma PagePathInjective(a: int, b: int)
    ensures PagePath(a) == PagePath(b) ==> a == b
  {
    if PagePath(a) == PagePath(b) {
      Decimal.IntToDecimalInjective(a, b);
    }
  }

  /** No page id makes `getPage` hit the listing, home-page or image endpoints. */
  lemma PagePathIsNoFixedPath(id: int)
    ensures PagePath(id) != PagesPath
    ensures PagePath(id) != HomePagePath
    ensures PagePath(id) != ImagesPath
  {
  }

  /** A truthy first item is returned exactly. */
  lemma HomePageIsFirstItem(response: JsVal, xs: seq<JsVal>)
    requires ListsItems(response, xs) && |xs| > 0 && Truthy(xs[0])
    ensures SelectHomePage(response) == Resolved(xs[0])
  {
  }

  /** An empty listing, or one whose first item is falsy, fails with "HomePage not found". */
  lemma HomePageNotInListing(response: JsVal, xs: seq<JsVal>)
    requires ListsItems(response, xs) && (|xs| == 0 || !Truthy(xs[0]))
    ensures SelectHomePage(response) == Rejected(ErrorInstance("HomePage not found"))
  {
  }

  /** A missing `data` or a missing `items` short-circuits to the same failure. */
  lemma HomePageMissingListing(response: JsVal)
    requires !IsNullish(response)
    requires IsNullish(Get(response, "data")) || IsNullish(Get(Get(response, "data"), "items"))
    ensures SelectHomePage(response) == Rejected(ErrorInstance("HomePage not found"))
  {
  }

  /** Items after the first never affect the outcome. */
  lemma HomePageIgnoresLaterItems(r1: JsVal, r2: JsVal, xs: seq<JsVal>, ys: seq<JsVal>)
    requires ListsItems(r1, xs) && ListsItems(r2, ys)
    requires |xs| > 0 && |ys| > 0 && xs[0] == ys[0]
    ensures SelectHomePage(r1) == SelectHomePage(r2)
  {
  }

  /** A rejected request reaches the caller of `getHomePage` unchanged. */
  lemma HomePageRejectionPassesThrough(get: string -> Outcome)
    requires get(HomePagePath).Rejected?
    ensures GetHomePage(get) == get(HomePagePath)
  {
  }
}
