/**
 * Sequences of store actions, each fetch given how its API call settled,
 * and what holds of every state the store can reach.
 */
module StoreTraces {
  import opened Wrappers
  import opened JsValue
  import opened WagtailStore

  datatype Resource = Pages | CurrentPage | HomePage

  /** One completed action: a fetch with the outcome of its API call, or `clearError`. */
  datatype Action =
    | Fetch(resource: Resource, result: Outcome)
    | ClearError

  function Step(s: StoreState, a: Action): StoreState {
    match a
    case Fetch(Pages, result) => AfterFetchPages(s, result)
    case Fetch(CurrentPage, result) => AfterFetchPage(s, result)
    case Fetch(HomePage, result) => AfterFetchHomePage(s, result)
    case ClearError => AfterClearError(s)
  }

  function Run(s: StoreState, actions: seq<Action>): StoreState
    decreases |actions|
  {
    if actions == [] then s else Run(Step(s, actions[0]), actions[1..])
  }

  /** The data field a resource's fetch writes holds its empty value. */
  predicate FieldEmpty(s: StoreState, r: Resource) {
    match r
    case Pages => s.pages == []
    case CurrentPage => s.currentPage == Null
    case HomePage => s.homePage == Null
  }

  /** No fetch is in progress and the single-page fields hold null or an object. */
  predicate Settled(s: StoreState) {
    !s.isLoading && WellFormed(s)
  }

  /** An error is only ever shown beside an emptied field. */
  predicate ErrorBesideEmptyField(s: StoreState) {
    s.error != None ==> FieldEmpty(s, Pages) || FieldEmpty(s, CurrentPage) || FieldEmpty(s, HomePage)
  }

  lemma InitialIsSettled()
    ensures Settled(Initial()) && ErrorBesideEmptyField(Initial())
    ensures Initial().pages == [] && Initial().currentPage == Null && Initial().homePage == Null
    ensures !Initial().isLoading && Initial().error == None
  {
  }

  /** One step keeps the store settled, and a fetch step settles even a loading state. */
  lemma StepSettles(s: StoreState, a: Action)
    ensures a.Fetch? ==> !Step(s, a).isLoading
    ensures Settled(s) ==> Settled(Step(s, a))
    ensures ErrorBesideEmptyField(Step(s, a))
  {
  }

  /** A fetch writes only its own data field, besides the shared flag and message. */
  lemma FetchFrame(s: StoreState, r: Resource, result: Outcome)
    ensures r != Pages ==> Step(s, Fetch(r, result)).pages == s.pages
    ensures r != CurrentPage ==> Step(s, Fetch(r, result)).currentPage == s.currentPage
    ensures r != HomePage ==> Step(s, Fetch(r, result)).homePage == s.homePage
  {
  }

  /** After a fetch settles, an error message means that fetch's field is empty. */
  lemma FetchErrorEmptiesField(s: StoreState, r: Resource, result: Outcome)
    ensures Step(s, Fetch(r, result)).error != None ==> FieldEmpty(Step(s, Fetch(r, result)), r)
  {
  }

  lemma {:induction false} RunAppend(s: StoreState, actions: seq<Action>, a: Action)
    ensures Run(s, actions + [a]) == Step(Run(s, actions), a)
    decreases |actions|
  {
    if actions == [] {
      assert [a][1..] == [];
    } else {
      assert (actions + [a])[1..] == actions[1..] + [a];
      RunAppend(Step(s, actions[0]), actions[1..], a);
    }
  }

  /** Every state reached from a settled one is settled, and shows errors only beside an emptied field. */
  lemma {:induction false} RunStaysSettled(s: StoreState, actions: seq<Action>)
    requires Settled(s) && ErrorBesideEmptyField(s)
    ensures Settled(Run(s, actions)) && ErrorBesideEmptyField(Run(s, actions))
    decreases |actions|
  {
    if actions != [] {
      StepSettles(s, actions[0]);
      RunStaysSettled(Step(s, actions[0]), actions[1..]);
    }
  }

  /** No run from the initial state leaves the store loading. */
  lemma ReachableIsSettled(actions: seq<Action>)
    ensures !Run(Initial(), actions).isLoading
    ensures WellFormed(Run(Initial(), actions))
    ensures ErrorBesideEmptyField(Run(Initial(), actions))
  {
    InitialIsSettled();
    RunStaysSettled(Initial(), actions);
  }

  /** Whatever came before, a run ending in a failed fetch shows that fetch's field empty. */
  lemma LastFetchDecidesError(s: StoreState, actions: seq<Action>, r: Resource, result: Outcome)
    ensures var t := Run(s, actions + [Fetch(r, result)]);
            t.error != None ==> FieldEmpty(t, r)
  {
    RunAppend(s, actions, Fetch(r, result));
    FetchErrorEmptiesField(Run(s, actions), r, result);
  }

  /**
   * Fetching the same resource twice is the same as fetching it once with
   * the second outcome: there is no stale-value fallback and no memory of
   * the earlier result.
   */
  lemma RefetchForgetsEarlierResult(s: StoreState, r: Resource, first: Outcome, second: Outcome)
    ensures Step(Step(s, Fetch(r, first)), Fetch(r, second)) == Step(s, Fetch(r, second))
  {
  }

  /** `clearError` is idempotent, and a no-op when there is no error. */
  lemma ClearErrorIdempotent(s: StoreState)
    ensures Step(Step(s, ClearError), ClearError) == Step(s, ClearError)
    ensures s.error == None ==> Step(s, ClearError) == s
  {
  }

  /**
   * The error message is shared: a successful fetch of one resource erases
   * the message a failed fetch of another left, while that other field
   * stays empty.
   */
  lemma SuccessErasesOtherFailure(s: StoreState, failure: Thrown, page: JsVal)
    requires IsObjectLike(page)
    ensures var t := Run(s, [Fetch(Pages, Rejected(failure)), Fetch(CurrentPage, Resolved(page))]);
            t.pages == [] && t.currentPage == page && t.error == None
  {
    var actions := [Fetch(Pages, Rejected(failure)), Fetch(CurrentPage, Resolved(page))];
    var mid := Step(s, actions[0]);
    assert actions[1..] == [actions[1]] && [actions[1]][1..] == [];
    assert Run(mid, [actions[1]]) == Run(Step(mid, actions[1]), []);
    assert Run(s, actions) == Step(mid, actions[1]);
  }
}
