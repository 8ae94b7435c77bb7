/** Which requests the voting page issues after a render. Each effect of the
    page runs when one of its dependencies changed; the requests themselves
    (the list endpoints) stay abstract. The effects run in the order the page
    declares them, and `Dispatch` lists what they do in that order. */
module FetchDispatch {
  import opened Wrappers
  import opened AssetCodec
  import opened QueryNormaliser

  /** The effect dependencies that can change between two renders. */
  datatype Dep = LoggedIn | Sort | Page | BaseAsset | CounterAsset | ClaimablesLoaded | Tick

  /** What the effects read: the filter slots, the page number, whether the
      user is logged in and whether the claimable balances are loaded. */
  datatype PageInputs = PageInputs(filters: Filters, page: int, isLogged: bool, claimablesLoaded: bool)

  datatype Effect =
    | ResetSortToPopular                                        // changeSort(popular)
    | OpenLoginPrompt                                           // the login-method modal
    | StartLoading                                              // setPairsLoading(true)
    | FetchUserPairs                                            // getUserPairsList
    | FetchPage(sort: SortType, page: int)                      // getPairsList
    | FetchFiltered(base: Asset, counter: Option<Asset>, page: int) // getFilteredPairsList
    | RevalueShown                                              // updateVotesForMarketKeys

  /** A logged-out user cannot stay on "your votes": back to popular. */
  function LoginEffect(changed: set<Dep>, s: PageInputs): (r: seq<Effect>)
    ensures forall e :: e in r <==>
              e == ResetSortToPopular && LoggedIn in changed && s.filters.sort == Some(YourVotes) && !s.isLogged
  {
    if LoggedIn in changed && s.filters.sort == Some(YourVotes) && !s.isLogged then [ResetSortToPopular] else []
  }

  /** Entering "your votes" logged out opens the login prompt. */
  function PromptEffect(changed: set<Dep>, s: PageInputs): (r: seq<Effect>)
    ensures forall e :: e in r <==>
              e == OpenLoginPrompt && Sort in changed && s.filters.sort == Some(YourVotes) && !s.isLogged
  {
    if Sort in changed && s.filters.sort == Some(YourVotes) && !s.isLogged then [OpenLoginPrompt] else []
  }

  /** "Your votes" shows the loader and waits for the claimable balances. */
  function YourVotesEffect(changed: set<Dep>, s: PageInputs): (r: seq<Effect>)
    ensures forall e :: e in r <==>
              && (Sort in changed || ClaimablesLoaded in changed) && s.filters.sort == Some(YourVotes)
              && (e == StartLoading || (e == FetchUserPairs && s.claimablesLoaded))
  {
    if (Sort in changed || ClaimablesLoaded in changed) && s.filters.sort == Some(YourVotes) then
      [StartLoading] + (if s.claimablesLoaded then [FetchUserPairs] else [])
    else []
  }

  /** The poll tick re-fetches the page for "top voted" and otherwise only
      revalues the pairs on display. */
  function TickEffect(changed: set<Dep>, s: PageInputs): (r: seq<Effect>)
    ensures forall e :: e in r <==>
              && Tick in changed
              && (if s.filters.sort == Some(TopVoted) then e == FetchPage(TopVoted, s.page) else e == RevalueShown)
  {
    if Tick !in changed then []
    else if s.filters.sort == Some(TopVoted) then [FetchPage(TopVoted, s.page)]
    else [RevalueShown]
  }

  /** A sort mode other than "your votes" fetches its page. */
  function SortPageEffect(changed: set<Dep>, s: PageInputs): (r: seq<Effect>)
    ensures forall e :: e in r <==>
              && (Sort in changed || Page in changed) && s.filters.sort.Some? && s.filters.sort != Some(YourVotes)
              && (e == StartLoading || e == FetchPage(s.filters.sort.value, s.page))
  {
    if (Sort in changed || Page in changed) && s.filters.sort.Some? && s.filters.sort != Some(YourVotes) then
      [StartLoading, FetchPage(s.filters.sort.value, s.page)]
    else []
  }

  /** A base asset fetches the pairs filtered by base and counter. */
  function FilterEffect(changed: set<Dep>, s: PageInputs): (r: seq<Effect>)
    ensures forall e :: e in r <==>
              && (BaseAsset in changed || CounterAsset in changed || Page in changed) && s.filters.base.Some?
              && (e == StartLoading || e == FetchFiltered(s.filters.base.value, s.filters.counter, s.page))
  {
    if (BaseAsset in changed || CounterAsset in changed || Page in changed) && s.filters.base.Some? then
      [StartLoading, FetchFiltered(s.filters.base.value, s.filters.counter, s.page)]
    else []
  }

  /** Everything the page's effects do after a render in which `changed`
      changed. */
  function Dispatch(changed: set<Dep>, s: PageInputs): (r: seq<Effect>)
    ensures forall t, p :: FetchPage(t, p) in r <==>
              && s.filters.sort == Some(t) && p == s.page
              && ((t != YourVotes && (Sort in changed || Page in changed)) || (t == TopVoted && Tick in changed))
    ensures forall b, c, p :: FetchFiltered(b, c, p) in r <==>
              && s.filters.base == Some(b) && c == s.filters.counter && p == s.page
              && (BaseAsset in changed || CounterAsset in changed || Page in changed)
    ensures FetchUserPairs in r <==>
              s.filters.sort == Some(YourVotes) && s.claimablesLoaded && (Sort in changed || ClaimablesLoaded in changed)
    ensures RevalueShown in r <==> Tick in changed && s.filters.sort != Some(TopVoted)
    ensures OpenLoginPrompt in r <==> Sort in changed && s.filters.sort == Some(YourVotes) && !s.isLogged
    ensures ResetSortToPopular in r <==> LoggedIn in changed && s.filters.sort == Some(YourVotes) && !s.isLogged
  {
    var a, b, c := LoginEffect(changed, s), PromptEffect(changed, s), YourVotesEffect(changed, s);
    var d, e, g := TickEffect(changed, s), SortPageEffect(changed, s), FilterEffect(changed, s);
    var r := a + b + c + d + e + g;
    assert forall x :: x in r <==> x in a || x in b || x in c || x in d || x in e || x in g;
    r
  }

  /** With settled filters (a sort mode or a base asset, not both), the page
      never fetches a sorted page and a filtered list after the same render. */
  lemma OneListSource(changed: set<Dep>, s: PageInputs, t: SortType, p: int, b: Asset, c: Option<Asset>, p': int)
    requires s.filters.sort.Some? != s.filters.base.Some?
    ensures !(FetchPage(t, p) in Dispatch(changed, s) && FetchFiltered(b, c, p') in Dispatch(changed, s))
  {
  }

  /** Entering "your votes" logged out, before the claimable balances are
      loaded, prompts for a login and fetches no list at all. */
  lemma YourVotesLoggedOut(changed: set<Dep>, s: PageInputs)
    requires Sort in changed && s.filters == Filters(Some(YourVotes), None, None)
    requires !s.isLogged && !s.claimablesLoaded
    ensures var r := Dispatch(changed, s);
            && OpenLoginPrompt in r && FetchUserPairs !in r
            && (forall t, p :: FetchPage(t, p) !in r)
            && (forall b, c, p :: FetchFiltered(b, c, p) !in r)
  {
  }
}
