/** The voting page as a stateful component: the URL's query, the filter
    slots, the page number, the two loading flags and the ballot, with the
    stored copy of the ballot that survives a reload. Each handler of the
    page is a method that changes these fields; what it does is stated
    against the pure definitions of the other modules. */
module MainPage {
  import opened Wrappers
  import opened UrlQuery
  import opened UrlSearchParams
  import opened AssetCodec
  import opened QueryNormaliser
  import opened VotingPairs
  import opened FetchDispatch

  class VotingPage {
    /** The wallet SDK's acceptance rule for building assets. */
    const accepts: Validity
    /** `location.search` */
    var query: Query
    var sort: Option<SortType>
    var searchBase: Option<Asset>
    var searchCounter: Option<Asset>
    var page: int
    var pairsLoading: bool
    var changePageLoading: bool
    var chosenPairs: seq<PairStats>
    /** The ballot under the `selected pairs` storage key, if any. */
    var storedPairs: Option<seq<PairStats>>

    function CurrentFilters(): Filters
      reads this
    {
      Filters(sort, searchBase, searchCounter)
    }

    /** The ballot on screen is the one in storage. */
    ghost predicate BallotInSync()
      reads this
    {
      LoadChosen(storedPairs) == chosenPairs
    }

    /** The first render: the ballot comes from storage, no filter is set,
        page 1, nothing loading. */
    constructor (search: Query, stored: Option<seq<PairStats>>, accepts: Validity)
      ensures this.accepts == accepts && query == search && storedPairs == stored
      ensures CurrentFilters() == Filters(None, None, None) && page == 1
      ensures !pairsLoading && !changePageLoading
      ensures BallotInSync()
    {
      this.accepts := accepts;
      query := search;
      storedPairs := stored;
      chosenPairs := LoadChosen(stored);
      sort, searchBase, searchCounter := None, None, None;
      page := 1;
      pairsLoading, changePageLoading := false, false;
    }

    /** The location effect: one run on the current query. Every edit of the
        local parameters is followed by `history.replace`, which writes them
        back to `query`. */
    method LocationEffect() returns (rewritten: bool)
      modifies this
      ensures RunPass(old(query), old(CurrentFilters()), accepts) == PassOutcome(query, rewritten, CurrentFilters())
      ensures page == old(page) && pairsLoading == old(pairsLoading) && changePageLoading == old(changePageLoading)
      ensures chosenPairs == old(chosenPairs) && storedPairs == old(storedPairs)
    {
      var params := new SearchParams(query);
      if !params.Has(SORT) && !params.Has(BASE) && !params.Has(COUNTER) {
        params.Append(SORT, SortValue(Popular));
        query := params.entries;
        return true;
      }
      if params.Has(SORT) && (params.Has(BASE) || params.Has(COUNTER)) {
        params.Delete(BASE);
        params.Delete(COUNTER);
        query := params.entries;
        return true;
      }
      var promote := params.Has(COUNTER) && !params.Has(BASE);
      if promote {
        params.Append(BASE, params.Get(COUNTER).value);
        params.Delete(COUNTER);
        query := params.entries;
      }
      rewritten := CheckAndAdoptParams(params, promote);
    }

    /** The location effect from the equal-counter check on, with the URL
        already holding the local parameters. */
    method CheckAndAdoptParams(params: SearchParams, promoted: bool) returns (rewritten: bool)
      requires params.entries == query
      modifies this, params
      ensures CheckAndAdopt(old(query), promoted, old(CurrentFilters()), accepts) == PassOutcome(query, rewritten, CurrentFilters())
      ensures page == old(page) && pairsLoading == old(pairsLoading) && changePageLoading == old(changePageLoading)
      ensures chosenPairs == old(chosenPairs) && storedPairs == old(storedPairs)
    {
      var base := params.Get(BASE);
      if base.Some? && base.value != "" && base == params.Get(COUNTER) {
        params.Delete(COUNTER);
        query := params.entries;
        return true;
      }
      if params.Has(SORT) && ParseSort(params.Get(SORT).value).None? {
        params.Delete(SORT);
        query := params.entries;
        return true;
      }
      rewritten := AdoptParams(params, promoted);
    }

    /** The adoption at the end of the location effect. */
    method AdoptParams(params: SearchParams, promoted: bool) returns (rewritten: bool)
      requires params.entries == query
      modifies this, params
      ensures AdoptAll(old(query), promoted, old(CurrentFilters()), accepts) == PassOutcome(query, rewritten, CurrentFilters())
      ensures page == old(page) && pairsLoading == old(pairsLoading) && changePageLoading == old(changePageLoading)
      ensures chosenPairs == old(chosenPairs) && storedPairs == old(storedPairs)
    {
      ghost var q0, f0 := query, CurrentFilters();
      rewritten := promoted;
      if params.Has(SORT) {
        sort := ParseSort(params.Get(SORT).value);
      } else {
        sort := None;
      }
      var failedBase, base := AdoptSlot(params, BASE, searchBase);
      searchBase := base;
      if failedBase {
        query := params.entries;
        rewritten := true;
      }
      ghost var q2 := params.entries;
      assert AdoptAsset(q0, BASE, f0.base, accepts) == (q2, failedBase, base);
      var failedCounter, counter := AdoptSlot(params, COUNTER, searchCounter);
      searchCounter := counter;
      if failedCounter {
        query := params.entries;
        rewritten := true;
      }
      assert AdoptAsset(q2, COUNTER, f0.counter, accepts) == (params.entries, failedCounter, counter);
    }

    /** One asset slot: an absent parameter clears it, a decodable one sets
        it, and one that does not decode is deleted from the URL while the
        slot keeps `current`. */
    method AdoptSlot(params: SearchParams, key: string, current: Option<Asset>) returns (failed: bool, slot: Option<Asset>)
      modifies params
      ensures AdoptAsset(old(params.entries), key, current, accepts) == (params.entries, failed, slot)
    {
      if !params.Has(key) {
        return false, None;
      }
      match Decode(params.Get(key).value, accepts)
      case Ok(a) =>
        return false, Some(a);
      case Err(_) =>
        params.Delete(key);
        return true, current;
    }

    /** `changeSort(t)`: push the query with `sort` set and both asset
        parameters gone, and go back to page 1. */
    method ChangeSort(t: SortType)
      modifies this
      ensures query == SortChanged(old(query), t) && page == 1
      ensures CurrentFilters() == old(CurrentFilters())
      ensures pairsLoading == old(pairsLoading) && changePageLoading == old(changePageLoading)
      ensures chosenPairs == old(chosenPairs) && storedPairs == old(storedPairs)
    {
      var params := new SearchParams(query);
      params.Set(SORT, SortValue(t));
      params.Delete(BASE);
      params.Delete(COUNTER);
      query := params.entries;
      page := 1;
    }

    /** `changeBaseSearch(asset)`: push the query without `sort` and with
        `base` set to the encoded asset (or gone), show the loader and go
        back to page 1. When the SDK refuses the asset the exception leaves
        the handler before anything changed. */
    method ChangeBaseSearch(asset: Option<AssetFields>) returns (thrown: bool)
      modifies this
      ensures thrown <==> asset.Some? && !accepts(asset.value.code, asset.value.issuer)
      ensures thrown ==> unchanged(this)
      ensures !thrown ==>
                && query == BaseChanged(old(query), if asset.Some? then Some(AssetToUrlParam(asset.value, accepts).value) else None)
                && pairsLoading && page == 1
                && CurrentFilters() == old(CurrentFilters()) && changePageLoading == old(changePageLoading)
                && chosenPairs == old(chosenPairs) && storedPairs == old(storedPairs)
    {
      var params := new SearchParams(query);
      params.Delete(SORT);
      if asset.Some? {
        match AssetToUrlParam(asset.value, accepts)
        case Err(_) =>
          return true;
        case Ok(p) =>
          params.Set(BASE, p);
      } else {
        params.Delete(BASE);
      }
      query := params.entries;
      pairsLoading := true;
      page := 1;
      return false;
    }

    /** `changeCounterSearch(asset)`: as `ChangeBaseSearch`, for `counter`. */
    method ChangeCounterSearch(asset: Option<AssetFields>) returns (thrown: bool)
      modifies this
      ensures thrown <==> asset.Some? && !accepts(asset.value.code, asset.value.issuer)
      ensures thrown ==> unchanged(this)
      ensures !thrown ==>
                && query == CounterChanged(old(query), if asset.Some? then Some(AssetToUrlParam(asset.value, accepts).value) else None)
                && pairsLoading && page == 1
                && CurrentFilters() == old(CurrentFilters()) && changePageLoading == old(changePageLoading)
                && chosenPairs == old(chosenPairs) && storedPairs == old(storedPairs)
    {
      var params := new SearchParams(query);
      params.Delete(SORT);
      if asset.Some? {
        match AssetToUrlParam(asset.value, accepts)
        case Err(_) =>
          return true;
        case Ok(p) =>
          params.Set(COUNTER, p);
      } else {
        params.Delete(COUNTER);
      }
      query := params.entries;
      pairsLoading := true;
      page := 1;
      return false;
    }

    /** `changePage(p)` */
    method ChangePage(p: int)
      modifies this
      ensures page == p && changePageLoading
      ensures query == old(query) && CurrentFilters() == old(CurrentFilters()) && pairsLoading == old(pairsLoading)
      ensures chosenPairs == old(chosenPairs) && storedPairs == old(storedPairs)
    {
      page := p;
      changePageLoading := true;
    }

    /** `onVoteClick(pair)`: the pair's key flips in or out of the ballot,
        and the new ballot is written to storage. */
    method OnVoteClick(pair: PairStats)
      modifies this
      ensures chosenPairs == Toggle(old(chosenPairs), pair)
      ensures IsChosen(chosenPairs, pair.marketKey) <==> !IsChosen(old(chosenPairs), pair.marketKey)
      ensures BallotInSync()
      ensures query == old(query) && CurrentFilters() == old(CurrentFilters()) && page == old(page)
      ensures pairsLoading == old(pairsLoading) && changePageLoading == old(changePageLoading)
    {
      if IsChosen(chosenPairs, pair.marketKey) {
        chosenPairs := WithoutKey(chosenPairs, pair.marketKey);
      } else {
        chosenPairs := chosenPairs + [pair];
      }
      storedPairs := Some(chosenPairs);
    }

    /** `updateChosenPairs`: re-read the ballot from storage, after the
        voting form may have changed it. */
    method ReloadChosenPairs()
      modifies this
      ensures chosenPairs == LoadChosen(storedPairs) && storedPairs == old(storedPairs)
      ensures BallotInSync()
      ensures query == old(query) && CurrentFilters() == old(CurrentFilters()) && page == old(page)
      ensures pairsLoading == old(pairsLoading) && changePageLoading == old(changePageLoading)
    {
      chosenPairs := LoadChosen(storedPairs);
    }

    /** The effects after a render in which `changed` changed: the ones
        `Dispatch` lists run, a logged-out "your votes" goes back to
        "popular" through `changeSort`, and a fetch shows the loader. The
        requests themselves are returned, not made. */
    method AfterRender(changed: set<Dep>, isLogged: bool, claimablesLoaded: bool) returns (effects: seq<Effect>)
      modifies this
      ensures effects == Dispatch(changed, PageInputs(old(CurrentFilters()), old(page), isLogged, claimablesLoaded))
      ensures pairsLoading == (old(pairsLoading) || StartLoading in effects)
      ensures ResetSortToPopular in effects ==> query == SortChanged(old(query), Popular) && page == 1
      ensures ResetSortToPopular !in effects ==> query == old(query) && page == old(page)
      ensures CurrentFilters() == old(CurrentFilters()) && changePageLoading == old(changePageLoading)
      ensures chosenPairs == old(chosenPairs) && storedPairs == old(storedPairs)
    {
      effects := Dispatch(changed, PageInputs(CurrentFilters(), page, isLogged, claimablesLoaded));
      if ResetSortToPopular in effects {
        ChangeSort(Popular);
      }
      if StartLoading in effects {
        pairsLoading := true;
      }
    }

    /** A list request resolved with `pairs`: both loaders stop, and both
        assets of every pair are handed to the asset store. */
    method OnListLoaded(pairs: seq<PairStats>) returns (assets: seq<AssetSimple>)
      modifies this
      ensures !pairsLoading && !changePageLoading
      ensures assets == AssetsOfPairs(pairs)
      ensures query == old(query) && CurrentFilters() == old(CurrentFilters()) && page == old(page)
      ensures chosenPairs == old(chosenPairs) && storedPairs == old(storedPairs)
    {
      pairsLoading, changePageLoading := false, false;
      assets := AssetsOfPairs(pairs);
    }

    /** The tick's re-fetch of a "top voted" page resolved with `pairs`:
        their assets go to the asset store, and the loaders are left as
        they were. */
    method OnTickPageLoaded(pairs: seq<PairStats>) returns (assets: seq<AssetSimple>)
      ensures assets == AssetsOfPairs(pairs)
    {
      assets := AssetsOfPairs(pairs);
    }
  }

  /** Choosing "top voted" on a later page of "popular". The navigation
      changes the page at once but the sort only after the location effect,
      so the render after it still fetches page 1 of "popular", and the next
      render fetches page 1 of "top voted". All effects of one render read
      that render's state, so the location effect runs after the others
      here. */
  method ChooseTopVoted(p: VotingPage, isLogged: bool, loaded: bool) returns (first: seq<Effect>, second: seq<Effect>)
    requires p.CurrentFilters() == Filters(Some(Popular), None, None) && p.page != 1
    modifies p
    ensures FetchPage(Popular, 1) in first && FetchPage(TopVoted, 1) !in first
    ensures FetchPage(TopVoted, 1) in second && FetchPage(Popular, 1) !in second
    ensures forall b, c, n :: FetchFiltered(b, c, n) !in first && FetchFiltered(b, c, n) !in second
    ensures p.CurrentFilters() == Filters(Some(TopVoted), None, None) && p.page == 1
  {
    ChangeSortSettles(p.query, TopVoted, p.CurrentFilters(), p.accepts);
    p.ChangeSort(TopVoted);
    first := p.AfterRender({Page}, isLogged, loaded);
    var rewritten := p.LocationEffect();
    second := p.AfterRender({Sort}, isLogged, loaded);
  }

  /** Choosing a base asset on a later page of "popular": one navigation
      requests page 1 of "popular" in the first render and the filtered list
      in the next one. */
  method ChooseBaseFromSort(p: VotingPage, fields: AssetFields, isLogged: bool, loaded: bool)
    returns (first: seq<Effect>, second: seq<Effect>)
    requires p.CurrentFilters() == Filters(Some(Popular), None, None) && p.page != 1 && !Has(p.query, COUNTER)
    requires p.accepts(fields.code, fields.issuer)
    requires ':' !in fields.code && (fields.issuer.Some? ==> ':' !in fields.issuer.value)
    modifies p
    ensures var a := CreateAsset(fields.code, fields.issuer, p.accepts).value;
            && FetchPage(Popular, 1) in first && (forall b, c, n :: FetchFiltered(b, c, n) !in first)
            && FetchFiltered(a, None, 1) in second && (forall t, n :: FetchPage(t, n) !in second)
            && p.CurrentFilters() == Filters(None, Some(a), None) && p.page == 1
  {
    ParamRoundTrip(fields, p.accepts);
    var e := AssetToUrlParam(fields, p.accepts).value;
    BaseFromSortQuiet(p.query, e, p.CurrentFilters(), p.accepts);
    var thrown := p.ChangeBaseSearch(Some(fields));
    first := p.AfterRender({Page}, isLogged, loaded);
    var rewritten := p.LocationEffect();
    second := p.AfterRender({Sort, BaseAsset}, isLogged, loaded);
  }

  /** Choosing a pair and clicking it again leaves the page with the ballot
      it had, in the same order, both on screen and in storage. */
  method VoteTwice(p: VotingPage, pair: PairStats)
    requires !IsChosen(p.chosenPairs, pair.marketKey) && p.BallotInSync()
    modifies p
    ensures p.chosenPairs == old(p.chosenPairs) && p.BallotInSync()
  {
    p.OnVoteClick(pair);
    p.OnVoteClick(pair);
    ToggleTwice(old(p.chosenPairs), pair);
  }
}
