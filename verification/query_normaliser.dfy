/** The voting page's URL normaliser: one run of the location effect reads the
    `sort`, `base` and `counter` parameters, rewrites the URL when they are
    inconsistent and otherwise adopts them as the page's filters. Every
    rewrite changes the location, which runs the effect again, so the page
    settles on a query on which the effect no longer rewrites anything.

    `RunPass` is one run of the effect as a value; `Settle` is the repetition
    driven by the router. The main results: a pass is quiet exactly on a
    `Stable` query, every rewrite lowers `Rank` (at most 3), so the page
    settles after at most four runs, and the settled filters are either
    sort-driven or asset-driven, never both. */
module QueryNormaliser {
  import opened Wrappers
  import opened UrlQuery
  import opened AssetCodec

  const SORT: string := "sort"
  const BASE: string := "base"
  const COUNTER: string := "counter"

  lemma KeysDistinct()
    ensures SORT != BASE && SORT != COUNTER && BASE != COUNTER
  {
    assert SORT[0] != BASE[0] && SORT[0] != COUNTER[0] && BASE[0] != COUNTER[0];
  }

  /** The three sort modes of the list. */
  datatype SortType = Popular | TopVoted | YourVotes

  /** The string each sort mode has in the URL. */
  function SortValue(t: SortType): string
  {
    match t
    case Popular => "popular"
    case TopVoted => "topVoted"
    case YourVotes => "yourVotes"
  }

  /** `Object.values(SortTypes).includes(s)`, answering with the mode. */
  function ParseSort(s: string): (r: Option<SortType>)
    ensures r.Some? ==> SortValue(r.value) == s
    ensures forall t :: SortValue(t) == s ==> r == Some(t)
  {
    if s == "popular" then Some(Popular)
    else if s == "topVoted" then Some(TopVoted)
    else if s == "yourVotes" then Some(YourVotes)
    else None
  }

  /** The page's filter state slots: `sort`, `searchBase`, `searchCounter`. */
  datatype Filters = Filters(sort: Option<SortType>, base: Option<Asset>, counter: Option<Asset>)

  /** What one run of the location effect leaves behind: the URL's query,
      whether it called `history.replace`, and the filter slots. */
  datatype PassOutcome = PassOutcome(query: Query, rewritten: bool, filters: Filters)

  /** Adopting one asset slot: an absent parameter clears the slot, a
      decodable one sets it, and one that fails to decode is stripped from
      the query while the slot keeps its previous value. */
  function AdoptAsset(q: Query, key: string, current: Option<Asset>, accepts: Validity): (r: (Query, bool, Option<Asset>))
    ensures r.1 <==> Has(q, key) && Decode(Get(q, key).value, accepts).Err?
    ensures !r.1 ==> r.0 == q && r.2 == DecodedParam(q, key, accepts)
    ensures r.1 ==> r.0 == Without(q, key) && !Has(r.0, key) && r.2 == current
  {
    if !Has(q, key) then (q, false, None)
    else match Decode(Get(q, key).value, accepts)
      case Ok(a) => (q, false, Some(a))
      case Err(_) => (Without(q, key), true, current)
  }

  /** One run of the location effect on the query `q`, with filter slots `f`. */
  function RunPass(q: Query, f: Filters, accepts: Validity): (r: PassOutcome)
    ensures !r.rewritten ==> r.query == q && r.filters == Adopted(q, accepts)
    ensures r.rewritten && !Has(q, SORT) && !Has(q, BASE) && !Has(q, COUNTER) ==> r.filters == f
  {
    if !Has(q, SORT) && !Has(q, BASE) && !Has(q, COUNTER) then
      PassOutcome(Appended(q, SORT, SortValue(Popular)), true, f)
    else if Has(q, SORT) && (Has(q, BASE) || Has(q, COUNTER)) then
      PassOutcome(Without(Without(q, BASE), COUNTER), true, f)
    else
      // promoting counter to base rewrites the URL but does not end the run
      var promote := Has(q, COUNTER) && !Has(q, BASE);
      CheckAndAdopt(if promote then Promoted(q) else q, promote, f, accepts)
  }

  /** A lone `counter` moved to the end as `base`. */
  function Promoted(q: Query): (r: Query)
    requires Has(q, COUNTER)
    ensures !Has(r, COUNTER)
    ensures !Has(q, BASE) ==> Get(r, BASE) == Get(q, COUNTER)
    ensures Has(q, BASE) ==> Get(r, BASE) == Get(q, BASE)
    ensures forall k :: k != BASE && k != COUNTER ==> Get(r, k) == Get(q, k)
  {
    KeysDistinct();
    Without(Appended(q, BASE, Get(q, COUNTER).value), COUNTER)
  }

  /** The rest of a run once `sort` and the asset parameters no longer
      clash: the equal-counter and invalid-sort checks, then adoption.
      `rewritten` says whether the run already replaced the URL. */
  function CheckAndAdopt(q: Query, rewritten: bool, f: Filters, accepts: Validity): (r: PassOutcome)
    ensures rewritten ==> r.rewritten
    ensures !r.rewritten ==> r.query == q && r.filters == Adopted(q, accepts)
  {
    if Get(q, BASE).Some? && Get(q, BASE).value != "" && Get(q, BASE) == Get(q, COUNTER) then
      PassOutcome(Without(q, COUNTER), true, f)
    else if Has(q, SORT) && ParseSort(Get(q, SORT).value).None? then
      PassOutcome(Without(q, SORT), true, f)
    else AdoptAll(q, rewritten, f, accepts)
  }

  /** Adoption: the sort mode, then the base, then the counter. */
  function AdoptAll(q: Query, rewritten: bool, f: Filters, accepts: Validity): (r: PassOutcome)
    ensures rewritten ==> r.rewritten
    ensures !r.rewritten ==> r.query == q && r.filters == Adopted(q, accepts)
    ensures r.filters.sort == (if Has(q, SORT) then ParseSort(Get(q, SORT).value) else None)
  {
    var sort := if Has(q, SORT) then ParseSort(Get(q, SORT).value) else None;
    var b := AdoptAsset(q, BASE, f.base, accepts);
    var c := AdoptAsset(b.0, COUNTER, f.counter, accepts);
    PassOutcome(c.0, rewritten || b.1 || c.1, Filters(sort, b.2, c.2))
  }

  /** A query on which the effect rewrites nothing. */
  predicate Stable(q: Query, accepts: Validity)
    ensures Stable(q, accepts) ==> Has(q, SORT) != Has(q, BASE)
  {
    && (Has(q, SORT) || Has(q, BASE) || Has(q, COUNTER))
    && !(Has(q, SORT) && (Has(q, BASE) || Has(q, COUNTER)))
    && (Has(q, COUNTER) ==> Has(q, BASE))
    && !(Get(q, BASE).Some? && Get(q, BASE).value != "" && Get(q, BASE) == Get(q, COUNTER))
    && (Has(q, SORT) ==> ParseSort(Get(q, SORT).value).Some?)
    && (Has(q, BASE) ==> Decode(Get(q, BASE).value, accepts).Ok?)
    && (Has(q, COUNTER) ==> Decode(Get(q, COUNTER).value, accepts).Ok?)
  }

  /** The asset a parameter decodes to, if it is present and decodes. */
  function DecodedParam(q: Query, key: string, accepts: Validity): Option<Asset>
  {
    if Has(q, key) && Decode(Get(q, key).value, accepts).Ok? then Some(Decode(Get(q, key).value, accepts).value)
    else None
  }

  /** The filters read off a query, as a quiet run adopts them. */
  function Adopted(q: Query, accepts: Validity): Filters
  {
    Filters(if Has(q, SORT) then ParseSort(Get(q, SORT).value) else None,
            DecodedParam(q, BASE, accepts), DecodedParam(q, COUNTER, accepts))
  }

  /** A run is quiet exactly on a stable query, and then it leaves the query
      as it was and adopts every parameter. */
  lemma QuietIffStable(q: Query, f: Filters, accepts: Validity)
    ensures !RunPass(q, f, accepts).rewritten <==> Stable(q, accepts)
    ensures Stable(q, accepts) ==>
              RunPass(q, f, accepts).query == q && RunPass(q, f, accepts).filters == Adopted(q, accepts)
  {
  }

  /** The filters adopted from a stable query are either sort-driven or
      asset-driven, as its parameters are. */
  lemma StableAdoptsOneMode(q: Query, accepts: Validity)
    requires Stable(q, accepts)
    ensures Adopted(q, accepts).sort.Some? <==> Has(q, SORT)
    ensures Adopted(q, accepts).base.Some? <==> Has(q, BASE)
    ensures Adopted(q, accepts).counter.Some? <==> Has(q, COUNTER)
    ensures Adopted(q, accepts).sort.Some? != Adopted(q, accepts).base.Some?
  {
  }

  /** How many more rewrites a query can cause at most. */
  function Rank(q: Query, accepts: Validity): (r: nat)
    ensures r == 0 <==> Stable(q, accepts)
    ensures r <= 3
  {
    if Stable(q, accepts) then 0
    else if !Has(q, SORT) && !Has(q, BASE) && !Has(q, COUNTER) then 1
    else if !Has(q, BASE) && !Has(q, COUNTER) then 2
    else if !Has(q, SORT) && Has(q, BASE) != Has(q, COUNTER) then 2
    else 3
  }

  /** Every rewrite strictly lowers the rank, so the re-runs terminate. */
  lemma PassProgress(q: Query, f: Filters, accepts: Validity)
    ensures RunPass(q, f, accepts).rewritten ==> Rank(RunPass(q, f, accepts).query, accepts) < Rank(q, accepts)
  {
    var o := RunPass(q, f, accepts);
    KeysDistinct();
    if !Has(q, SORT) && !Has(q, BASE) && !Has(q, COUNTER) {
      assert Stable(o.query, accepts);
    } else if Has(q, SORT) && (Has(q, BASE) || Has(q, COUNTER)) {
      assert !Has(o.query, BASE) && !Has(o.query, COUNTER) && Has(o.query, SORT);
      assert Rank(o.query, accepts) <= 2;
    } else if Has(q, COUNTER) && !Has(q, BASE) {
      // the promoted value is adopted in the same run, or stripped with it
      var v := Get(q, COUNTER).value;
      var q1 := Without(Appended(q, BASE, v), COUNTER);
      assert !Has(q, SORT) && Get(q1, BASE) == Some(v) && !Has(q1, COUNTER) && !Has(q1, SORT);
      if Decode(v, accepts).Ok? {
        assert o.query == q1;
        assert Stable(q1, accepts);
      } else {
        assert o.query == Without(q1, BASE);
        assert Rank(o.query, accepts) == 1;
      }
    } else if !Has(q, SORT) && Has(q, BASE) && Has(q, COUNTER) {
      assert Rank(q, accepts) == 3 || Stable(q, accepts);
      if o.rewritten {
        assert !Stable(q, accepts);
        assert !Has(o.query, SORT);
        assert !(Has(o.query, BASE) && Has(o.query, COUNTER));
      }
    } else if !Has(q, SORT) {
      assert Has(q, BASE) && !Has(q, COUNTER);
      if o.rewritten {
        assert !Has(o.query, SORT) && !Has(o.query, BASE) && !Has(o.query, COUNTER);
      }
    } else {
      assert !Has(q, BASE) && !Has(q, COUNTER);
      if o.rewritten {
        assert o.query == Without(q, SORT);
      }
    }
  }

  datatype Settled = Settled(query: Query, filters: Filters, passes: nat)

  /** Running the effect until it stops rewriting the URL. The query it
      settles on is stable, the filters are the ones read off that query, at
      most four runs happen, and exactly one of sort-driven and asset-driven
      listing is selected, with a counter asset only beside a base asset. */
  function Settle(q: Query, f: Filters, accepts: Validity): (s: Settled)
    ensures Stable(s.query, accepts)
    ensures s.filters == Adopted(s.query, accepts)
    ensures 1 <= s.passes <= Rank(q, accepts) + 1 <= 4
    ensures s.filters.sort.Some? != s.filters.base.Some?
    ensures s.filters.counter.Some? ==> s.filters.base.Some?
    decreases Rank(q, accepts)
  {
    var o := RunPass(q, f, accepts);
    PassProgress(q, f, accepts);
    QuietIffStable(q, f, accepts);
    if !o.rewritten then Settled(q, o.filters, 1)
    else
      var s := Settle(o.query, o.filters, accepts);
      Settled(s.query, s.filters, s.passes + 1)
  }

  /** With none of the three parameters, `sort=popular` is appended and the
      run ends without adopting anything. */
  lemma DefaultsToPopular(q: Query, f: Filters, accepts: Validity)
    requires !Has(q, SORT) && !Has(q, BASE) && !Has(q, COUNTER)
    ensures var o := RunPass(q, f, accepts);
            o.rewritten && o.query == q + [Param(SORT, "popular")] && o.filters == f
  {
  }

  /** Sort wins: with `sort` beside `base` or `counter`, both asset
      parameters go, `sort` and every other parameter stay, and the run ends
      without adopting anything. */
  lemma SortWins(q: Query, f: Filters, accepts: Validity)
    requires Has(q, SORT) && (Has(q, BASE) || Has(q, COUNTER))
    ensures var o := RunPass(q, f, accepts);
            && o.rewritten && o.filters == f
            && !Has(o.query, BASE) && !Has(o.query, COUNTER)
            && forall k :: k != BASE && k != COUNTER ==> Get(o.query, k) == Get(q, k)
  {
  }

  /** A lone `counter` becomes `base`; the run goes on to adopt the rewritten
      query: the promoted asset when it decodes, otherwise it is stripped
      too and the base slot keeps its value. */
  lemma CounterPromoted(q: Query, f: Filters, accepts: Validity)
    requires !Has(q, SORT) && Has(q, COUNTER) && !Has(q, BASE)
    ensures var o := RunPass(q, f, accepts);
            var v := Get(q, COUNTER).value;
            && o.rewritten && !Has(o.query, COUNTER) && !Has(o.query, SORT)
            && o.filters.sort == None && o.filters.counter == None
            && (Decode(v, accepts).Ok? ==> Get(o.query, BASE) == Some(v) && o.filters.base == Some(Decode(v, accepts).value))
            && (Decode(v, accepts).Err? ==> !Has(o.query, BASE) && o.filters.base == f.base)
  {
    KeysDistinct();
  }

  /** A non-empty `base` equal, as a string, to `counter` drops `counter`
      and ends the run. */
  lemma EqualCounterDropped(q: Query, f: Filters, accepts: Validity, b: string)
    requires !Has(q, SORT) && Get(q, BASE) == Some(b) && b != "" && Get(q, COUNTER) == Some(b)
    ensures RunPass(q, f, accepts) == PassOutcome(Without(q, COUNTER), true, f)
  {
  }

  /** A `sort` outside the three modes is deleted and the run ends. */
  lemma InvalidSortDropped(q: Query, f: Filters, accepts: Validity)
    requires Has(q, SORT) && !Has(q, BASE) && !Has(q, COUNTER)
    requires ParseSort(Get(q, SORT).value).None?
    ensures RunPass(q, f, accepts) == PassOutcome(Without(q, SORT), true, f)
  {
  }

  /** An asset parameter that reaches adoption and fails to decode is
      stripped from the URL, and its slot keeps the value it had. */
  lemma DecodeFailureStrips(q: Query, f: Filters, accepts: Validity)
    requires !Has(q, SORT) && Has(q, BASE)
    requires !(Get(q, BASE).value != "" && Get(q, BASE) == Get(q, COUNTER))
    ensures Decode(Get(q, BASE).value, accepts).Err? ==>
              var o := RunPass(q, f, accepts);
              o.rewritten && !Has(o.query, BASE) && o.filters.base == f.base
    ensures Has(q, COUNTER) && Decode(Get(q, COUNTER).value, accepts).Err? ==>
              var o := RunPass(q, f, accepts);
              o.rewritten && !Has(o.query, COUNTER) && o.filters.counter == f.counter
  {
    KeysDistinct();
  }

  /** The base/counter check compares the raw strings, not the assets they
      name: a counter that splits into the same code and issuer as the base
      is kept, and both slots then hold the same asset. */
  lemma RawComparisonKeepsSameAsset(code: string, issuer: string, extra: string, accepts: Validity)
    requires WellFormed(Credit(code, issuer), accepts) && ':' !in extra
    ensures var q := [Param(BASE, Encode(Credit(code, issuer))), Param(COUNTER, code + ":" + issuer + ":" + extra)];
            && Stable(q, accepts)
            && Adopted(q, accepts).base == Adopted(q, accepts).counter == Some(Credit(code, issuer))
  {
    KeysDistinct();
    RoundTrip(Credit(code, issuer), accepts);
    ExtraPieceIgnored(code, issuer, extra, accepts);
    var q := [Param(BASE, Encode(Credit(code, issuer))), Param(COUNTER, code + ":" + issuer + ":" + extra)];
    assert q[1..][1..] == [];
    assert !Has(q[1..][1..], SORT);
    assert !Has(q, SORT);
  }

  /** Re-running the effect on a settled query changes nothing. */
  lemma SettleIdempotent(q: Query, f: Filters, g: Filters, accepts: Validity)
    ensures var s := Settle(q, f, accepts);
            Settle(s.query, g, accepts) == Settled(s.query, s.filters, 1)
  {
    var s := Settle(q, f, accepts);
    QuietIffStable(s.query, g, accepts);
  }

  /** `changeSort(t)`: set `sort`, delete `base` and `counter`. */
  function SortChanged(q: Query, t: SortType): (r: Query)
    ensures Get(r, SORT) == Some(SortValue(t)) && !Has(r, BASE) && !Has(r, COUNTER)
    ensures forall k :: k != SORT && k != BASE && k != COUNTER ==> Get(r, k) == Get(q, k)
  {
    KeysDistinct();
    Without(Without(Replaced(q, SORT, SortValue(t)), BASE), COUNTER)
  }

  /** `changeBaseSearch`: delete `sort`, then set `base` to the encoded asset
      or delete it when the selector was cleared. */
  function BaseChanged(q: Query, param: Option<string>): (r: Query)
    ensures !Has(r, SORT) && Get(r, BASE) == param
    ensures forall k :: k != SORT && k != BASE ==> Get(r, k) == Get(q, k)
  {
    KeysDistinct();
    var q1 := Without(q, SORT);
    if param.Some? then Replaced(q1, BASE, param.value) else Without(q1, BASE)
  }

  /** `changeCounterSearch`: delete `sort`, then set or delete `counter`. */
  function CounterChanged(q: Query, param: Option<string>): (r: Query)
    ensures !Has(r, SORT) && Get(r, COUNTER) == param
    ensures forall k :: k != SORT && k != COUNTER ==> Get(r, k) == Get(q, k)
  {
    KeysDistinct();
    var q1 := Without(q, SORT);
    if param.Some? then Replaced(q1, COUNTER, param.value) else Without(q1, COUNTER)
  }

  /** After choosing a sort mode the URL is already settled: one quiet run
      adopts that mode and clears both asset slots. */
  lemma ChangeSortSettles(q: Query, t: SortType, f: Filters, accepts: Validity)
    ensures Settle(SortChanged(q, t), f, accepts) == Settled(SortChanged(q, t), Filters(Some(t), None, None), 1)
    ensures RunPass(SortChanged(q, t), f, accepts) == PassOutcome(SortChanged(q, t), false, Filters(Some(t), None, None))
  {
    var r := SortChanged(q, t);
    KeysDistinct();
    assert Stable(r, accepts);
    QuietIffStable(r, f, accepts);
  }

  /** Once the query has no `sort` and a `base` that decodes, every later
      run keeps that `base`. */
  lemma {:induction false} SettleKeepsBase(q: Query, f: Filters, accepts: Validity, e: string)
    requires !Has(q, SORT) && Get(q, BASE) == Some(e) && Decode(e, accepts).Ok?
    ensures Get(Settle(q, f, accepts).query, BASE) == Some(e)
    decreases Rank(q, accepts)
  {
    var o := RunPass(q, f, accepts);
    KeysDistinct();
    if o.rewritten {
      PassProgress(q, f, accepts);
      SettleKeepsBase(o.query, o.filters, accepts, e);
    }
  }

  /** Choosing a base asset that survives the URL ends, once settled, in
      asset-driven listing with exactly that base asset. */
  lemma ChangeBaseSettles(q: Query, a: Asset, f: Filters, accepts: Validity)
    requires WellFormed(a, accepts)
    ensures var s := Settle(BaseChanged(q, Some(Encode(a))), f, accepts);
            s.filters.sort == None && s.filters.base == Some(a)
  {
    RoundTrip(a, accepts);
    SettleKeepsBase(BaseChanged(q, Some(Encode(a))), f, accepts, Encode(a));
  }

  /** Leaving a sort mode for a base asset, from a query with no `counter`:
      the next run is quiet and adopts exactly that base, with no sort and
      no counter. */
  lemma BaseFromSortQuiet(q: Query, e: string, f: Filters, accepts: Validity)
    requires !Has(q, COUNTER) && Decode(e, accepts).Ok?
    ensures RunPass(BaseChanged(q, Some(e)), f, accepts)
              == PassOutcome(BaseChanged(q, Some(e)), false, Filters(None, Some(Decode(e, accepts).value), None))
  {
    var r := BaseChanged(q, Some(e));
    KeysDistinct();
    assert Get(r, COUNTER) == Get(q, COUNTER);
    assert Stable(r, accepts);
    QuietIffStable(r, f, accepts);
  }

  /** Choosing a counter asset that survives the URL ends, once settled, in
      asset-driven listing with that asset in one of the two slots: as the
      counter, or as the base when there was no usable base or the base was
      the same string. */
  lemma ChangeCounterSettles(q: Query, a: Asset, f: Filters, accepts: Validity)
    requires WellFormed(a, accepts)
    ensures var s := Settle(CounterChanged(q, Some(Encode(a))), f, accepts);
            s.filters.sort == None && (s.filters.base == Some(a) || s.filters.counter == Some(a))
  {
    var e := Encode(a);
    RoundTrip(a, accepts);
    KeysDistinct();
    var q1 := CounterChanged(q, Some(e));
    if !Has(q1, BASE) || Get(q1, BASE) == Some(e) {
      CounterSettlesAsBase(q1, e, f, accepts);
    } else if Decode(Get(q1, BASE).value, accepts).Ok? {
      assert Stable(q1, accepts);
    } else {
      CounterSettlesAfterStrip(q1, e, f, accepts);
    }
  }

  /** A counter with no base, or with a base of the same string, ends up as
      the base. */
  lemma CounterSettlesAsBase(q1: Query, e: string, f: Filters, accepts: Validity)
    requires !Has(q1, SORT) && Get(q1, COUNTER) == Some(e) && Decode(e, accepts).Ok?
    requires !Has(q1, BASE) || Get(q1, BASE) == Some(e)
    ensures Settle(q1, f, accepts).filters.sort == None
    ensures Settle(q1, f, accepts).filters.base == Some(Decode(e, accepts).value)
  {
    KeysDistinct();
    var o := RunPass(q1, f, accepts);
    SettleKeepsBase(o.query, o.filters, accepts, e);
  }

  /** A counter beside a base that does not decode: the base is stripped,
      and the next run promotes the counter. */
  lemma CounterSettlesAfterStrip(q1: Query, e: string, f: Filters, accepts: Validity)
    requires !Has(q1, SORT) && Get(q1, COUNTER) == Some(e) && Decode(e, accepts).Ok?
    requires Has(q1, BASE) && Get(q1, BASE) != Some(e) && Decode(Get(q1, BASE).value, accepts).Err?
    ensures Settle(q1, f, accepts).filters.sort == None
    ensures Settle(q1, f, accepts).filters.base == Some(Decode(e, accepts).value)
  {
    KeysDistinct();
    var o := RunPass(q1, f, accepts);
    var o2 := RunPass(o.query, o.filters, accepts);
    SettleKeepsBase(o2.query, o2.filters, accepts, e);
  }
}
