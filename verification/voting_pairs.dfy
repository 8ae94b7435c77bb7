/** The pairs of the voting list and the user's ballot of chosen pairs.
    The ballot is a list keyed by `market_key`: clicking a pair's vote button
    removes every chosen entry with that key, or appends the pair when there
    is none. */
module VotingPairs {
  import opened Wrappers

  /** `PairStats`: one market (a trading pair) with its vote totals. Only the
      key and the two assets take part in the page's logic. */
  datatype PairStats = PairStats(
    marketKey: string,
    asset1Code: string, asset1Issuer: string,
    asset2Code: string, asset2Issuer: string,
    votesValue: string, votingAmount: int, timestamp: string)

  /** `AssetSimple`: an asset as a code and an issuer. */
  datatype AssetSimple = AssetSimple(code: string, issuer: string)

  /** `chosenPairs.some(p => p.market_key === key)` */
  predicate IsChosen(chosen: seq<PairStats>, key: string)
    ensures IsChosen(chosen, key) <==> exists i :: 0 <= i < |chosen| && chosen[i].marketKey == key
  {
    chosen != [] && (chosen[0].marketKey == key || IsChosen(chosen[1..], key))
  }

  /** No two entries share a market key. */
  predicate UniqueKeys(chosen: seq<PairStats>)
  {
    chosen == [] || (!IsChosen(chosen[1..], chosen[0].marketKey) && UniqueKeys(chosen[1..]))
  }

  /** `chosenPairs.filter(p => p.market_key !== key)`: the entries with the
      key go, the others stay in their order. */
  function WithoutKey(chosen: seq<PairStats>, key: string): (r: seq<PairStats>)
    ensures forall k :: IsChosen(r, k) <==> IsChosen(chosen, k) && k != key
    ensures forall p :: p in r <==> p in chosen && p.marketKey != key
    ensures UniqueKeys(chosen) ==> UniqueKeys(r)
  {
    if chosen == [] then []
    else if chosen[0].marketKey == key then WithoutKey(chosen[1..], key)
    else [chosen[0]] + WithoutKey(chosen[1..], key)
  }

  /** Filtering distributes over concatenation: the order of what is kept
      is the order it had. */
  lemma {:induction false} WithoutKeyConcat(a: seq<PairStats>, b: seq<PairStats>, key: string)
    ensures WithoutKey(a + b, key) == WithoutKey(a, key) + WithoutKey(b, key)
  {
    if a == [] {
      assert a + b == b;
    } else {
      assert (a + b)[0] == a[0] && (a + b)[1..] == a[1..] + b;
      WithoutKeyConcat(a[1..], b, key);
      if a[0].marketKey != key {
        assert [a[0]] + (WithoutKey(a[1..], key) + WithoutKey(b, key))
            == ([a[0]] + WithoutKey(a[1..], key)) + WithoutKey(b, key);
      }
    }
  }

  /** Filtering out a key nobody has changes nothing. */
  lemma {:induction false} WithoutAbsentKey(chosen: seq<PairStats>, key: string)
    requires !IsChosen(chosen, key)
    ensures WithoutKey(chosen, key) == chosen
  {
    if chosen != [] {
      WithoutAbsentKey(chosen[1..], key);
      assert [chosen[0]] + chosen[1..] == chosen;
    }
  }

  /** Every entry of a list is chosen under its own key. */
  lemma {:induction false} MembersAreChosen(chosen: seq<PairStats>)
    ensures forall p :: p in chosen ==> IsChosen(chosen, p.marketKey)
  {
    if chosen != [] {
      MembersAreChosen(chosen[1..]);
      forall p | p in chosen ensures IsChosen(chosen, p.marketKey) {
        if p != chosen[0] {
          assert p in chosen[1..];
        }
      }
    }
  }

  lemma {:induction false} IsChosenSnoc(chosen: seq<PairStats>, pair: PairStats)
    ensures forall k :: IsChosen(chosen + [pair], k) <==> IsChosen(chosen, k) || k == pair.marketKey
    ensures !IsChosen(chosen, pair.marketKey) && UniqueKeys(chosen) ==> UniqueKeys(chosen + [pair])
  {
    if chosen == [] {
      assert ([] + [pair])[1..] == [];
    } else {
      assert (chosen + [pair])[1..] == chosen[1..] + [pair];
      IsChosenSnoc(chosen[1..], pair);
    }
  }

  /** The list `onVoteClick(pair)` builds. The pair's key flips in or out,
      every other key keeps its membership, and a ballot without duplicate
      keys stays without them. */
  function Toggle(chosen: seq<PairStats>, pair: PairStats): (r: seq<PairStats>)
    ensures IsChosen(r, pair.marketKey) <==> !IsChosen(chosen, pair.marketKey)
    ensures forall k :: k != pair.marketKey ==> (IsChosen(r, k) <==> IsChosen(chosen, k))
    ensures forall p :: p in r <==>
              (p in chosen && p.marketKey != pair.marketKey) || (p == pair && !IsChosen(chosen, pair.marketKey))
    ensures UniqueKeys(chosen) ==> UniqueKeys(r)
  {
    if IsChosen(chosen, pair.marketKey) then WithoutKey(chosen, pair.marketKey)
    else
      IsChosenSnoc(chosen, pair);
      MembersAreChosen(chosen);
      chosen + [pair]
  }

  /** Choosing a pair and clicking it again restores the ballot exactly. */
  lemma ToggleTwice(chosen: seq<PairStats>, pair: PairStats)
    requires !IsChosen(chosen, pair.marketKey)
    ensures Toggle(Toggle(chosen, pair), pair) == chosen
  {
    WithoutKeyConcat(chosen, [pair], pair.marketKey);
    WithoutAbsentKey(chosen, pair.marketKey);
    assert WithoutKey([pair], pair.marketKey) == [];
  }

  /** Clicking a pair twice restores which keys are chosen, whichever state
      it started in. */
  lemma ToggleTwiceKeys(chosen: seq<PairStats>, pair: PairStats)
    ensures forall k :: IsChosen(Toggle(Toggle(chosen, pair), pair), k) <==> IsChosen(chosen, k)
  {
  }

  /** `getCachedChosenPairs()`: the stored list, or the empty list when the
      storage key is absent. */
  function LoadChosen(stored: Option<seq<PairStats>>): (r: seq<PairStats>)
    ensures stored.None? ==> r == []
    ensures stored.Some? ==> r == stored.value
  {
    stored.GetOr([])
  }

  /** `processAssetsFromPairs`: both assets of every pair, in list order. */
  function AssetsOfPairs(pairs: seq<PairStats>): (r: seq<AssetSimple>)
    ensures |r| == 2 * |pairs|
    ensures forall i :: 0 <= i < |pairs| ==>
              r[2 * i] == AssetSimple(pairs[i].asset1Code, pairs[i].asset1Issuer) &&
              r[2 * i + 1] == AssetSimple(pairs[i].asset2Code, pairs[i].asset2Issuer)
  {
    if pairs == [] then []
    else
      [AssetSimple(pairs[0].asset1Code, pairs[0].asset1Issuer), AssetSimple(pairs[0].asset2Code, pairs[0].asset2Issuer)]
      + AssetsOfPairs(pairs[1..])
  }
}
