/** The application shell: on mount it drops the cached asset list when the
    stored update timestamp is missing or more than a day old, then loads
    the assets; it hands every non-empty asset list to the asset store, runs
    the claimable-balance stream while a user is logged in, and shows the
    page loader until the assets are in. Clock readings, storage contents
    and the login state are inputs. */
module AppShell {
  import opened Wrappers
  import opened VotingPairs

  /** One day in milliseconds. */
  const UPDATE_PERIOD: int := 24 * 60 * 60 * 1000

  predicate IsDigit(c: char)
  {
    '0' <= c <= '9'
  }

  predicate AllDigits(s: string)
  {
    forall i :: 0 <= i < |s| ==> IsDigit(s[i])
  }

  /** The value of a string of decimal digits; the empty string is 0. */
  function DigitsValue(s: string): (r: nat)
    requires AllDigits(s)
  {
    if s == [] then 0 else 10 * DigitsValue(s[..|s| - 1]) + (s[|s| - 1] - '0') as int
  }

  /** JavaScript's `Number(s)` on the strings the shell itself writes: a
      string of decimal digits has its value, anything else is `NaN`
      (`None`). */
  function NumberOf(s: string): (r: Option<nat>)
    ensures r.Some? <==> AllDigits(s)
    ensures s == "" ==> r == Some(0)
  {
    if AllDigits(s) then Some(DigitsValue(s)) else None
  }

  /** `n.toString()` for a non-negative integer: its decimal digits, without
      leading zeros. */
  function NatToString(n: nat): (r: string)
    ensures |r| >= 1 && AllDigits(r)
    ensures |r| > 1 ==> r[0] != '0'
  {
    var d := [('0' as int + n % 10) as char];
    if n < 10 then d else NatToString(n / 10) + d
  }

  /** Reading back a written timestamp gives the same number. */
  lemma {:induction false} NumberOfNatToString(n: nat)
    ensures NumberOf(NatToString(n)) == Some(n)
  {
    var s := NatToString(n);
    if n < 10 {
      assert s[..0] == [];
      assert DigitsValue(s) == (s[0] - '0') as int == n;
    } else {
      NumberOfNatToString(n / 10);
      assert s[..|s| - 1] == NatToString(n / 10);
      assert DigitsValue(s) == 10 * (n / 10) + n % 10 == n;
    }
  }

  /** The mount effect's test: no stored timestamp (or an empty one), or one
      older than a day at `now`. A timestamp that is not a number compares
      as `NaN`, so it never expires. */
  function CacheExpired(stored: Option<string>, now: int): (r: bool)
    ensures stored.None? || stored.value == "" ==> r
    ensures stored.Some? && NumberOf(stored.value).None? ==> !r
    ensures stored.Some? && stored.value != "" && NumberOf(stored.value).Some? ==>
              (r <==> now - NumberOf(stored.value).value > UPDATE_PERIOD)
  {
    if stored.None? || stored.value == "" then true
    else match NumberOf(stored.value)
      case None => false
      case Some(t) => now - t > UPDATE_PERIOD
  }

  /** A timestamp the shell wrote at `t` expires exactly when more than a
      day has passed. */
  lemma WrittenTimestampExpiry(t: nat, now: int)
    ensures CacheExpired(Some(NatToString(t)), now) <==> now - t > UPDATE_PERIOD
  {
    NumberOfNatToString(t);
  }

  /** Exactly one day old is still fresh; one millisecond more is not. */
  lemma OneDayBoundary(t: nat)
    ensures !CacheExpired(Some(NatToString(t)), t + UPDATE_PERIOD)
    ensures CacheExpired(Some(NatToString(t)), t + UPDATE_PERIOD + 1)
  {
    WrittenTimestampExpiry(t, t + UPDATE_PERIOD);
    WrittenTimestampExpiry(t, t + UPDATE_PERIOD + 1);
  }

  /** The claimable-balance stream requests the shell issues. */
  datatype StreamCommand = StartStream(accountId: string) | CloseStream

  class Shell {
    /** The `update assets timestamp` storage entry. */
    var storedTimestamp: Option<string>
    var clearAssetsCalls: nat
    var getAssetsCalls: nat
    var isAssetsUpdated: bool
    /** The asset lists handed to `processNewAssets`, in order. */
    var processedBatches: seq<seq<AssetSimple>>
    var streamCommands: seq<StreamCommand>

    constructor (stored: Option<string>)
      ensures storedTimestamp == stored && !isAssetsUpdated
      ensures clearAssetsCalls == 0 && getAssetsCalls == 0
      ensures processedBatches == [] && streamCommands == []
    {
      storedTimestamp := stored;
      clearAssetsCalls, getAssetsCalls := 0, 0;
      isAssetsUpdated := false;
      processedBatches, streamCommands := [], [];
    }

    /** The page loader is up while the assets are not updated or no asset
        information has arrived. */
    predicate ShowsLoader(assetsInfoSize: nat)
      reads this
      ensures !ShowsLoader(assetsInfoSize) <==> isAssetsUpdated && assetsInfoSize > 0
    {
      !isAssetsUpdated || assetsInfoSize == 0
    }

    /** The mount effect. `now` is the clock at the test and `nowAgain` the
        clock when the new timestamp is written. */
    method MountEffect(now: int, nowAgain: nat)
      modifies this
      ensures isAssetsUpdated && getAssetsCalls == old(getAssetsCalls) + 1
      ensures CacheExpired(old(storedTimestamp), now) ==>
                clearAssetsCalls == old(clearAssetsCalls) + 1 && storedTimestamp == Some(NatToString(nowAgain))
      ensures !CacheExpired(old(storedTimestamp), now) ==>
                clearAssetsCalls == old(clearAssetsCalls) && storedTimestamp == old(storedTimestamp)
      ensures forall n: nat :: ShowsLoader(n) <==> n == 0
      ensures processedBatches == old(processedBatches) && streamCommands == old(streamCommands)
    {
      var stored := storedTimestamp;
      var expired := stored.None? || stored.value == "";
      if !expired {
        var t := NumberOf(stored.value);
        expired := t.Some? && now - t.value > UPDATE_PERIOD;
      }
      if expired {
        clearAssetsCalls := clearAssetsCalls + 1;
        storedTimestamp := Some(NatToString(nowAgain));
        isAssetsUpdated := true;
      } else {
        isAssetsUpdated := true;
      }
      getAssetsCalls := getAssetsCalls + 1;
    }

    /** The assets effect: a non-empty list goes to `processNewAssets`. */
    method AssetsEffect(assets: seq<AssetSimple>)
      modifies this
      ensures processedBatches == old(processedBatches) + (if |assets| > 0 then [assets] else [])
      ensures storedTimestamp == old(storedTimestamp) && isAssetsUpdated == old(isAssetsUpdated)
      ensures clearAssetsCalls == old(clearAssetsCalls) && getAssetsCalls == old(getAssetsCalls)
      ensures streamCommands == old(streamCommands)
    {
      if |assets| > 0 {
        processedBatches := processedBatches + [assets];
      }
    }

    /** The login effect: start the stream for the logged-in account, close
        it otherwise. */
    method LoginEffect(isLogged: bool, accountId: string)
      modifies this
      ensures streamCommands == old(streamCommands) + [if isLogged then StartStream(accountId) else CloseStream]
      ensures storedTimestamp == old(storedTimestamp) && isAssetsUpdated == old(isAssetsUpdated)
      ensures clearAssetsCalls == old(clearAssetsCalls) && getAssetsCalls == old(getAssetsCalls)
      ensures processedBatches == old(processedBatches)
    {
      if isLogged {
        streamCommands := streamCommands + [StartStream(accountId)];
      } else {
        streamCommands := streamCommands + [CloseStream];
      }
    }
  }

  /** Mounting twice within a day clears the cache only the first time when
      nothing was stored: the second mount finds the timestamp the first
      one wrote. */
  method MountTwiceWithinADay(s: Shell, t: nat, later: int)
    requires s.storedTimestamp.None? && t <= later <= t + UPDATE_PERIOD
    modifies s
    ensures s.clearAssetsCalls == old(s.clearAssetsCalls) + 1 && s.getAssetsCalls == old(s.getAssetsCalls) + 2
    ensures s.storedTimestamp == Some(NatToString(t))
  {
    s.MountEffect(t, t);
    WrittenTimestampExpiry(t, later);
    s.MountEffect(later, later);
  }
}
