# AquaVote voting page: URL filters, ballot, claims and request status

This project models the logic of the AquaVote voting front end:

- **The URL normaliser of the voting page.** The page's filters live in the query string as `sort`, `base` and `counter`. Every time the location changes, an effect checks them and does one of two things:
  - it rewrites the URL when the parameters are inconsistent: `sort` beside an asset, a lone `counter`, a `counter` equal to `base`, an unknown `sort`, or an asset that does not decode;
  - it adopts them as the page's filters.

  Each rewrite changes the location again, so the effect repeats until it settles. The query follows the browser's URLSearchParams rules.
- **The asset codec.** The URL holds an asset as `native` or as `code:issuer`.
- **The navigation handlers.** These change the sort mode, the base or counter asset, and the page.
- **Which list requests the page's effects issue** after a render.
- **The ballot of chosen pairs.** It is toggled by market key and mirrored in browser storage.
- **The claim-back modal.** It lists the user's votes for a pair, handles the Claim button rule, and runs the submit sequence: pending id, removal by id, closing on the last claim, and toasts.
- **The application shell.** It handles the one-day asset-cache expiry, the page loader, the asset hand-off and the claimable-balance stream.
- **The wallet request modal.** This is a four-state status machine with its description table and icons.

The modules, in dependency order:

- `Wrappers`: `Option` and `Result`.
- `UrlQuery`: the URLSearchParams semantics as functions on a list of key/value entries.
- `UrlSearchParams`: the mutable parameters object.
- `AssetCodec`: encoding and decoding assets in the URL.
- `QueryNormaliser`: one run of the location effect (`RunPass`) and its repetition (`Settle`).
- `VotingPairs`: `PairStats` and the ballot toggle.
- `FetchDispatch`: the effects after a render.
- `MainPage`: the page's state and handlers, as the class `VotingPage`.
- `ManageVotes`: the claim-back modal, as the class `ClaimBackModal`.
- `AppShell`: the asset-cache check and the shell's effects, as the class `Shell`.
- `RequestModal`: the status machine, as the class `RequestView`.

Foreign calls are inputs. The wallet SDK's asset constructor is an `accepts` predicate on (code, issuer):

- it either builds an asset or throws;
- an accepted pair with no issuer (absent or empty) is the native asset.

The wallet's submit outcome, the clock, the login state and the stored values are parameters.

Where the code could be read more than one way, the model follows the code:

- **The counter promotion does not end its run.** When a lone `counter` is promoted to `base`, the run goes on. The promoted value goes through the equal-counter and sort checks and is adopted, or stripped if it does not decode, in the same run.
- **The base/counter check compares raw strings, not assets.** A counter `code:issuer:extra` names the same asset as the base `code:issuer` and survives (`RawComparisonKeepsSameAsset`).
- **The `SortTypes` strings are assumed.** The enumeration is not part of this model. Its values are taken to be `popular`, `topVoted` and `yourVotes`, the member names used by the sort options.

## Model

| member | source | states |
|---|---|---|
| UrlQuery.Get | AquaVote/components/MainPage/MainPage.tsx:291-292 | `get(k)` answers exactly when `has(k)`, with the value of an entry that has that key |
| UrlQuery.HasSomeEntry | AquaVote/components/MainPage/MainPage.tsx:266-268 | `has(k)` holds exactly when some entry of the query has key `k` |
| UrlQuery.GetIsFirst | AquaVote/components/MainPage/MainPage.tsx:291-292 | the value `get(k)` answers with is that of the first entry with key `k`: no entry before it has that key |
| UrlQuery.Without | AquaVote/components/MainPage/MainPage.tsx:278-279 | `delete(k)` leaves no entry with key `k`; every other key keeps its `get` and `has`; the entries left are exactly those with another key |
| UrlQuery.GetAfterSnoc | AquaVote/components/MainPage/MainPage.tsx:270 | after an entry is added at the end, an earlier entry with the same key still wins `get` |
| UrlQuery.Appended | AquaVote/components/MainPage/MainPage.tsx:285 | `append(k, v)` makes `k` present, changes `get(k)` only when `k` was absent, leaves other keys alone, and keeps the old entries as a prefix |
| UrlQuery.WithoutIdempotent | AquaVote/components/MainPage/MainPage.tsx:278-279 | deleting a key twice is deleting it once |
| UrlQuery.Replaced | AquaVote/components/MainPage/MainPage.tsx:468 | after `set(k, v)`, `get(k)` is `v` and every entry with key `k` holds `v`; other keys are unchanged; deleting `k` afterwards gives what deleting it before gave |
| UrlSearchParams.SearchParams.constructor | AquaVote/components/MainPage/MainPage.tsx:264 | the object starts with the entries of the search string |
| UrlSearchParams.SearchParams.Append | AquaVote/components/MainPage/MainPage.tsx:270 | appending updates the entries as `Appended` says |
| UrlSearchParams.SearchParams.Delete | AquaVote/components/MainPage/MainPage.tsx:278-279 | deleting updates the entries as `Without` says |
| UrlSearchParams.SearchParams.Set | AquaVote/components/MainPage/MainPage.tsx:468 | setting updates the entries as `Replaced` says |
| AssetCodec.CreateAsset | AquaVote/components/MainPage/MainPage.tsx:223 | an asset is built exactly when the SDK accepts the pair; it is native exactly when the issuer is absent or empty; otherwise it is the credit asset of that code and issuer |
| AssetCodec.Fields | AquaVote/components/MainPage/MainPage.tsx:237 | splitting on `:` yields at least one piece and no piece holds a colon |
| AssetCodec.FieldsOfPlain | AquaVote/components/MainPage/MainPage.tsx:237 | a string without a colon splits into itself |
| AssetCodec.FieldsAfterCode | AquaVote/components/MainPage/MainPage.tsx:237 | `code:rest` splits into `code` followed by the pieces of `rest` |
| AssetCodec.Encode | AquaVote/components/MainPage/MainPage.tsx:225-229 | the result is `native` exactly for the native asset, and `code:issuer` for a credit asset; it is never empty |
| AssetCodec.AssetToUrlParam | AquaVote/components/MainPage/MainPage.tsx:222-230 | encoding succeeds exactly when the SDK accepts the fields, and gives `native` exactly when the issuer is absent or empty |
| AssetCodec.Decode | AquaVote/components/MainPage/MainPage.tsx:232-240 | `native` decodes to the native asset; anything else decodes exactly when the SDK accepts its first piece and its second piece, if any |
| AssetCodec.RoundTrip | AquaVote/components/MainPage/MainPage.tsx:222-240 | decoding the encoding of an asset gives the asset back, when code and issuer hold no colon |
| AssetCodec.ParamRoundTrip | AquaVote/components/MainPage/MainPage.tsx:222-240 | the parameter written for dropdown fields decodes to the asset the SDK builds from them |
| AssetCodec.ExtraPieceIgnored | AquaVote/components/MainPage/MainPage.tsx:237-239 | `code:issuer:extra` differs from the encoding of the asset but decodes the same way |
| QueryNormaliser.ParseSort | AquaVote/components/MainPage/MainPage.tsx:299-302 | a string is accepted as a sort mode exactly when it is one mode's value, and then it names that mode |
| QueryNormaliser.AdoptAsset | AquaVote/components/MainPage/MainPage.tsx:313-334 | an asset parameter is stripped exactly when it is present and fails to decode, and then its slot keeps its old value; otherwise the query is untouched and the slot holds the decoded asset, or nothing when the parameter is absent |
| QueryNormaliser.RunPass | AquaVote/components/MainPage/MainPage.tsx:263-335 | a run that does not rewrite the URL leaves the query as it was and adopts the filters read off it; appending the default sort adopts nothing |
| QueryNormaliser.Promoted | AquaVote/components/MainPage/MainPage.tsx:284-288 | after promotion there is no `counter`, `base` holds the old counter's value, and every other parameter is unchanged |
| QueryNormaliser.CheckAndAdopt | AquaVote/components/MainPage/MainPage.tsx:290-334 | a rewrite by the promotion stays a rewrite; a quiet run leaves the query alone and adopts the filters read off it |
| QueryNormaliser.AdoptAll | AquaVote/components/MainPage/MainPage.tsx:308-334 | the sort slot holds the parsed `sort` or nothing; without a stripped asset parameter the query is unchanged and the slots hold the filters read off it |
| QueryNormaliser.Stable | AquaVote/components/MainPage/MainPage.tsx:263-335 | a query the effect leaves alone has exactly one of `sort` and `base` |
| QueryNormaliser.StableAdoptsOneMode | AquaVote/components/MainPage/MainPage.tsx:308-334 | on a stable query each slot is set exactly when its parameter is present, so the filters are either sort-driven or asset-driven |
| QueryNormaliser.QuietIffStable | AquaVote/components/MainPage/MainPage.tsx:263-335 | a run leaves the URL alone exactly on a stable query, and then it adopts the sort, base and counter read off it |
| QueryNormaliser.Rank | AquaVote/components/MainPage/MainPage.tsx:263-335 | the distance measure is 0 exactly on stable queries and at most 3 |
| QueryNormaliser.PassProgress | AquaVote/components/MainPage/MainPage.tsx:263-335 | every run that rewrites the URL strictly lowers the rank |
| QueryNormaliser.Settle | AquaVote/components/MainPage/MainPage.tsx:263-335 | the repeated effect ends, after at most four runs, on a stable query whose parameters were adopted; exactly one of sort mode and base asset is set, and a counter only beside a base |
| QueryNormaliser.DefaultsToPopular | AquaVote/components/MainPage/MainPage.tsx:265-273 | with none of the three parameters, `sort=popular` is appended and nothing is adopted |
| QueryNormaliser.SortWins | AquaVote/components/MainPage/MainPage.tsx:274-282 | `sort` beside `base` or `counter` removes both asset parameters, keeps every other parameter, and adopts nothing |
| QueryNormaliser.CounterPromoted | AquaVote/components/MainPage/MainPage.tsx:284-288 | a lone `counter` becomes `base` and the run continues: the promoted asset is adopted as base, or stripped when it does not decode |
| QueryNormaliser.EqualCounterDropped | AquaVote/components/MainPage/MainPage.tsx:290-297 | a non-empty `base` equal to `counter` removes `counter` and ends the run |
| QueryNormaliser.InvalidSortDropped | AquaVote/components/MainPage/MainPage.tsx:299-306 | a `sort` outside the three modes is removed and the run ends |
| QueryNormaliser.DecodeFailureStrips | AquaVote/components/MainPage/MainPage.tsx:313-334 | an asset parameter that fails to decode is removed from the URL, and its slot keeps its previous value |
| QueryNormaliser.RawComparisonKeepsSameAsset | AquaVote/components/MainPage/MainPage.tsx:290-297 | two different strings naming the same asset pass the equality check, and both slots then hold that asset |
| QueryNormaliser.SettleIdempotent | AquaVote/components/MainPage/MainPage.tsx:263-335 | running the effect on a settled query rewrites nothing and adopts the same filters |
| QueryNormaliser.SortChanged | AquaVote/components/MainPage/MainPage.tsx:466-471 | the new query has the chosen `sort`, no `base` or `counter`, and every other parameter unchanged |
| QueryNormaliser.BaseChanged | AquaVote/components/MainPage/MainPage.tsx:475-486 | the new query has no `sort`, and `base` is the given parameter or is absent; every other parameter is unchanged |
| QueryNormaliser.CounterChanged | AquaVote/components/MainPage/MainPage.tsx:491-502 | the new query has no `sort`, and `counter` is the given parameter or is absent; every other parameter is unchanged |
| QueryNormaliser.ChangeSortSettles | AquaVote/components/MainPage/MainPage.tsx:466-473 | after choosing a sort mode, the next run is quiet and adopts that mode with no assets |
| QueryNormaliser.SettleKeepsBase | AquaVote/components/MainPage/MainPage.tsx:284-334 | without `sort`, a decodable `base` survives every later run |
| QueryNormaliser.ChangeBaseSettles | AquaVote/components/MainPage/MainPage.tsx:475-489 | choosing a base asset settles on asset-driven listing with exactly that base |
| QueryNormaliser.BaseFromSortQuiet | AquaVote/components/MainPage/MainPage.tsx:475-489 | leaving a sort mode for a decodable base, from a query without `counter`, the next run is quiet and adopts that base alone |
| QueryNormaliser.ChangeCounterSettles | AquaVote/components/MainPage/MainPage.tsx:491-505 | choosing a counter asset settles on asset-driven listing with that asset as counter or as base |
| QueryNormaliser.CounterSettlesAsBase | AquaVote/components/MainPage/MainPage.tsx:284-334 | a counter with no base, or with a base of the same string, settles as the base |
| QueryNormaliser.CounterSettlesAfterStrip | AquaVote/components/MainPage/MainPage.tsx:284-334 | a counter beside a base that does not decode settles as the base, once the base is stripped |
| VotingPairs.WithoutKey | AquaVote/components/MainPage/MainPage.tsx:533-535 | the filter removes exactly the entries with the key and keeps a ballot free of duplicate keys |
| VotingPairs.IsChosen | AquaVote/components/MainPage/MainPage.tsx:526-528 | a key is chosen exactly when some entry of the ballot has it |
| VotingPairs.WithoutKeyConcat | AquaVote/components/MainPage/MainPage.tsx:533-535 | filtering keeps the order of what it keeps |
| VotingPairs.WithoutAbsentKey | AquaVote/components/MainPage/MainPage.tsx:533-535 | filtering out a key nobody has changes nothing |
| VotingPairs.MembersAreChosen | AquaVote/components/MainPage/MainPage.tsx:526-528 | every entry of the ballot counts as chosen under its key |
| VotingPairs.IsChosenSnoc | AquaVote/components/MainPage/MainPage.tsx:537 | appending a pair makes its key chosen and keeps the other keys, and keeps keys unique when the key was new |
| VotingPairs.Toggle | AquaVote/components/MainPage/MainPage.tsx:525-538 | the clicked key flips in or out and every other key keeps its state; the new ballot's entries are characterised exactly; uniqueness of keys is preserved |
| VotingPairs.ToggleTwice | AquaVote/components/MainPage/MainPage.tsx:525-541 | adding a pair and clicking it again restores the ballot exactly |
| VotingPairs.ToggleTwiceKeys | AquaVote/components/MainPage/MainPage.tsx:525-541 | two clicks on a pair restore which keys are chosen, whichever state it started in |
| VotingPairs.LoadChosen | AquaVote/components/MainPage/MainPage.tsx:205 | an absent storage entry loads as the empty ballot, a present one as its list |
| VotingPairs.AssetsOfPairs | AquaVote/components/MainPage/MainPage.tsx:380-390 | two assets per pair, in list order: the pair's first asset, then its second |
| FetchDispatch.LoginEffect | AquaVote/components/MainPage/MainPage.tsx:392-396 | back to popular exactly when the login state changed on "your votes" while logged out |
| FetchDispatch.PromptEffect | AquaVote/components/MainPage/MainPage.tsx:398-402 | the login prompt opens exactly when the sort changed to "your votes" while logged out |
| FetchDispatch.YourVotesEffect | AquaVote/components/MainPage/MainPage.tsx:404-421 | on "your votes" the loader starts, and the user's pairs are requested only once the claimable balances are loaded |
| FetchDispatch.TickEffect | AquaVote/components/MainPage/MainPage.tsx:423-435 | a tick re-fetches the page on "top voted" and only revalues the shown pairs otherwise |
| FetchDispatch.SortPageEffect | AquaVote/components/MainPage/MainPage.tsx:437-450 | a set sort mode other than "your votes" loads its page when sort or page changed |
| FetchDispatch.FilterEffect | AquaVote/components/MainPage/MainPage.tsx:452-464 | a set base asset loads the filtered list when base, counter or page changed |
| FetchDispatch.Dispatch | AquaVote/components/MainPage/MainPage.tsx:392-464 | a page of a sort mode is fetched exactly on the sort/page trigger for a mode other than "your votes", or on a tick for "top voted"; a filtered list exactly when a base is set and base, counter or page changed; the user's pairs exactly on "your votes" with balances loaded; and likewise for the revalue, prompt and reset effects |
| FetchDispatch.OneListSource | AquaVote/components/MainPage/MainPage.tsx:437-464 | with settled filters, no render both fetches a sorted page and a filtered list |
| FetchDispatch.YourVotesLoggedOut | AquaVote/components/MainPage/MainPage.tsx:398-421 | entering "your votes" logged out, before the balances are loaded, prompts for login and fetches no list |
| MainPage.VotingPage.constructor | AquaVote/components/MainPage/MainPage.tsx:242-253 | the first render takes the ballot from storage and has no filters, page 1 and no loaders |
| MainPage.VotingPage.LocationEffect | AquaVote/components/MainPage/MainPage.tsx:263-335 | the imperative effect leaves exactly the query, the rewrite flag and the filter slots `RunPass` describes, and touches nothing else |
| MainPage.VotingPage.CheckAndAdoptParams | AquaVote/components/MainPage/MainPage.tsx:290-334 | the second half of the effect matches `CheckAndAdopt` on the URL it starts from |
| MainPage.VotingPage.AdoptParams | AquaVote/components/MainPage/MainPage.tsx:308-334 | the adoption matches `AdoptAll` on the URL it starts from |
| MainPage.VotingPage.AdoptSlot | AquaVote/components/MainPage/MainPage.tsx:313-323 | one asset slot is adopted as `AdoptAsset` says |
| MainPage.VotingPage.ChangeSort | AquaVote/components/MainPage/MainPage.tsx:466-473 | the query becomes `SortChanged` of the old one, the page goes back to 1, and nothing else changes |
| MainPage.VotingPage.ChangeBaseSearch | AquaVote/components/MainPage/MainPage.tsx:475-489 | a refused asset throws and changes nothing; otherwise the query becomes `BaseChanged` with the encoded asset or none, the loader shows and the page goes back to 1 |
| MainPage.VotingPage.ChangeCounterSearch | AquaVote/components/MainPage/MainPage.tsx:491-505 | as for the base, with `CounterChanged` |
| MainPage.VotingPage.ChangePage | AquaVote/components/MainPage/MainPage.tsx:507-510 | sets the page and the page-change loader, nothing else |
| MainPage.VotingPage.OnVoteClick | AquaVote/components/MainPage/MainPage.tsx:525-541 | the ballot becomes `Toggle` of the old one, the clicked key flips, and storage holds the new ballot |
| MainPage.VotingPage.ReloadChosenPairs | AquaVote/components/MainPage/MainPage.tsx:363-365 | the ballot is re-read from storage and agrees with it |
| MainPage.VotingPage.AfterRender | AquaVote/components/MainPage/MainPage.tsx:392-464 | the effects run are those `Dispatch` lists; the loader shows when one of them starts loading; the reset to popular goes through `changeSort` |
| MainPage.VotingPage.OnListLoaded | AquaVote/components/MainPage/MainPage.tsx:443-449 | a loaded list stops both loaders and hands both assets of every pair to the asset store |
| MainPage.VotingPage.OnTickPageLoaded | AquaVote/components/MainPage/MainPage.tsx:425-429 | the tick's re-fetched page hands both assets of every pair to the asset store; the loaders are left alone |
| MainPage.VoteTwice | AquaVote/components/MainPage/MainPage.tsx:525-541 | two clicks on a new pair leave the ballot, on screen and in storage, as it was |
| MainPage.ChooseTopVoted | AquaVote/components/MainPage/MainPage.tsx:437-473 | choosing "top voted" on a later page of "popular" first fetches page 1 of "popular", because the sort changes one render later, and then page 1 of "top voted"; nothing filtered is fetched, and the page ends on "top voted", page 1 |
| MainPage.ChooseBaseFromSort | AquaVote/components/MainPage/MainPage.tsx:452-489 | choosing a base asset on a later page of "popular" fetches page 1 of "popular" and then the filtered list for that asset, no sorted page in the second render; the page ends filtered by that base alone |
| ManageVotes.Reversed | AquaVote/components/MainPage/ManageVotesModal/ManageVotesModal.tsx:184 | the reversed list has the same length, with the last vote first |
| ManageVotes.ReversedTwice | AquaVote/components/MainPage/ManageVotesModal/ManageVotesModal.tsx:184 | reversing twice is the identity |
| ManageVotes.WithoutClaim | AquaVote/components/MainPage/ManageVotesModal/ManageVotesModal.tsx:205 | the filter keeps exactly the claims with another id |
| ManageVotes.WithoutAbsentClaim | AquaVote/components/MainPage/ManageVotesModal/ManageVotesModal.tsx:205 | filtering an id no claim has changes nothing |
| ManageVotes.WithoutClaimRemovesOne | AquaVote/components/MainPage/ManageVotesModal/ManageVotesModal.tsx:205 | with distinct ids, claiming the k-th claim removes exactly that one, the others keeping their order |
| ManageVotes.ShowsClaimButton | AquaVote/components/MainPage/ManageVotesModal/ManageVotesModal.tsx:268 | the Claim button shows exactly when the claim-back date is not after now |
| ManageVotes.SomePending | AquaVote/components/MainPage/ManageVotesModal/ManageVotesModal.tsx:281 | `Boolean(pendingId)` needs an id, and the empty id counts as nothing pending |
| ManageVotes.ClaimButtonDisabled | AquaVote/components/MainPage/ManageVotesModal/ManageVotesModal.tsx:281 | a button is disabled exactly when some claim is pending and it is another claim |
| ManageVotes.ClaimButtonPending | AquaVote/components/MainPage/ManageVotesModal/ManageVotesModal.tsx:282 | a button spins exactly when its claim is the pending one |
| ManageVotes.ClaimButtonOnceDue | AquaVote/components/MainPage/ManageVotesModal/ManageVotesModal.tsx:268 | the button appears exactly from the claim-back date on, and once shown stays shown as time passes |
| ManageVotes.PendingLocksOthers | AquaVote/components/MainPage/ManageVotesModal/ManageVotesModal.tsx:268-286 | while a claim is pending, each button is either disabled or the pending one; with nothing pending, no button is disabled |
| ManageVotes.ClaimBackModal.constructor | AquaVote/components/MainPage/ManageVotesModal/ManageVotesModal.tsx:176-185 | the claims are the reversed votes, or none when there are no votes to read; nothing is pending |
| ManageVotes.ClaimBackModal.StartSubmit | AquaVote/components/MainPage/ManageVotesModal/ManageVotesModal.tsx:193-195 | the clicked claim becomes pending and every other claim's button is disabled; nothing else changes |
| ManageVotes.ClaimBackModal.FinishSubmit | AquaVote/components/MainPage/ManageVotesModal/ManageVotesModal.tsx:196-223 | unless the wallet call threw, close is called exactly when the clicked render had one claim, and a mounted modal drops that claim; a mounted modal clears the pending id, an unmounted one keeps it; a pending status shows the signers toast without a refresh, a falsy result the error toast without a refresh, any other status the success toast and one refresh; an exception shows the error toast and leaves the claims unchanged |
| ManageVotes.ClaimLast | AquaVote/components/MainPage/ManageVotesModal/ManageVotesModal.tsx:193-216 | claiming the only claim closes the modal and leaves it empty and with nothing pending; the balances are reloaded exactly when the transaction was submitted |
| ManageVotes.ClaimWithoutResult | AquaVote/components/MainPage/ManageVotesModal/ManageVotesModal.tsx:196-221 | a falsy wallet result removes the claim from the list, yet shows the error toast and reloads no balance |
| AppShell.NumberOf | src/App.tsx:47 | a digit string has a number, the empty string is 0, anything else is not a number |
| AppShell.NatToString | src/App.tsx:49 | a written timestamp is a non-empty digit string without leading zeros |
| AppShell.NumberOfNatToString | src/App.tsx:47-49 | reading back a written timestamp gives the same number |
| AppShell.CacheExpired | src/App.tsx:47 | expired when nothing (or an empty string) is stored, never when the stored value is not a number, and otherwise exactly when more than a day has passed |
| AppShell.WrittenTimestampExpiry | src/App.tsx:44-56 | a timestamp written at t expires at `now` exactly when `now - t` exceeds one day |
| AppShell.OneDayBoundary | src/App.tsx:34-47 | an age of exactly one day keeps the cache; one millisecond more clears it |
| AppShell.Shell.constructor | src/App.tsx:39-42 | the shell starts with the assets not updated and no calls made |
| AppShell.Shell.ShowsLoader | src/App.tsx:72 | the loader is down exactly when the assets are updated and some asset information has arrived |
| AppShell.Shell.MountEffect | src/App.tsx:44-56 | an expired cache is cleared and the new timestamp written; either way the assets are marked updated and loaded exactly once; afterwards the loader shows exactly when no asset information has arrived |
| AppShell.Shell.AssetsEffect | src/App.tsx:58-62 | a list is handed to the asset store exactly when it is non-empty |
| AppShell.Shell.LoginEffect | src/App.tsx:64-70 | logged in starts the stream for the account; logged out closes it |
| AppShell.MountTwiceWithinADay | src/App.tsx:44-56 | a second mount within a day of the first finds the written timestamp and does not clear again |
| RequestModal.StatusValue | common/modals/WalletConnectModals/RequestModal.tsx:12-17 | every status has a non-empty value |
| RequestModal.Description | common/modals/WalletConnectModals/RequestModal.tsx:19-24 | every status has a non-empty description, which is never its bare value |
| RequestModal.StatusesDistinguishable | common/modals/WalletConnectModals/RequestModal.tsx:12-24 | every status has a non-empty description, and different statuses have different values and descriptions |
| RequestModal.IconFor | common/modals/WalletConnectModals/RequestModal.tsx:74-78 | pending, fail and success each show their own icon, and waiting for signers shows none |
| RequestModal.ShowsDots | common/modals/WalletConnectModals/RequestModal.tsx:82 | the dots run exactly when the pending icon shows |
| RequestModal.AfterResolve | common/modals/WalletConnectModals/RequestModal.tsx:57-66 | success leads to the success status and pending to waiting for signers; a falsy result or any other status leaves the status as it was |
| RequestModal.ResolveIdempotent | common/modals/WalletConnectModals/RequestModal.tsx:56-67 | handling the same resolved value again changes nothing |
| RequestModal.ResolvedFromPending | common/modals/WalletConnectModals/RequestModal.tsx:54-82 | from the initial status a resolved call never shows failure, and the dots keep running exactly when the result was falsy or another status |
| RequestModal.RequestView.constructor | common/modals/WalletConnectModals/RequestModal.tsx:54 | the modal starts pending, with the pending icon and the dots |
| RequestModal.RequestView.OnResolved | common/modals/WalletConnectModals/RequestModal.tsx:56-66 | the status becomes `AfterResolve` of the old status and the result |
| RequestModal.RequestView.OnRejected | common/modals/WalletConnectModals/RequestModal.tsx:67 | a rejection shows failure, with the fail icon and no dots |

## Left out

- Rendering: the styled components, the JSX, the tooltips and the external explorer links.
- The browser: the history and location mechanics beyond "the query becomes this, and the location effect runs again".
- Storage: browser storage is a single optional value per key. JSON parsing errors and the serialised form are not modelled.
- `decodeURIComponent`, applied to the pushed search string, is not modelled.
- The wallet SDK (`createAsset`, `createLumen`, `createClaimOperations`, `buildTx`, `signAndSubmitTx`, the claimable-balance stream), the REST list endpoints and the modal and toast services are foreign code. They are inputs or recorded calls.
- Timing and concurrency are not modelled:
  - the one-minute poller is only the `Tick` input;
  - overlapping requests, and the order in which their answers arrive, are left out;
  - so are updates made between the awaits of `onSubmit`: `ManageVotes.ClaimBackModal.FinishSubmit` takes the list of the clicked render as a parameter and needs its claim still pending.
- The "your votes" request reads the account's keys; the model only records that the request is made. A logged-out user with loaded balances would reach a null account there, which is not modelled.
- `MainPage.VotingPage.AfterRender`: which dependencies changed in a render is an input chosen by the caller, not derived from the fields. `MainPage.ChooseTopVoted` and `MainPage.ChooseBaseFromSort` pass the sets two real navigations produce.
- The totals request and the claimable-balance event subscription of the voting page are not modelled.
- `AppShell.NumberOf` covers only decimal digit strings. It treats every other stored string as `NaN`, which never expires the cache. JavaScript's `Number` also accepts whitespace, signs, exponents and hexadecimal.
- `ManageVotes.ShowsClaimButton` compares the claim-back date as an integer. An invalid date, which JavaScript compares as `NaN`, is not modelled.
- The voting page's render-time modals (`startVote`, `createPair`), the vote amount and percentage arithmetic of the table, the profile page and the other-account button are not modelled. They open modals or do floating-point display arithmetic.
- `SortTypes` is not part of this model. Its three string values are assumed as stated above.
