/** The claim-back modal: the user's votes for one pair, newest first, each
    with a Claim button once its lock has run out. Claiming submits a
    transaction through the wallet; the outcome of that foreign call is an
    input of the model. */
module ManageVotes {
  import opened Wrappers

  /** One vote of the user for the pair, as the list of votes gives it. The
      dates are milliseconds since the epoch. */
  datatype Claim = Claim(id: string, claimBackDate: int, amount: string, isDownVote: bool)

  /** How `signAndSubmitTx` ends: a submitted transaction, a transaction that
      waits for more signers (the `pending` status), a falsy value (reading
      its `status` then throws, after the list was updated), or an exception
      from building, signing or submitting. */
  datatype SubmitOutcome = Submitted | AwaitingSigners | NoResult | Failed

  datatype Toast = SuccessToast(message: string) | ErrorToast(message: string)

  const AWAITING_SIGNERS_MESSAGE: string := "More signatures required to complete"
  const CLAIMED_MESSAGE: string := "Your vote has claimed back"
  const FAILURE_MESSAGE: string := "Oops. Something went wrong."

  /** `votes.reverse()`: the last vote first. */
  function Reversed(votes: seq<Claim>): (r: seq<Claim>)
    ensures |r| == |votes|
    ensures forall i :: 0 <= i < |votes| ==> r[i] == votes[|votes| - 1 - i]
  {
    if votes == [] then [] else Reversed(votes[1..]) + [votes[0]]
  }

  /** Reversing twice gives the list back. */
  lemma ReversedTwice(votes: seq<Claim>)
    ensures Reversed(Reversed(votes)) == votes
  {
  }

  /** `claims.filter(claim => claim.id !== id)` */
  function WithoutClaim(claims: seq<Claim>, id: string): (r: seq<Claim>)
    ensures forall c :: c in r <==> c in claims && c.id != id
    ensures |r| <= |claims|
  {
    if claims == [] then []
    else if claims[0].id == id then WithoutClaim(claims[1..], id)
    else [claims[0]] + WithoutClaim(claims[1..], id)
  }

  /** No two claims share an id. */
  predicate UniqueIds(claims: seq<Claim>)
  {
    forall i, j :: 0 <= i < j < |claims| ==> claims[i].id != claims[j].id
  }

  lemma {:induction false} WithoutAbsentClaim(claims: seq<Claim>, id: string)
    requires forall c :: c in claims ==> c.id != id
    ensures WithoutClaim(claims, id) == claims
  {
    if claims != [] {
      WithoutAbsentClaim(claims[1..], id);
      assert [claims[0]] + claims[1..] == claims;
    }
  }

  /** Distinct ids stay distinct in the tail, and no later claim shares
      the first claim's id. */
  lemma UniqueTail(claims: seq<Claim>)
    requires UniqueIds(claims) && claims != []
    ensures UniqueIds(claims[1..])
    ensures forall c :: c in claims[1..] ==> c.id != claims[0].id
  {
    forall c | c in claims[1..] ensures c.id != claims[0].id {
      var j :| 0 <= j < |claims[1..]| && claims[1..][j] == c;
      assert claims[j + 1] == c;
    }
  }

  /** With distinct ids, claiming the `k`-th claim removes exactly that one
      and the others keep their order. */
  lemma {:induction false} WithoutClaimRemovesOne(claims: seq<Claim>, k: int)
    requires UniqueIds(claims) && 0 <= k < |claims|
    ensures WithoutClaim(claims, claims[k].id) == claims[..k] + claims[k + 1..]
  {
    UniqueTail(claims);
    if k == 0 {
      WithoutAbsentClaim(claims[1..], claims[0].id);
    } else {
      var tail := claims[1..];
      WithoutClaimRemovesOne(tail, k - 1);
      assert tail[k - 1] == claims[k];
      assert claims[0].id != claims[k].id;
      assert tail[..k - 1] == claims[1..k];
      assert tail[k..] == claims[k + 1..];
      assert [claims[0]] + claims[1..k] == claims[..k];
    }
  }

  /** A row shows its Claim button once the claim-back date is not after
      `now`; before that it shows the date. */
  predicate ShowsClaimButton(c: Claim, now: int)
    ensures ShowsClaimButton(c, now) <==> now >= c.claimBackDate
  {
    !(c.claimBackDate > now)
  }

  /** The button appears at the claim-back date, not a millisecond before,
      and stays from then on. */
  lemma ClaimButtonOnceDue(c: Claim, now: int, later: int)
    ensures !ShowsClaimButton(c, c.claimBackDate - 1) && ShowsClaimButton(c, c.claimBackDate)
    ensures ShowsClaimButton(c, now) && now <= later ==> ShowsClaimButton(c, later)
  {
  }

  /** `Boolean(pendingId)`: an id is pending (the empty id is falsy). */
  predicate SomePending(pendingId: Option<string>)
    ensures SomePending(pendingId) ==> pendingId.Some?
    ensures pendingId == Some("") ==> !SomePending(pendingId)
  {
    pendingId.Some? && pendingId.value != ""
  }

  /** The button's `disabled` flag. */
  function ClaimButtonDisabled(c: Claim, pendingId: Option<string>): (r: bool)
    ensures r <==> SomePending(pendingId) && Some(c.id) != pendingId
  {
    SomePending(pendingId) && c.id != pendingId.value
  }

  /** The button's `pending` flag. */
  function ClaimButtonPending(c: Claim, pendingId: Option<string>): (r: bool)
    ensures r <==> pendingId == Some(c.id)
  {
    pendingId.Some? && c.id == pendingId.value
  }

  /** While a claim is pending, every other button is disabled and the
      pending one is not: each button is either disabled or the pending
      one. With nothing pending, no button is disabled. */
  lemma PendingLocksOthers(claims: seq<Claim>, pendingId: Option<string>)
    ensures SomePending(pendingId) ==>
              forall c :: c in claims ==> (ClaimButtonDisabled(c, pendingId) <==> !ClaimButtonPending(c, pendingId))
    ensures !SomePending(pendingId) ==> forall c :: c in claims ==> !ClaimButtonDisabled(c, pendingId)
  {
  }

  class ClaimBackModal {
    /** `null` until the votes are read, and also when there are none to
        read; the modal renders nothing while it is `null`. */
    var claims: Option<seq<Claim>>
    var pendingId: Option<string>
    /** How many times the modal asked to be closed. */
    var closeCalls: nat
    var toasts: seq<Toast>
    /** How many times the claimable balances were reloaded. */
    var balanceRefreshes: nat

    /** The mount effect: the user's votes for the pair, reversed, or
        nothing when the wallet has none to give. */
    constructor (votes: Option<seq<Claim>>)
      ensures votes.None? ==> claims.None?
      ensures votes.Some? ==> claims == Some(Reversed(votes.value))
      ensures pendingId.None? && closeCalls == 0 && toasts == [] && balanceRefreshes == 0
    {
      claims := if votes.Some? then Some(Reversed(votes.value)) else None;
      pendingId := None;
      closeCalls := 0;
      toasts := [];
      balanceRefreshes := 0;
    }

    /** `onSubmit(id)` up to its first `await`: the clicked claim becomes
        the pending one, which re-renders the modal with every other Claim
        button disabled. */
    method StartSubmit(id: string)
      requires claims.Some?
      modifies this
      ensures pendingId == Some(id)
      ensures id != "" && claims.Some? ==> forall c :: c in claims.value ==> (ClaimButtonDisabled(c, pendingId) <==> c.id != id)
      ensures claims == old(claims) && closeCalls == old(closeCalls)
      ensures toasts == old(toasts) && balanceRefreshes == old(balanceRefreshes)
    {
      pendingId := Some(id);
    }

    /** The rest of `onSubmit(id)`, once the wallet answered with `outcome`;
        `mounted` says whether the modal is still mounted then. `snapshot`
        is the list of the render the click came from. */
    method FinishSubmit(id: string, snapshot: seq<Claim>, outcome: SubmitOutcome, mounted: bool)
      requires pendingId == Some(id)
      modifies this
      ensures outcome == Failed ==>
                && claims == old(claims) && closeCalls == old(closeCalls)
                && toasts == old(toasts) + [ErrorToast(FAILURE_MESSAGE)]
                && balanceRefreshes == old(balanceRefreshes)
      ensures outcome != Failed ==>
                && closeCalls == old(closeCalls) + (if |snapshot| == 1 then 1 else 0)
                && (mounted ==> claims == Some(WithoutClaim(snapshot, id)))
                && (!mounted ==> claims == old(claims))
      ensures pendingId == (if mounted then None else Some(id))
      ensures outcome == AwaitingSigners ==>
                toasts == old(toasts) + [SuccessToast(AWAITING_SIGNERS_MESSAGE)] && balanceRefreshes == old(balanceRefreshes)
      ensures outcome == Submitted ==>
                toasts == old(toasts) + [SuccessToast(CLAIMED_MESSAGE)] && balanceRefreshes == old(balanceRefreshes) + 1
      ensures outcome == NoResult ==>
                toasts == old(toasts) + [ErrorToast(FAILURE_MESSAGE)] && balanceRefreshes == old(balanceRefreshes)
    {
      if outcome == Failed {
        toasts := toasts + [ErrorToast(FAILURE_MESSAGE)];
        if mounted {
          pendingId := None;
        }
        return;
      }
      if |snapshot| == 1 {
        closeCalls := closeCalls + 1;
      }
      if mounted {
        pendingId := None;
        claims := Some(WithoutClaim(snapshot, id));
      }
      if outcome == NoResult {
        toasts := toasts + [ErrorToast(FAILURE_MESSAGE)];
        if mounted {
          pendingId := None;
        }
        return;
      }
      if outcome == AwaitingSigners {
        toasts := toasts + [SuccessToast(AWAITING_SIGNERS_MESSAGE)];
        return;
      }
      toasts := toasts + [SuccessToast(CLAIMED_MESSAGE)];
      balanceRefreshes := balanceRefreshes + 1;
    }
  }

  /** Claiming the only claim of a mounted modal: while the wallet works the
      claim is the pending one; whatever the wallet answers short of an
      exception, the modal asks to be closed and is left with no claims. */
  method ClaimLast(m: ClaimBackModal, c: Claim, outcome: SubmitOutcome)
    requires m.claims == Some([c]) && outcome != Failed
    modifies m
    ensures m.closeCalls == old(m.closeCalls) + 1 && m.claims == Some([]) && m.pendingId.None?
    ensures outcome == Submitted <==> m.balanceRefreshes == old(m.balanceRefreshes) + 1
  {
    var snapshot := m.claims.value;
    m.StartSubmit(c.id);
    assert ClaimButtonPending(c, m.pendingId);
    m.FinishSubmit(c.id, snapshot, outcome, true);
    assert WithoutClaim([c], c.id) == [];
  }

  /** A wallet that answers with nothing: the claim is gone from the list,
      yet the user is told that something went wrong and no balance is
      reloaded. */
  method ClaimWithoutResult(m: ClaimBackModal, claims: seq<Claim>, k: int)
    requires m.claims == Some(claims) && UniqueIds(claims) && 0 <= k < |claims|
    modifies m
    ensures m.claims == Some(claims[..k] + claims[k + 1..])
    ensures m.toasts == old(m.toasts) + [ErrorToast(FAILURE_MESSAGE)]
    ensures m.balanceRefreshes == old(m.balanceRefreshes) && m.pendingId.None?
  {
    m.StartSubmit(claims[k].id);
    m.FinishSubmit(claims[k].id, claims, NoResult, true);
    WithoutClaimRemovesOne(claims, k);
  }
}
