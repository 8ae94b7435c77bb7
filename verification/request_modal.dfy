/** The wallet request modal: it shows the state of one transaction sent to
    the wallet, from "waiting for confirmation" to completed, rejected or
    waiting for more signers, driven by the promise of the wallet call. */
module RequestModal {
  import opened Wrappers

  /** `TX_STATUSES` */
  datatype TxStatus = Pending | Success | Fail | AwaitSigners

  /** The status a settled wallet call reports. Only `success` and
      `pending` are told apart; every other status is `OtherStatus`. */
  datatype SubmitStatus = SubmitSuccess | SubmitPending | OtherStatus

  datatype Icon = IconPending | IconFail | IconSuccess

  /** The string value of each status. */
  function StatusValue(s: TxStatus): (r: string)
    ensures r != ""
  {
    match s
    case Pending => "pending"
    case Success => "success"
    case Fail => "fail"
    case AwaitSigners => "await signers"
  }

  /** `STATUS_DESCRIPTION`: the line under the icon. */
  function Description(s: TxStatus): (r: string)
    ensures r != "" && r != StatusValue(s)
  {
    match s
    case Pending => "Waiting For Confirmation"
    case Success => "Transaction Completed"
    case Fail => "Transaction Rejected"
    case AwaitSigners => "Transaction Confirmed. More signatures required to complete"
  }

  /** Every status has its own value and its own non-empty description, so
      the screen tells the four apart. */
  lemma StatusesDistinguishable(s: TxStatus, t: TxStatus)
    ensures Description(s) != ""
    ensures s != t ==> StatusValue(s) != StatusValue(t) && Description(s) != Description(t)
  {
    // the values differ in their first letter, the descriptions in length
    assert |Description(Pending)| == 24 && |Description(Success)| == 21;
    assert |Description(Fail)| == 20 && |Description(AwaitSigners)| == 59;
    if s != t {
      assert StatusValue(s)[0] != StatusValue(t)[0];
    }
  }

  /** The big icon: one per status, except none while waiting for signers. */
  function IconFor(s: TxStatus): (r: Option<Icon>)
    ensures r.None? <==> s == AwaitSigners
    ensures r == Some(IconPending) <==> s == Pending
    ensures r == Some(IconFail) <==> s == Fail
    ensures r == Some(IconSuccess) <==> s == Success
  {
    match s
    case Pending => Some(IconPending)
    case Fail => Some(IconFail)
    case Success => Some(IconSuccess)
    case AwaitSigners => None
  }

  /** The dots loader runs only while waiting for confirmation. */
  predicate ShowsDots(s: TxStatus)
    ensures ShowsDots(s) <==> IconFor(s) == Some(IconPending)
  {
    s == Pending
  }

  /** The resolve handler: `result` is the value the promise resolved with,
      `None` when it is falsy. */
  function AfterResolve(s: TxStatus, result: Option<SubmitStatus>): (r: TxStatus)
    ensures r == Success <==> result == Some(SubmitSuccess) || (s == Success && result != Some(SubmitPending))
    ensures r == AwaitSigners <==> result == Some(SubmitPending) || (s == AwaitSigners && result != Some(SubmitSuccess))
    ensures result.None? || result == Some(OtherStatus) ==> r == s
  {
    match result
    case Some(SubmitSuccess) => Success
    case Some(SubmitPending) => AwaitSigners
    case _ => s
  }

  /** Each render attaches the handler again, and all of them see the same
      settled value: running it again changes nothing. */
  lemma ResolveIdempotent(s: TxStatus, result: Option<SubmitStatus>)
    ensures AfterResolve(AfterResolve(s, result), result) == AfterResolve(s, result)
  {
  }

  /** Starting from `pending`, a resolved call never shows the failure, and
      the dots stop exactly when the call reported success or pending. */
  lemma ResolvedFromPending(result: Option<SubmitStatus>)
    ensures AfterResolve(Pending, result) != Fail
    ensures ShowsDots(AfterResolve(Pending, result)) <==> result.None? || result == Some(OtherStatus)
  {
  }

  class RequestView {
    var status: TxStatus

    /** The first render waits for confirmation. */
    constructor ()
      ensures status == Pending && ShowsDots(status) && IconFor(status) == Some(IconPending)
    {
      status := Pending;
    }

    /** The promise resolved with `result`. */
    method OnResolved(result: Option<SubmitStatus>)
      modifies this
      ensures status == AfterResolve(old(status), result)
    {
      if result.None? {
        return;
      }
      if result.value == SubmitSuccess {
        status := Success;
      } else if result.value == SubmitPending {
        status := AwaitSigners;
      }
    }

    /** The promise rejected. */
    method OnRejected()
      modifies this
      ensures status == Fail && IconFor(status) == Some(IconFail) && !ShowsDots(status)
    {
      status := Fail;
    }
  }
}
