/**
 * The transaction poller `_waitForStatusChangeResult`: after a lock or arm
 * command the result URI is polled until the vendor reports a result. Each
 * poll's outcome is an input; the timer that spaces the polls is not modelled.
 */
module Poller {
  import opened Common
  import opened Vendor

  /** The poller gives up on a "NO_DATA" reply once `retries > RetryLimit`. */
  const RetryLimit: nat := 7

  /** One poll of the result URI: the reply body's `result`, or the rejection of `apiCall`. */
  datatype PollReply = Reply(result: string) | Failure(error: Error)

  datatype PollStatus = Pending | Succeeded | Exhausted | PollFailed(error: Error)

  /** Where a wait stands after the given replies, and how many polls it made. */
  datatype WaitOutcome = WaitOutcome(status: PollStatus, polls: nat)

  /**
   * The wait, starting with `retries` earlier "NO_DATA" replies. It stays
   * Pending only when the replies run out.
   */
  function Wait(replies: seq<PollReply>, retries: nat): (r: WaitOutcome)
    ensures r.polls <= |replies|
    ensures r.status.Pending? ==> r.polls == |replies|
    ensures retries <= RetryLimit + 1 ==> r.polls <= RetryLimit + 2 - retries
    decreases |replies|
  {
    if replies == [] then WaitOutcome(Pending, 0)
    else match replies[0]
      case Failure(e) => WaitOutcome(PollFailed(e), 1)
      case Reply(result) =>
        if result != NoData then WaitOutcome(Succeeded, 1)
        else if retries > RetryLimit then WaitOutcome(Exhausted, 1)
        else var w := Wait(replies[1..], retries + 1); WaitOutcome(w.status, w.polls + 1)
  }

  /** The state of one wait: the retry counter and how the wait stands. */
  class TransactionPoller {
    var retries: nat
    var status: PollStatus
    var polls: nat

    ghost predicate Valid()
      reads this
    {
      retries <= RetryLimit + 1 && polls <= retries + 1 && (status.Pending? ==> polls == retries)
    }

    constructor()
      ensures Valid() && retries == 0 && status == Pending && polls == 0
    {
      retries, status, polls := 0, Pending, 0;
    }

    /** Handles the reply to one poll of a pending wait. */
    method Poll(reply: PollReply)
      requires Valid() && status.Pending?
      modifies this
      ensures Valid() && polls == old(polls) + 1
      ensures reply.Failure? ==> status == PollFailed(reply.error) && retries == old(retries)
      ensures reply.Reply? && reply.result != NoData ==> status == Succeeded && retries == old(retries)
      ensures reply == Reply(NoData) && old(retries) > RetryLimit ==> status == Exhausted && retries == old(retries)
      ensures reply == Reply(NoData) && old(retries) <= RetryLimit ==> status == Pending && retries == old(retries) + 1
    {
      polls := polls + 1;
      match reply
      case Failure(e) =>
        status := PollFailed(e);
      case Reply(result) =>
        if result != NoData {
          status := Succeeded;
        } else if retries > RetryLimit {
          status := Exhausted;
        } else {
          retries := retries + 1;
        }
    }
  }

  /** Polls with the given replies until the wait settles or the replies run out. */
  method WaitForStatusChangeResult(replies: seq<PollReply>) returns (outcome: WaitOutcome)
    ensures outcome == Wait(replies, 0)
  {
    var poller := new TransactionPoller();
    var i := 0;
    while i < |replies| && poller.status.Pending?
      invariant 0 <= i <= |replies|
      invariant poller.Valid() && poller.polls == i
      invariant poller.status.Pending? ==>
        var w := Wait(replies[i..], poller.retries); Wait(replies, 0) == WaitOutcome(w.status, w.polls + i)
      invariant !poller.status.Pending? ==> Wait(replies, 0) == WaitOutcome(poller.status, i)
    {
      assert replies[i..][1..] == replies[i + 1..];
      poller.Poll(replies[i]);
      i := i + 1;
    }
    outcome := WaitOutcome(poller.status, poller.polls);
  }

  function NoDataReplies(k: nat): (r: seq<PollReply>)
    ensures |r| == k && forall i :: 0 <= i < k ==> r[i] == Reply(NoData)
  {
    seq(k, _ => Reply(NoData))
  }

  /** Up to the limit, "NO_DATA" replies followed by a result resolve on the reply after them. */
  lemma {:induction false} NoDataThenResult(k: nat, retries: nat, result: string, rest: seq<PollReply>)
    requires result != NoData && retries + k <= RetryLimit + 1
    ensures Wait(NoDataReplies(k) + [Reply(result)] + rest, retries) == WaitOutcome(Succeeded, k + 1)
  {
    var s := NoDataReplies(k) + [Reply(result)] + rest;
    if k > 0 {
      assert s[1..] == NoDataReplies(k - 1) + [Reply(result)] + rest;
      NoDataThenResult(k - 1, retries + 1, result, rest);
    }
  }

  /** "NO_DATA" replies past the limit exhaust the wait on the last of them. */
  lemma {:induction false} NoDataExhausts(k: nat, retries: nat, rest: seq<PollReply>)
    requires k >= 1 && retries + k == RetryLimit + 2
    ensures Wait(NoDataReplies(k) + rest, retries) == WaitOutcome(Exhausted, k)
  {
    var s := NoDataReplies(k) + rest;
    if k > 1 {
      assert s[1..] == NoDataReplies(k - 1) + rest;
      NoDataExhausts(k - 1, retries + 1, rest);
    }
  }

  /** Eight "NO_DATA" replies and a result resolve on the ninth poll; nine "NO_DATA" replies give up on the ninth. */
  lemma NinthPoll(result: string, rest: seq<PollReply>)
    requires result != NoData
    ensures Wait(NoDataReplies(8) + [Reply(result)] + rest, 0) == WaitOutcome(Succeeded, 9)
    ensures Wait(NoDataReplies(9) + rest, 0) == WaitOutcome(Exhausted, 9)
  {
    NoDataThenResult(8, 0, result, rest);
    NoDataExhausts(9, 0, rest);
  }

  /**
   * What each way of settling says about the replies: every poll before the
   * last saw "NO_DATA", and the last poll saw what the status names.
   */
  lemma {:induction false} WaitShape(replies: seq<PollReply>, retries: nat)
    requires retries <= RetryLimit + 1
    ensures var w := Wait(replies, retries);
      && (forall i :: 0 <= i < w.polls - 1 ==> replies[i] == Reply(NoData))
      && (w.status == Succeeded ==> w.polls >= 1 && replies[w.polls - 1].Reply? && replies[w.polls - 1].result != NoData)
      && (w.status.PollFailed? ==> w.polls >= 1 && replies[w.polls - 1] == Failure(w.status.error))
      && (w.status == Exhausted ==> w.polls == RetryLimit + 2 - retries && replies[w.polls - 1] == Reply(NoData))
      && (w.status == Pending ==> forall i :: 0 <= i < |replies| ==> replies[i] == Reply(NoData))
  {
    if replies != [] && replies[0] == Reply(NoData) && retries <= RetryLimit {
      WaitShape(replies[1..], retries + 1);
    }
  }

  /** A wait that gives up has seen nine "NO_DATA" replies in a row. */
  lemma ExhaustedAfterNoData(replies: seq<PollReply>)
    requires Wait(replies, 0).status == Exhausted
    ensures |replies| >= RetryLimit + 2 && forall i :: 0 <= i < RetryLimit + 2 ==> replies[i] == Reply(NoData)
  {
    var n := RetryLimit + 2;
    var w := Wait(replies, 0);
    WaitShape(replies, 0);
    assert w.polls == n;
    forall i | 0 <= i < n ensures replies[i] == Reply(NoData) {
      if i < n - 1 { assert i < w.polls - 1; }
    }
  }

  /** Nine "NO_DATA" replies in a row make a wait give up. */
  lemma NoDataGivesUp(replies: seq<PollReply>)
    requires |replies| >= RetryLimit + 2 && forall i :: 0 <= i < RetryLimit + 2 ==> replies[i] == Reply(NoData)
    ensures Wait(replies, 0).status == Exhausted
  {
    var n := RetryLimit + 2;
    var prefix := NoDataReplies(n);
    assert replies == prefix + replies[n..] by {
      forall i | 0 <= i < |replies| ensures replies[i] == (prefix + replies[n..])[i] {
        if i < n { assert prefix[i] == Reply(NoData); }
      }
    }
    NoDataExhausts(n, 0, replies[n..]);
  }

  /** A wait gives up exactly when the first nine replies are all "NO_DATA". */
  lemma ExhaustedExactly(replies: seq<PollReply>)
    ensures Wait(replies, 0).status == Exhausted <==> |replies| >= RetryLimit + 2 && forall i :: 0 <= i < RetryLimit + 2 ==> replies[i] == Reply(NoData)
  {
    if Wait(replies, 0).status == Exhausted {
      ExhaustedAfterNoData(replies);
    }
    if |replies| >= RetryLimit + 2 && forall i :: 0 <= i < RetryLimit + 2 ==> replies[i] == Reply(NoData) {
      NoDataGivesUp(replies);
    }
  }

  // ===== the legacy poller =====

  /** A legacy poll: the body's `result`, or no response at all (reading its body throws). */
  datatype LegacyPollReply = LegacyReply(result: string) | NoResponseObject

  datatype LegacyWaitOutcome = Settled(polls: nat) | Crashed(polls: nat) | StillPolling(polls: nat)

  /** The legacy build's wait: every "NO_DATA" schedules another poll, without a bound. */
  function LegacyWait(replies: seq<LegacyPollReply>): (r: LegacyWaitOutcome)
    ensures r.polls <= |replies|
    ensures forall i :: 0 <= i < r.polls - 1 ==> replies[i] == LegacyReply(NoData)
    ensures r.StillPolling? <==> r.polls == |replies| && forall i :: 0 <= i < |replies| ==> replies[i] == LegacyReply(NoData)
    ensures r.Settled? ==> 0 < r.polls && replies[r.polls - 1].LegacyReply? && replies[r.polls - 1].result != NoData
    ensures r.Crashed? ==> 0 < r.polls && replies[r.polls - 1] == NoResponseObject
    decreases |replies|
  {
    if replies == [] then StillPolling(0)
    else match replies[0]
      case NoResponseObject => Crashed(1)
      case LegacyReply(result) =>
        if result != NoData then Settled(1)
        else match LegacyWait(replies[1..])
          case Settled(p) => Settled(p + 1)
          case Crashed(p) => Crashed(p + 1)
          case StillPolling(p) => StillPolling(p + 1)
  }

  function LegacyNoDataReplies(k: nat): (r: seq<LegacyPollReply>)
    ensures |r| == k && forall i :: 0 <= i < k ==> r[i] == LegacyReply(NoData)
  {
    seq(k, _ => LegacyReply(NoData))
  }

  /** However many "NO_DATA" replies come first, the legacy wait settles on the next result. */
  lemma {:induction false} LegacyNeverGivesUp(k: nat, result: string)
    requires result != NoData
    ensures LegacyWait(LegacyNoDataReplies(k)) == StillPolling(k)
    ensures LegacyWait(LegacyNoDataReplies(k) + [LegacyReply(result)]) == Settled(k + 1)
  {
    if k > 0 {
      assert LegacyNoDataReplies(k)[1..] == LegacyNoDataReplies(k - 1);
      assert (LegacyNoDataReplies(k) + [LegacyReply(result)])[1..] == LegacyNoDataReplies(k - 1) + [LegacyReply(result)];
      LegacyNeverGivesUp(k - 1, result);
    }
  }

  /** Nine "NO_DATA" replies then a result: the bounded poller has given up, the legacy one settles. */
  lemma BoundedAgainstLegacy(result: string)
    requires result != NoData
    ensures Wait(NoDataReplies(9) + [Reply(result)], 0).status == Exhausted
    ensures LegacyWait(LegacyNoDataReplies(9) + [LegacyReply(result)]) == Settled(10)
  {
    NoDataExhausts(9, 0, [Reply(result)]);
    LegacyNeverGivesUp(9, result);
  }
}
