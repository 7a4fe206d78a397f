/**
 The verification of an order after its payment: the vendor is asked for the order's status
 once per interval until an answer closes the case or the intervals run out. `polls[i]` is
 the vendor's answer to poll `i`, or the error of that poll.
*/
module OrderVerifier {
  import opened Wrappers

  datatype Poll = Confirmed | CancelledByVendor | Refunded | Unknown | Pending | PollError | OtherStatus

  datatype Final = VerifiedOk | VendorCancelled | VendorRefunded | TimedOut

  /** The record kept with the task, and the urgent notifications sent. */
  datatype Verification = Verification(attempts: nat, final: Option<Final>, done: bool, urgent: nat)

  // ----- the answer, without a loop

  predicate Decisive(p: Poll) {
    p.Confirmed? || p.CancelledByVendor? || p.Refunded?
  }

  /** Poll `j` is unknown, and none from there to `i` is pending. */
  predicate StillUnknown(polls: seq<Poll>, j: nat, i: nat)
    requires j < i <= |polls|
  {
    polls[j].Unknown? && forall k :: j < k < i ==> !polls[k].Pending?
  }

  /** Poll `i` is unknown, and so was an earlier one with no pending answer in between. */
  predicate SecondUnknown(polls: seq<Poll>, i: nat)
    requires i < |polls|
  {
    polls[i].Unknown? && exists j :: 0 <= j < i && StillUnknown(polls, j, i)
  }

  predicate Closes(polls: seq<Poll>, i: nat)
    requires i < |polls|
  {
    Decisive(polls[i]) || SecondUnknown(polls, i)
  }

  function Verdict(p: Poll): Final {
    match p
    case Confirmed => VerifiedOk
    case CancelledByVendor => VendorCancelled
    case Refunded => VendorRefunded
    case _ => TimedOut
  }

  /** Poll `i` is the first that closes the case. */
  ghost predicate ClosesFirst(polls: seq<Poll>, i: nat) {
    i < |polls| && Closes(polls, i) && forall j :: 0 <= j < i ==> !Closes(polls, j)
  }

  /** Unknown answers since the last pending one, among the first `i`. */
  ghost function Streak(polls: seq<Poll>, i: nat): nat
    requires i <= |polls|
  {
    if i == 0 || polls[i - 1].Pending? then 0
    else Streak(polls, i - 1) + if polls[i - 1].Unknown? then 1 else 0
  }

  lemma {:induction false} StreakIsPositive(polls: seq<Poll>, i: nat)
    requires i <= |polls|
    ensures Streak(polls, i) > 0 <==> exists j :: 0 <= j < i && StillUnknown(polls, j, i)
  {
    if i > 0 {
      StreakIsPositive(polls, i - 1);
      assert polls[i - 1].Unknown? ==> StillUnknown(polls, i - 1, i);
      assert forall j :: 0 <= j < i - 1 ==>
          (StillUnknown(polls, j, i) <==> StillUnknown(polls, j, i - 1) && !polls[i - 1].Pending?);
      if Streak(polls, i - 1) > 0 && !polls[i - 1].Pending? {
        var j :| 0 <= j < i - 1 && StillUnknown(polls, j, i - 1);
        assert StillUnknown(polls, j, i);
      }
    }
  }

  /**
   The tick loop. It polls at most once per interval and stops at the first poll that closes
   the case, with that poll's verdict and one urgent notification unless the order was
   confirmed; if none closes it, it ends without a verdict after all intervals.
  */
  method Verify(polls: seq<Poll>) returns (v: Verification)
    ensures v.done && v.attempts <= |polls|
    ensures v.final.Some? ==> v.attempts > 0 && ClosesFirst(polls, v.attempts - 1)
                              && v.final.value == Verdict(polls[v.attempts - 1])
                              && v.urgent == (if v.final.value.VerifiedOk? then 0 else 1)
    ensures v.final.Some? ==>
              var answer := polls[v.attempts - 1];
              && (v.final.value.VerifiedOk? <==> answer.Confirmed?)
              && (v.final.value.VendorCancelled? <==> answer.CancelledByVendor?)
              && (v.final.value.VendorRefunded? <==> answer.Refunded?)
              && (v.final.value.TimedOut? <==> answer.Unknown?)
    ensures v.final.None? ==> v.attempts == |polls| && v.urgent == 0
    ensures v.final.None? ==> forall j :: 0 <= j < |polls| ==> !Closes(polls, j)
  {
    var attempts, unknownStreak := 0, 0;
    while attempts < |polls|
      invariant attempts <= |polls| && unknownStreak == Streak(polls, attempts) <= 1
      invariant forall j :: 0 <= j < attempts ==> !Closes(polls, j)
    {
      var status := polls[attempts];
      StreakIsPositive(polls, attempts);
      attempts := attempts + 1;
      match status {
        case PollError =>
        case Confirmed => return Verification(attempts, Some(VerifiedOk), true, 0);
        case CancelledByVendor => return Verification(attempts, Some(VendorCancelled), true, 1);
        case Refunded => return Verification(attempts, Some(VendorRefunded), true, 1);
        case Unknown =>
          unknownStreak := unknownStreak + 1;
          if unknownStreak >= 2 {
            return Verification(attempts, Some(TimedOut), true, 1);
          }
        case Pending => unknownStreak := 0;
        case OtherStatus =>
      }
    }
    v := Verification(attempts, None, true, 0);
  }

  // ----- polls that neither count nor reset

  predicate Neutral(p: Poll) {
    p.PollError? || p.OtherStatus?
  }

  function Without(polls: seq<Poll>, e: nat): seq<Poll>
    requires e < |polls|
  {
    polls[..e] + polls[e + 1..]
  }

  lemma StillUnknownWithout(polls: seq<Poll>, e: nat, j: nat, i: nat)
    requires e < |polls| && Neutral(polls[e]) && j < i <= |polls| && j != e && i != e
    ensures var j', i' := (if j < e then j else j - 1), (if i <= e then i else i - 1);
            j' < i' && (StillUnknown(polls, j, i) <==> StillUnknown(Without(polls, e), j', i'))
  {
    var q := Without(polls, e);
    var j', i' := (if j < e then j else j - 1), (if i <= e then i else i - 1);
    assert forall k :: 0 <= k < |q| ==> q[k] == polls[if k < e then k else k + 1];
    if StillUnknown(q, j', i') {
      forall k | j < k < i ensures !polls[k].Pending? {
        if k != e { assert polls[k] == q[if k < e then k else k - 1]; }
      }
    }
  }

  /** Leaving out a poll that failed, or answered with an unlisted status, closes the case at the same poll. */
  lemma NeutralPollsDoNotCount(polls: seq<Poll>, e: nat, i: nat)
    requires e < |polls| && Neutral(polls[e]) && i < |polls|
    ensures !Closes(polls, e)
    ensures i != e ==> (Closes(polls, i) <==> Closes(Without(polls, e), if i < e then i else i - 1))
  {
    if i != e {
      var q, i' := Without(polls, e), if i < e then i else i - 1;
      assert q[i'] == polls[i];
      forall j | 0 <= j < i && j != e
        ensures StillUnknown(polls, j, i) <==> StillUnknown(q, if j < e then j else j - 1, i')
      {
        StillUnknownWithout(polls, e, j, i);
      }
      if SecondUnknown(q, i') {
        var j' :| 0 <= j' < i' && StillUnknown(q, j', i');
        StillUnknownWithout(polls, e, if j' < e then j' else j' + 1, i);
      }
    }
  }
}
