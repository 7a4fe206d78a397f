/**
 What the HTTP engine makes of the replies it gets: which of them are errors, which errors are
 tried again, and what a phase without an error has seen.
*/
module EngineReplies {
  import opened Wrappers
  import opened ExecutionEngine

  /** A reply that is no error: a status below 400, every capture found, and no challenge while settling. */
  predicate Clean(phase: Phase, reply: Reply) {
    && reply.Response? && reply.status < 400 && reply.capture.None?
    && !(phase.Settle? && reply.challenge)
  }

  /** The same letters, the first in either case, the second in upper case. */
  predicate SameLetters(s: string, t: string) {
    && |s| == |t|
    && forall i :: 0 <= i < |s| ==> t[i] == if 'a' <= s[i] <= 'z' then s[i] - 'a' + 'A' else s[i]
  }

  lemma {:induction false} UpperLetters(s: string, t: string)
    ensures Upper(s) == t <==> SameLetters(s, t)
  {
    if s != "" {
      if t != "" { UpperLetters(s[1..], t[1..]); }
      assert forall i :: 0 <= i < |s| - 1 ==> s[1..][i] == s[i + 1];
      assert t != "" ==> forall i :: 0 <= i < |t| - 1 ==> t[1..][i] == t[i + 1];
      assert t != "" ==> t == [t[0]] + t[1..];
      assert Upper(s) == [UpperChar(s[0])] + Upper(s[1..]);
      if SameLetters(s, t) { assert t[0] == UpperChar(s[0]); }
    }
  }

  /** A request is mutating exactly when its verb, in whatever case, is none of the three that only read. */
  lemma MutatingExactly(r: Request)
    ensures Mutating(r)
            <==> !SameLetters(r.verb, "GET") && !SameLetters(r.verb, "HEAD") && !SameLetters(r.verb, "OPTIONS")
  {
    UpperLetters(r.verb, "GET");
    UpperLetters(r.verb, "HEAD");
    UpperLetters(r.verb, "OPTIONS");
  }

  predicate Sendable(s: Setting, r: Request) {
    r.url != "" && !(s.dryRun && Mutating(r))
  }

  /** The calls with the request of this attempt. */
  function With(calls: seq<Call>, i: nat, k: nat, r: Request): seq<Call> {
    calls + [Call(i, k, r)]
  }

  /**
   An attempt succeeds exactly when it sends nothing and does not fail by itself, or what it
   sends may be sent and gets a clean reply.
  */
  lemma SuccessExactly(s: Setting, i: nat, k: nat, calls: seq<Call>)
    ensures Attempted(s, i, k, calls).error.None?
            <==> match s.world.plan(i, k, calls)
                 case Quiet => true
                 case Fails(_) => false
                 case Send(r) => Sendable(s, r) && Clean(s.phase, s.world.reply(With(calls, i, k, r)))
  {
  }

  /** The error of an attempt that sends `r`, by what comes back. */
  lemma ErrorTable(s: Setting, i: nat, k: nat, calls: seq<Call>, r: Request, reply: Reply, error: Option<Code>)
    requires s.world.plan(i, k, calls) == Send(r) && Sendable(s, r)
    requires reply == s.world.reply(With(calls, i, k, r)) && error == Attempted(s, i, k, calls).error
    ensures reply.Throws? ==> error == Some(reply.code)
    ensures reply.Response? && s.phase.Settle? && reply.challenge ==> error == Some(Payment3dsRequired)
    ensures reply.Response? && !(s.phase.Settle? && reply.challenge) ==>
              && (reply.status == 429 ==> error == Some(RateLimited))
              && (reply.status >= 500 ==> error == Some(NetworkError))
              && (400 <= reply.status < 500 && reply.status != 429 ==>
                    error == if s.phase.Acquire? then Some(AcquireFailed)
                             else if reply.decline.Some? then reply.decline else Some(PaymentFailed))
              && (reply.status < 400 ==> error == reply.capture)
    ensures Attempted(s, i, k, calls).calls == With(calls, i, k, r)
  {
  }

  /** A request that may not be sent is not sent, and does not come to be tried again. */
  lemma NotSendable(s: Setting, i: nat, max: int, k: nat, calls: seq<Call>, r: Request)
    requires s.world.plan(i, k, calls) == Send(r) && !Sendable(s, r)
    ensures var o := StepFrom(s, i, max, k, calls);
            && o.calls == calls
            && o.error == if r.url == "" then Some(FlowValidationFailed) else Some(UserCancelled)
  {
  }

  /** The error of an attempt is tried again, as long as the step has retries left, or ends the step. */
  lemma RetryTable(s: Setting, i: nat, max: int, k: nat, calls: seq<Call>, o: Outcome)
    requires o == Attempted(s, i, k, calls) && o.error.Some? && k < max
    ensures var c := o.error.value;
            && (c == RateLimited || c == NetworkError || c == PaymentFailed || c == AcquireFailed || c == Unlisted
                || (c.Listed? && c.recovery.Retry?)
                ==> StepFrom(s, i, max, k, calls) == StepFrom(s, i, max, k + 1, o.calls))
            && (c == UserCancelled || c == FlowValidationFailed || c == Payment3dsRequired
                || (c.Listed? && !c.recovery.Retry?)
                ==> StepFrom(s, i, max, k, calls) == o)
  {
  }

  /** Without retries left the step ends, whatever the error. */
  lemma RetriesRunOut(s: Setting, i: nat, max: int, k: nat, calls: seq<Call>)
    requires k >= max
    ensures StepFrom(s, i, max, k, calls) == Attempted(s, i, k, calls)
  {
  }

  // ----- the same answer every time

  ghost predicate AlwaysSends(w: World, i: nat, r: Request) {
    forall n: nat, cs :: w.plan(i, n, cs) == Send(r)
  }

  lemma {:induction false} SameErrorRetried(s: Setting, i: nat, max: int, k: nat, calls: seq<Call>, r: Request, c: Code)
    requires AlwaysSends(s.world, i, r) && Sendable(s, r) && !Final(c)
    requires forall cs :: Verdict(s.phase, s.world.reply(cs)) == Some(c)
    ensures var o := StepFrom(s, i, max, k, calls);
            o.error == Some(c) && |o.calls| == |calls| + Max(max - k, 0) + 1
    decreases max - k
  {
    var o := Attempted(s, i, k, calls);
    assert s.world.plan(i, k, calls) == Send(r);
    assert o == Outcome(Some(c), With(calls, i, k, r));
    if k < max { SameErrorRetried(s, i, max, k + 1, o.calls, r, c); }
  }

  lemma SameErrorEnds(s: Setting, i: nat, max: int, calls: seq<Call>, r: Request, c: Code)
    requires AlwaysSends(s.world, i, r) && Sendable(s, r) && Final(c)
    requires forall cs :: Verdict(s.phase, s.world.reply(cs)) == Some(c)
    ensures StepFrom(s, i, max, 0, calls) == Outcome(Some(c), With(calls, i, 0, r))
  {
    assert s.world.plan(i, 0, calls) == Send(r);
  }

  /** A site that keeps answering 429, or 5xx, is asked once and then `retry.max` times more. */
  lemma BusyIsRetried(s: Setting, i: nat, max: int, calls: seq<Call>, r: Request, busy: bool)
    requires AlwaysSends(s.world, i, r) && Sendable(s, r)
    requires forall cs :: var reply := s.world.reply(cs);
               && reply.Response? && !(s.phase.Settle? && reply.challenge)
               && if busy then reply.status == 429 else reply.status >= 500
    ensures var o := StepFrom(s, i, max, 0, calls);
            && o.error == (if busy then Some(RateLimited) else Some(NetworkError))
            && |o.calls| == |calls| + Max(max, 0) + 1
  {
    SameErrorRetried(s, i, max, 0, calls, r, if busy then RateLimited else NetworkError);
  }

  /** A refusal without a decline code is tried as often: while settling, the payment is sent again each time. */
  lemma RefusalIsRetried(s: Setting, i: nat, max: int, calls: seq<Call>, r: Request)
    requires AlwaysSends(s.world, i, r) && Sendable(s, r)
    requires forall cs :: var reply := s.world.reply(cs);
               && reply.Response? && 400 <= reply.status < 500 && reply.status != 429
               && (s.phase.Settle? ==> reply.decline.None? && !reply.challenge)
    ensures var o := StepFrom(s, i, max, 0, calls);
            && o.error == (if s.phase.Settle? then Some(PaymentFailed) else Some(AcquireFailed))
            && |o.calls| == |calls| + Max(max, 0) + 1
  {
    SameErrorRetried(s, i, max, 0, calls, r, if s.phase.Settle? then PaymentFailed else AcquireFailed);
  }

  /** A decline that is not to be retried ends the settle step at once, and one that is, after all retries. */
  lemma DeclineByRecovery(s: Setting, i: nat, max: int, calls: seq<Call>, r: Request, name: string, recovery: Recovery)
    requires AlwaysSends(s.world, i, r) && Sendable(s, r) && s.phase.Settle?
    requires forall cs :: var reply := s.world.reply(cs);
               && reply.Response? && 400 <= reply.status < 500 && reply.status != 429 && !reply.challenge
               && reply.decline == Some(Listed(name, recovery))
    ensures var o := StepFrom(s, i, max, 0, calls);
            && o.error == Some(Listed(name, recovery))
            && |o.calls| == |calls| + if recovery.Retry? then Max(max, 0) + 1 else 1
  {
    if recovery.Retry? {
      SameErrorRetried(s, i, max, 0, calls, r, Listed(name, recovery));
    } else {
      SameErrorEnds(s, i, max, calls, r, Listed(name, recovery));
    }
  }

  /** An error egress throws is retried unless its code says otherwise; a code that is not listed is retried. */
  lemma ThrownByRecovery(s: Setting, i: nat, max: int, calls: seq<Call>, r: Request, c: Code)
    requires AlwaysSends(s.world, i, r) && Sendable(s, r) && (c.Listed? || c.Unlisted?)
    requires forall cs :: s.world.reply(cs) == Throws(c)
    ensures var o := StepFrom(s, i, max, 0, calls);
            && o.error == Some(c)
            && |o.calls| == |calls| + if c.Unlisted? || c.recovery.Retry? then Max(max, 0) + 1 else 1
  {
    if c.Unlisted? || c.recovery.Retry? {
      SameErrorRetried(s, i, max, 0, calls, r, c);
    } else {
      SameErrorEnds(s, i, max, calls, r, c);
    }
  }

  // ----- a phase without an error

  /**
   What a step does depends on the calls before it, not on its own attempts: a failed request
   leaves nothing behind that a step reads to decide whether and what to send.
  */
  ghost predicate Steady(w: World) {
    forall i: nat, k: nat, n: nat, cs, ds :: cs <= ds && OfStep(i, cs, ds) ==> w.plan(i, n, ds) == w.plan(i, k, cs)
  }

  /** The calls of `ds` behind `cs` are of step `i`. */
  ghost predicate OfStep(i: nat, cs: seq<Call>, ds: seq<Call>)
    requires cs <= ds
  {
    forall j :: |cs| <= j < |ds| ==> ds[j].step == i
  }

  lemma {:induction false} StepEndsClean(s: Setting, i: nat, max: int, k: nat, calls: seq<Call>)
    requires Steady(s.world) && StepFrom(s, i, max, k, calls).error.None?
    ensures var o := StepFrom(s, i, max, k, calls);
            if s.world.plan(i, k, calls).Send? then |o.calls| > |calls| && Clean(s.phase, s.world.reply(o.calls))
            else o.calls == calls
    decreases max - k
  {
    var o := Attempted(s, i, k, calls);
    SuccessExactly(s, i, k, calls);
    AttemptContinues(s, i, k, calls);
    if !Over(o.error, k, max) {
      assert OfStep(i, calls, o.calls);
      assert s.world.plan(i, k + 1, o.calls) == s.world.plan(i, k, calls);
      StepEndsClean(s, i, max, k + 1, o.calls);
      StepContinues(s, i, max, k + 1, o.calls);
    }
  }

  /** Call `j` is the last one of its step. */
  predicate LastOfStep(calls: seq<Call>, j: nat)
    requires j < |calls|
  {
    j == |calls| - 1 || calls[j + 1].step != calls[j].step
  }

  /** A phase that ends without an error has got a clean reply to the last call of each step that made one. */
  lemma {:induction false} PhaseEndsClean(s: Setting, retries: seq<int>, i: nat, calls: seq<Call>, j: nat)
    requires i <= |retries| && Steady(s.world) && PhaseFrom(s, retries, i, calls).error.None?
    requires |calls| <= j < |PhaseFrom(s, retries, i, calls).calls|
    requires LastOfStep(PhaseFrom(s, retries, i, calls).calls, j)
    ensures Clean(s.phase, s.world.reply(PhaseFrom(s, retries, i, calls).calls[..j + 1]))
    decreases |retries| - i
  {
    var r, o := StepFrom(s, i, retries[i], 0, calls), PhaseFrom(s, retries, i, calls);
    StepContinues(s, i, retries[i], 0, calls);
    StepEndsClean(s, i, retries[i], 0, calls);
    PhaseContinues(s, retries, i + 1, r.calls);
    if j < |r.calls| {
      LastIsLast(i, calls, r.calls, o.calls, j);
    } else {
      PhaseEndsClean(s, retries, i + 1, r.calls, j);
    }
  }

  lemma LastIsLast(i: nat, calls: seq<Call>, mid: seq<Call>, all: seq<Call>, j: nat)
    requires calls <= mid <= all && OfStep(i, calls, mid) && |calls| <= j < |mid| && LastOfStep(all, j)
    ensures all[..j + 1] == mid
  {
    assert forall l :: |calls| <= l < |mid| ==> all[l] == mid[l] && all[l].step == i;
  }

  /** A settle phase that ends without an error was never left with a refusal, a challenge or a server error. */
  lemma PaidMeansAccepted(s: Setting, retries: seq<int>, calls: seq<Call>)
    requires Steady(s.world) && s.phase.Settle? && PhaseFrom(s, retries, 0, calls).error.None?
    requires |PhaseFrom(s, retries, 0, calls).calls| > |calls|
    ensures var last := s.world.reply(PhaseFrom(s, retries, 0, calls).calls);
            last.Response? && last.status < 400 && !last.challenge && last.capture.None?
  {
    var o := PhaseFrom(s, retries, 0, calls);
    PhaseEndsClean(s, retries, 0, calls, |o.calls| - 1);
    assert o.calls[..|o.calls|] == o.calls;
  }
}
