/**
 The HTTP engine's step and retry loops, the phase loop over it, and the guard that decides
 between a dry run and a live one. `World` stands for everything outside: what a step makes of
 its context, and what comes back from the network, each any function of the calls made so far.
*/
module ExecutionEngine {
  import opened Wrappers

  datatype Recovery = Retry | Manual | Terminal

  /** The codes the engine itself uses, any other listed code, and errors without a listed code. */
  datatype Code =
    | UserCancelled
    | FlowValidationFailed
    | Payment3dsRequired
    | RateLimited
    | NetworkError
    | PaymentFailed
    | AcquireFailed
    | Listed(name: string, recovery: Recovery)
    | Unlisted

  function RecoveryOf(c: Code): Option<Recovery> {
    match c
    case UserCancelled => Some(Terminal)
    case FlowValidationFailed => Some(Manual)
    case Payment3dsRequired => Some(Manual)
    case RateLimited => Some(Retry)
    case NetworkError => Some(Retry)
    case PaymentFailed => Some(Retry)
    case AcquireFailed => Some(Retry)
    case Listed(_, r) => Some(r)
    case Unlisted => None
  }

  /** Errors that stop a step at once. */
  predicate Final(c: Code) {
    RecoveryOf(c).Some? && RecoveryOf(c).value != Retry
  }

  /** An empty `url` is a missing one. */
  datatype Request = Request(verb: string, url: string)

  function UpperChar(c: char): char {
    if 'a' <= c <= 'z' then c - 'a' + 'A' else c
  }

  function Upper(s: string): string {
    if s == "" then "" else [UpperChar(s[0])] + Upper(s[1..])
  }

  predicate ReadOnlyVerb(verb: string) {
    verb == "GET" || verb == "HEAD" || verb == "OPTIONS"
  }

  predicate Mutating(r: Request) {
    !ReadOnlyVerb(Upper(r.verb))
  }

  /** One request handed to egress, by the given attempt at the given step. */
  datatype Call = Call(step: nat, attempt: nat, request: Request)

  datatype Phase = Acquire | Settle

  /** What an attempt does: nothing that fails, fail by itself, or send a request. */
  datatype Plan = Quiet | Fails(code: Code) | Send(request: Request)

  /** `decline` is the code read off the body, `capture` the error of a capture that fails. */
  datatype Reply =
    | Throws(code: Code)
    | Response(status: int, challenge: bool, decline: Option<Code>, capture: Option<Code>)

  datatype World = World(plan: (nat, nat, seq<Call>) -> Plan, reply: seq<Call> -> Reply)

  /** The error a reply amounts to, if any. */
  function Verdict(phase: Phase, reply: Reply): Option<Code> {
    match reply
    case Throws(c) => Some(c)
    case Response(status, challenge, decline, capture) =>
      if phase.Settle? && challenge then Some(Payment3dsRequired)
      else if status == 429 then Some(RateLimited)
      else if status >= 500 then Some(NetworkError)
      else if status >= 400 then
        if phase.Settle? && decline.Some? then decline
        else Some(if phase.Settle? then PaymentFailed else AcquireFailed)
      else capture
  }

  /** The setting of a phase. */
  datatype Setting = Setting(world: World, phase: Phase, dryRun: bool)

  /** What became of an attempt, a step or a phase: its error, and the calls so far. */
  datatype Outcome = Outcome(error: Option<Code>, calls: seq<Call>)

  function Requested(s: Setting, i: nat, k: nat, r: Request, calls: seq<Call>): Outcome {
    if r.url == "" then Outcome(Some(FlowValidationFailed), calls)
    else if s.dryRun && Mutating(r) then Outcome(Some(UserCancelled), calls)
    else
      var made := calls + [Call(i, k, r)];
      Outcome(Verdict(s.phase, s.world.reply(made)), made)
  }

  /** Attempt `k` at step `i`. */
  function Attempted(s: Setting, i: nat, k: nat, calls: seq<Call>): Outcome {
    match s.world.plan(i, k, calls)
    case Quiet => Outcome(None, calls)
    case Fails(c) => Outcome(Some(c), calls)
    case Send(r) => Requested(s, i, k, r, calls)
  }

  /** The step is over after attempt `k`. */
  predicate Over(error: Option<Code>, k: nat, max: int) {
    error.None? || Final(error.value) || k >= max
  }

  /** Step `i` from attempt `k` on, with at most `max` retries. */
  function StepFrom(s: Setting, i: nat, max: int, k: nat, calls: seq<Call>): Outcome
    decreases max - k
  {
    var r := Attempted(s, i, k, calls);
    if Over(r.error, k, max) then r else StepFrom(s, i, max, k + 1, r.calls)
  }

  /** The steps from `i` on; `retries[i]` is the `retry.max` of step `i`. The first error ends the phase. */
  function PhaseFrom(s: Setting, retries: seq<int>, i: nat, calls: seq<Call>): Outcome
    requires i <= |retries|
    decreases |retries| - i
  {
    if i == |retries| then Outcome(None, calls)
    else
      var r := StepFrom(s, i, retries[i], 0, calls);
      if r.error.Some? then r else PhaseFrom(s, retries, i + 1, r.calls)
  }

  // ----- a step stops where it should

  /** The calls made by the first `k` attempts, were none of them to stop the step. */
  function CallsBefore(s: Setting, i: nat, k: nat, calls: seq<Call>): seq<Call> {
    if k == 0 then calls else Attempted(s, i, k - 1, CallsBefore(s, i, k - 1, calls)).calls
  }

  function AttemptAt(s: Setting, i: nat, k: nat, calls: seq<Call>): Outcome {
    Attempted(s, i, k, CallsBefore(s, i, k, calls))
  }

  /** The attempt failed with an error that may be retried. */
  predicate Retried(o: Outcome) {
    o.error.Some? && !Final(o.error.value)
  }

  /**
   A step ends with its first attempt that succeeds or fails with an error not to be retried,
   and with attempt number `max` at the latest; every attempt before that one failed with an
   error that may be retried.
  */
  ghost predicate StopsAt(s: Setting, i: nat, max: int, calls: seq<Call>, n: nat) {
    && n <= Max(max, 0)
    && (forall k :: 0 <= k < n ==> Retried(AttemptAt(s, i, k, calls)))
    && (var e := AttemptAt(s, i, n, calls).error; e.None? || Final(e.value) || n == Max(max, 0))
  }

  lemma {:induction false} StepStopsExactly(s: Setting, i: nat, max: int, calls: seq<Call>, n: nat)
    requires StopsAt(s, i, max, calls, n)
    ensures StepFrom(s, i, max, 0, calls) == AttemptAt(s, i, n, calls)
  {
    StepReaches(s, i, max, calls, n, n);
  }

  lemma {:induction false} StepReaches(s: Setting, i: nat, max: int, calls: seq<Call>, n: nat, k: nat)
    requires StopsAt(s, i, max, calls, n) && k <= n
    ensures StepFrom(s, i, max, 0, calls) == StepFrom(s, i, max, k, CallsBefore(s, i, k, calls))
  {
    if k > 0 {
      StepReaches(s, i, max, calls, n, k - 1);
      assert AttemptAt(s, i, k - 1, calls).error.Some?;
    }
  }

  /** There is exactly one such attempt. */
  lemma StepStopsOnce(s: Setting, i: nat, max: int, calls: seq<Call>)
    ensures exists n :: StopsAt(s, i, max, calls, n)
    ensures forall m, n :: StopsAt(s, i, max, calls, m) && StopsAt(s, i, max, calls, n) ==> m == n
  {
    var n := 0;
    while n < Max(max, 0) && Retried(AttemptAt(s, i, n, calls))
      invariant n <= Max(max, 0)
      invariant forall k :: 0 <= k < n ==> Retried(AttemptAt(s, i, k, calls))
    {
      n := n + 1;
    }
    assert StopsAt(s, i, max, calls, n);
  }

  // ----- how many calls, and in which order

  ghost predicate Earlier(a: Call, b: Call) {
    a.step < b.step || (a.step == b.step && a.attempt < b.attempt)
  }

  /** `now` continues `was` by calls in step order, each from attempt (`i`, `k`) or later. */
  ghost predicate Continues(was: seq<Call>, now: seq<Call>, i: nat, k: nat) {
    && was <= now
    && (forall j :: |was| <= j < |now| ==> now[j].step > i || (now[j].step == i && now[j].attempt >= k))
    && forall j, l :: |was| <= j < l < |now| ==> Earlier(now[j], now[l])
  }

  lemma AttemptContinues(s: Setting, i: nat, k: nat, calls: seq<Call>)
    ensures var r := Attempted(s, i, k, calls);
            && Continues(calls, r.calls, i, k) && |r.calls| <= |calls| + 1
            && forall j :: |calls| <= j < |r.calls| ==> r.calls[j].step == i && r.calls[j].attempt == k
  {
  }

  lemma {:induction false} StepContinues(s: Setting, i: nat, max: int, k: nat, calls: seq<Call>)
    ensures var r := StepFrom(s, i, max, k, calls);
            && Continues(calls, r.calls, i, k) && |r.calls| <= |calls| + Max(max - k, 0) + 1
            && forall j :: |calls| <= j < |r.calls| ==> r.calls[j].step == i
    decreases max - k
  {
    AttemptContinues(s, i, k, calls);
    var r := Attempted(s, i, k, calls);
    if !Over(r.error, k, max) {
      StepContinues(s, i, max, k + 1, r.calls);
    }
  }

  /** The attempts the steps from `i` on have between them. */
  function Allowance(retries: seq<int>, i: nat): nat
    requires i <= |retries|
    decreases |retries| - i
  {
    if i == |retries| then 0 else Max(retries[i], 0) + 1 + Allowance(retries, i + 1)
  }

  /**
   The calls of a phase are in step order, by attempts in order within a step, and at most as
   many as the steps' retries and first attempts together.
  */
  lemma {:induction false} PhaseContinues(s: Setting, retries: seq<int>, i: nat, calls: seq<Call>)
    requires i <= |retries|
    ensures var r := PhaseFrom(s, retries, i, calls);
            && Continues(calls, r.calls, i, 0) && |r.calls| <= |calls| + Allowance(retries, i)
    decreases |retries| - i
  {
    if i < |retries| {
      StepContinues(s, i, retries[i], 0, calls);
      var r := StepFrom(s, i, retries[i], 0, calls);
      if r.error.None? {
        PhaseContinues(s, retries, i + 1, r.calls);
      }
    }
  }

  /** No attempt goes beyond a step's retries, so neither does the number of calls a step makes. */
  lemma {:induction false} AttemptsWithinRetries(s: Setting, retries: seq<int>, i: nat, calls: seq<Call>, j: nat)
    requires i <= |retries| && |calls| <= j < |PhaseFrom(s, retries, i, calls).calls|
    ensures var c := PhaseFrom(s, retries, i, calls).calls[j];
            c.step < |retries| && c.attempt <= Max(retries[c.step], 0)
    decreases |retries| - i
  {
    if i < |retries| {
      var r := StepFrom(s, i, retries[i], 0, calls);
      StepContinues(s, i, retries[i], 0, calls);
      if j < |r.calls| {
        StepWithinRetries(s, i, retries[i], 0, calls, j);
        if r.error.None? { PhaseContinues(s, retries, i + 1, r.calls); }
      } else {
        AttemptsWithinRetries(s, retries, i + 1, r.calls, j);
      }
    }
  }

  lemma {:induction false} StepWithinRetries(s: Setting, i: nat, max: int, k: nat, calls: seq<Call>, j: nat)
    requires k <= Max(max, 0) && |calls| <= j < |StepFrom(s, i, max, k, calls).calls|
    ensures StepFrom(s, i, max, k, calls).calls[j].attempt <= Max(max, 0)
    decreases max - k
  {
    AttemptContinues(s, i, k, calls);
    var r := Attempted(s, i, k, calls);
    if !Over(r.error, k, max) {
      StepContinues(s, i, max, k + 1, r.calls);
      if j >= |r.calls| { StepWithinRetries(s, i, max, k + 1, r.calls, j); }
    }
  }

  /** The bound is reached: a request that is answered by errors that may be retried is sent every time. */
  lemma {:induction false} RetriesAreUsedUp(s: Setting, i: nat, max: int, k: nat, calls: seq<Call>, r: Request)
    requires forall n: nat, cs :: s.world.plan(i, n, cs) == Send(r)
    requires r.url != "" && !(s.dryRun && Mutating(r))
    requires forall cs :: var e := Verdict(s.phase, s.world.reply(cs)); e.Some? && !Final(e.value)
    ensures var o := StepFrom(s, i, max, k, calls);
            && o.error.Some? && |o.calls| == |calls| + Max(max - k, 0) + 1
            && forall j :: |calls| <= j < |o.calls| ==> o.calls[j].request == r
    decreases max - k
  {
    var made := calls + [Call(i, k, r)];
    assert Attempted(s, i, k, calls) == Outcome(Verdict(s.phase, s.world.reply(made)), made);
    if k < max {
      RetriesAreUsedUp(s, i, max, k + 1, made, r);
      StepContinues(s, i, max, k + 1, made);
      assert made <= StepFrom(s, i, max, k, calls).calls;
    }
  }

  // ----- an error that is not to be retried

  ghost predicate FinalReplyAt(s: Setting, calls: seq<Call>, j: nat)
    requires j < |calls|
  {
    var e := Verdict(s.phase, s.world.reply(calls[..j + 1])); e.Some? && Final(e.value)
  }

  lemma {:induction false} FinalReplyEndsStep(s: Setting, i: nat, max: int, k: nat, calls: seq<Call>, j: nat)
    requires |calls| <= j < |StepFrom(s, i, max, k, calls).calls|
    requires FinalReplyAt(s, StepFrom(s, i, max, k, calls).calls, j)
    ensures var o := StepFrom(s, i, max, k, calls);
            j == |o.calls| - 1 && o.error == Verdict(s.phase, s.world.reply(o.calls))
    decreases max - k
  {
    AttemptContinues(s, i, k, calls);
    var r, o := Attempted(s, i, k, calls), StepFrom(s, i, max, k, calls);
    if !Over(r.error, k, max) {
      StepContinues(s, i, max, k + 1, r.calls);
      assert o.calls[..|r.calls|] == r.calls;
      if j >= |r.calls| { FinalReplyEndsStep(s, i, max, k + 1, r.calls, j); }
    } else {
      assert o.calls[..j + 1] == o.calls;
    }
  }

  /** A reply that amounts to an error not to be retried is the last one of its phase, and the phase ends with it. */
  lemma {:induction false} FinalReplyEndsPhase(s: Setting, retries: seq<int>, i: nat, calls: seq<Call>, j: nat)
    requires i <= |retries| && |calls| <= j < |PhaseFrom(s, retries, i, calls).calls|
    requires FinalReplyAt(s, PhaseFrom(s, retries, i, calls).calls, j)
    ensures var o := PhaseFrom(s, retries, i, calls);
            j == |o.calls| - 1 && o.error == Verdict(s.phase, s.world.reply(o.calls))
    decreases |retries| - i
  {
    var r := StepFrom(s, i, retries[i], 0, calls);
    StepContinues(s, i, retries[i], 0, calls);
    if r.error.Some? {
      FinalReplyEndsStep(s, i, retries[i], 0, calls, j);
    } else {
      PhaseContinues(s, retries, i + 1, r.calls);
      assert r.calls[..|r.calls|] == r.calls;
      if j < |r.calls| {
        assert PhaseFrom(s, retries, i, calls).calls[..j + 1] == r.calls[..j + 1];
        FinalReplyEndsStep(s, i, retries[i], 0, calls, j);
      } else {
        FinalReplyEndsPhase(s, retries, i + 1, r.calls, j);
      }
    }
  }

  /** When the bank asks for a challenge, the settle phase sends nothing more, whatever the status of the reply. */
  lemma ChallengeEndsSettle(s: Setting, retries: seq<int>, calls: seq<Call>, j: nat)
    requires s.phase.Settle? && |calls| <= j < |PhaseFrom(s, retries, 0, calls).calls|
    requires var reply := s.world.reply(PhaseFrom(s, retries, 0, calls).calls[..j + 1]);
             reply.Response? && reply.challenge
    ensures var o := PhaseFrom(s, retries, 0, calls); j == |o.calls| - 1 && o.error == Some(Payment3dsRequired)
  {
    FinalReplyEndsPhase(s, retries, 0, calls, j);
    var o := PhaseFrom(s, retries, 0, calls);
    assert o.calls[..j + 1] == o.calls;
  }

  // ----- a dry run

  ghost predicate NothingMutated(calls: seq<Call>, from: nat) {
    forall j :: from <= j < |calls| ==> !Mutating(calls[j].request)
  }

  /**
   How a dry run compares with a live run against the same world: `dry` is `live` if that
   mutates nothing, and otherwise the part of it before its first mutating request, which the
   dry run refuses.
  */
  ghost predicate CutShort(was: seq<Call>, live: Outcome, dry: Outcome) {
    && was <= dry.calls <= live.calls && NothingMutated(dry.calls, |was|)
    && if dry.calls == live.calls then dry == live
       else dry.error == Some(UserCancelled) && Mutating(live.calls[|dry.calls|].request)
  }

  lemma AttemptCutShort(s: Setting, i: nat, k: nat, calls: seq<Call>)
    ensures CutShort(calls, Attempted(s.(dryRun := false), i, k, calls), Attempted(s.(dryRun := true), i, k, calls))
  {
  }

  /** What follows a live run that was already cut short does not matter. */
  lemma CutStaysShort(was: seq<Call>, live: Outcome, later: Outcome, dry: Outcome)
    requires CutShort(was, live, dry) && live.calls <= later.calls && dry.calls != live.calls
    ensures CutShort(was, later, dry)
  {
    assert |dry.calls| < |live.calls|;
  }

  lemma CutLater(was: seq<Call>, mid: seq<Call>, live: Outcome, dry: Outcome)
    requires was <= mid && NothingMutated(mid, |was|) && CutShort(mid, live, dry)
    ensures CutShort(was, live, dry)
  {
    forall j | |was| <= j < |dry.calls| ensures !Mutating(dry.calls[j].request) {
      if j < |mid| { assert dry.calls[j] == mid[j]; }
    }
  }

  lemma {:induction false} StepCutShort(s: Setting, i: nat, max: int, k: nat, calls: seq<Call>)
    ensures CutShort(calls, StepFrom(s.(dryRun := false), i, max, k, calls),
                     StepFrom(s.(dryRun := true), i, max, k, calls))
    decreases max - k
  {
    var live, dry := s.(dryRun := false), s.(dryRun := true);
    var l, d := Attempted(live, i, k, calls), Attempted(dry, i, k, calls);
    AttemptCutShort(s, i, k, calls);
    if d.calls != l.calls {
      StepContinues(live, i, max, k + 1, l.calls);
      CutStaysShort(calls, l, StepFrom(live, i, max, k, calls), d);
    } else if !Over(l.error, k, max) {
      StepCutShort(s, i, max, k + 1, l.calls);
      CutLater(calls, l.calls, StepFrom(live, i, max, k, calls), StepFrom(dry, i, max, k, calls));
    }
  }

  /**
   A dry run of a phase is the live run cut short before its first mutating request: it makes
   the same calls up to there, never a mutating one, and it ends as the live run does exactly
   when that makes none; otherwise it ends cancelled.
  */
  lemma {:induction false} DryRunIsLiveCutShort(s: Setting, retries: seq<int>, i: nat, calls: seq<Call>)
    requires i <= |retries|
    ensures CutShort(calls, PhaseFrom(s.(dryRun := false), retries, i, calls),
                     PhaseFrom(s.(dryRun := true), retries, i, calls))
    decreases |retries| - i
  {
    if i < |retries| {
      var live, dry := s.(dryRun := false), s.(dryRun := true);
      var l, d := StepFrom(live, i, retries[i], 0, calls), StepFrom(dry, i, retries[i], 0, calls);
      StepCutShort(s, i, retries[i], 0, calls);
      if d.calls != l.calls {
        if l.error.None? { PhaseContinues(live, retries, i + 1, l.calls); }
        CutStaysShort(calls, l, PhaseFrom(live, retries, i, calls), d);
      } else if l.error.None? {
        DryRunIsLiveCutShort(s, retries, i + 1, l.calls);
        CutLater(calls, l.calls, PhaseFrom(live, retries, i, calls), PhaseFrom(dry, retries, i, calls));
      }
    }
  }

  // ----- the guard

  const LIVE_CONFIRMATION_PHRASE := "EXECUTE_LIVE_TRANSACTION"

  /** The two environment flags, and what the caller's transaction control says. */
  datatype Control = Control(envDeveloper: bool, envLive: bool, developerMode: bool, executeLive: bool, phrase: string)

  datatype Decision = Decision(liveAllowed: bool, dryRunMode: bool)

  function Evaluate(c: Control): Decision {
    var developer := c.envDeveloper;
    var live := developer && c.envLive;
    var allowed := developer && live && c.developerMode && c.executeLive && c.phrase == LIVE_CONFIRMATION_PHRASE;
    Decision(allowed, !allowed)
  }

  /** Every one of the five conditions holds. */
  predicate FullyConfirmed(c: Control) {
    c.envDeveloper && c.envLive && c.developerMode && c.executeLive && c.phrase == "EXECUTE_LIVE_TRANSACTION"
  }

  /** Without a guard, acquiring is a dry run unless the caller says otherwise. */
  function AcquireDecision(guard: Option<Control>, dryRunMode: Option<bool>): Decision {
    if guard.Some? then Evaluate(guard.value) else Decision(dryRunMode == Some(false), dryRunMode != Some(false))
  }

  /** `assertAllowed` throws; None is its error. */
  function SettleDecision(guard: Option<Control>): Option<Decision> {
    if guard.Some? then (if Evaluate(guard.value).liveAllowed then Some(Evaluate(guard.value)) else None)
    else Some(Decision(true, false))
  }

  /** The steps of an acquire phase under what the guard decides. */
  function AcquirePhase(
    w: World, guard: Option<Control>, dryRunMode: Option<bool>, retries: seq<int>, calls: seq<Call>): Outcome
  {
    PhaseFrom(Setting(w, Acquire, AcquireDecision(guard, dryRunMode).dryRunMode), retries, 0, calls)
  }

  function SettlePhase(w: World, guard: Option<Control>, retries: seq<int>, calls: seq<Call>): Outcome {
    var d := SettleDecision(guard);
    if d.None? then Outcome(Some(UserCancelled), calls)
    else PhaseFrom(Setting(w, Settle, d.value.dryRunMode), retries, 0, calls)
  }

  /**
   Behind a guard that is not fully confirmed, whatever the flow and the servers do, acquiring
   hands egress no mutating request, and settling hands it no request at all.
  */
  lemma UnconfirmedMutatesNothing(w: World, c: Control, dryRunMode: Option<bool>, retries: seq<int>, calls: seq<Call>)
    requires !FullyConfirmed(c)
    ensures NothingMutated(AcquirePhase(w, Some(c), dryRunMode, retries, calls).calls, |calls|)
    ensures SettlePhase(w, Some(c), retries, calls) == Outcome(Some(UserCancelled), calls)
  {
    DryRunIsLiveCutShort(Setting(w, Acquire, true), retries, 0, calls);
  }

  /** Some flow and servers make acquiring hand egress a mutating request. */
  ghost predicate AcquireCanMutate(guard: Option<Control>, dryRunMode: Option<bool>) {
    exists w: World, retries: seq<int> :: !NothingMutated(AcquirePhase(w, guard, dryRunMode, retries, []).calls, 0)
  }

  ghost predicate SettleCanMutate(guard: Option<Control>) {
    exists w: World, retries: seq<int> :: !NothingMutated(SettlePhase(w, guard, retries, []).calls, 0)
  }

  /** A flow of one step that posts, and a server that accepts it. */
  function Posting(): World {
    World((i, k, calls) => Send(Request("POST", "/")), calls => Response(200, false, None, None))
  }

  lemma PostingMutates(phase: Phase)
    ensures !NothingMutated(PhaseFrom(Setting(Posting(), phase, false), [0], 0, []).calls, 0)
  {
    var s, r := Setting(Posting(), phase, false), Request("POST", "/");
    PostIsMutating(r);
    assert Attempted(s, 0, 0, []) == Outcome(None, [] + [Call(0, 0, r)]);
    var o := StepFrom(s, 0, 0, 0, []);
    assert o == Outcome(None, [Call(0, 0, r)]);
    assert PhaseFrom(s, [0], 0, []) == PhaseFrom(s, [0], 1, o.calls);
    assert Mutating(o.calls[0].request);
  }

  lemma PostIsMutating(r: Request)
    requires r.verb == "POST"
    ensures Mutating(r)
  {
    assert UpperChar('P') == 'P' && UpperChar('O') == 'O' && UpperChar('S') == 'S' && UpperChar('T') == 'T';
    assert Upper("T") == "T";
    assert "ST"[1..] == "T" && Upper("ST") == "ST";
    assert "OST"[1..] == "ST" && Upper("OST") == "OST";
    assert "POST"[1..] == "OST" && Upper("POST") == "POST";
  }

  /** Acquiring may run live. */
  predicate MayAcquireLive(guard: Option<Control>, dryRunMode: Option<bool>) {
    if guard.Some? then FullyConfirmed(guard.value) else dryRunMode == Some(false)
  }

  /**
   The guard keeps out exactly what it should: behind it a mutating request can be made in
   either phase, by some flow against some servers, exactly when all five conditions hold.
   Without a guard, acquiring can mutate exactly when the caller turns the dry run off, and
   settling always can.
  */
  lemma GuardExactly(guard: Option<Control>, dryRunMode: Option<bool>)
    ensures AcquireCanMutate(guard, dryRunMode) <==> MayAcquireLive(guard, dryRunMode)
    ensures SettleCanMutate(guard) <==> guard.None? || FullyConfirmed(guard.value)
  {
    if MayAcquireLive(guard, dryRunMode) {
      PostingMutates(Acquire);
      assert !NothingMutated(AcquirePhase(Posting(), guard, dryRunMode, [0], []).calls, 0);
    } else {
      forall w: World, retries: seq<int>
        ensures NothingMutated(AcquirePhase(w, guard, dryRunMode, retries, []).calls, 0)
      {
        DryRunIsLiveCutShort(Setting(w, Acquire, true), retries, 0, []);
      }
    }
    if guard.None? || FullyConfirmed(guard.value) {
      PostingMutates(Settle);
      assert !NothingMutated(SettlePhase(Posting(), guard, [0], []).calls, 0);
    } else {
      forall w: World, retries: seq<int> ensures NothingMutated(SettlePhase(w, guard, retries, []).calls, 0) {
        UnconfirmedMutatesNothing(w, guard.value, dryRunMode, retries, []);
      }
    }
  }

  // ----- the implementation

  class HttpExecutionEngine {
    const world: World
    /** The requests handed to egress. */
    var calls: seq<Call>

    constructor (world: World)
      ensures this.world == world && calls == []
    {
      this.world := world;
      calls := [];
    }

    method Fetch(s: Setting, i: nat, k: nat, r: Request) returns (error: Option<Code>)
      requires s.world == world
      modifies this
      ensures Outcome(error, calls) == Requested(s, i, k, r, old(calls))
    {
      if r.url == "" {
        return Some(FlowValidationFailed);
      }
      if s.dryRun && Mutating(r) {
        return Some(UserCancelled);
      }
      calls := calls + [Call(i, k, r)];
      error := Verdict(s.phase, world.reply(calls));
    }

    method RunOnce(s: Setting, i: nat, k: nat) returns (error: Option<Code>)
      requires s.world == world
      modifies this
      ensures Outcome(error, calls) == Attempted(s, i, k, old(calls))
    {
      match world.plan(i, k, calls) {
        case Quiet => error := None;
        case Fails(c) => error := Some(c);
        case Send(r) => error := Fetch(s, i, k, r);
      }
    }

    method RunStep(s: Setting, i: nat, max: int) returns (error: Option<Code>)
      requires s.world == world
      modifies this
      ensures Outcome(error, calls) == StepFrom(s, i, max, 0, old(calls))
    {
      ghost var goal := StepFrom(s, i, max, 0, calls);
      var attempt := 0;
      while true
        invariant StepFrom(s, i, max, attempt, calls) == goal
        decreases max - attempt
      {
        error := RunOnce(s, i, attempt);
        if error.None? || Final(error.value) || attempt >= max {
          return;
        }
        attempt := attempt + 1;
      }
    }

    /** The loop of `executePhase`; an error leaves it. */
    method ExecutePhase(s: Setting, retries: seq<int>) returns (error: Option<Code>)
      requires s.world == world
      modifies this
      ensures Outcome(error, calls) == PhaseFrom(s, retries, 0, old(calls))
    {
      ghost var goal := PhaseFrom(s, retries, 0, calls);
      error := None;
      for i := 0 to |retries|
        invariant error.None? && PhaseFrom(s, retries, i, calls) == goal
      {
        error := RunStep(s, i, retries[i]);
        if error.Some? {
          return;
        }
      }
    }
  }
}
