/**
 A restock watch: it waits for signals, asks for confirmation if its policy says so, places
 an order through Sniper2, and goes on, stops or is quarantined after each result.

 The service's methods are asynchronous. An `Event` is one stretch of code between two
 suspensions, so whatever may run in between (a cancellation, a result) is another event:
 `SignalResumes` is the rest of a `fireSignal` call behind its first notification, and
 `RejectionResumes` the rest of `executeRestockOrder` behind a rejected `createTask`.
*/
module WatchLifecycle {
  import opened Wrappers
  import WM = WatchMachine

  type State = WM.State

  datatype Policy = Policy(maxOrders: Option<int>, requireConfirmation: bool, continueAfterSuccess: bool)

  /** `quarantineAfter` consecutive failures end a watch; `bridged` says whether there is a Sniper2 service. */
  datatype Config = Config(quarantineAfter: int, bridged: bool)

  /** What became of building and submitting the order. */
  datatype Bridge = Created | Rejected | InvalidIntent

  datatype Watch = Watch(
    policy: Policy,
    state: State,
    completedOrders: nat,
    consecutiveFailures: nat,
    quarantined: bool,
    notifying: nat,
    rejections: nat,
    tally: Tally)

  /** What has happened so far: accepted signals, user confirmations, tasks created, results recorded. */
  datatype Tally = Tally(accepted: nat, confirmed: nat, created: nat, recorded: nat)

  datatype Event =
    | FireSignal
    | SignalResumes(bridge: Bridge)
    | ConfirmFromUser(bridge: Bridge)
    | DismissConfirmation
    | ConfirmationTimeout
    | RejectionResumes
    | MarkResult(ok: bool)
    | Cancel
    | Pause
    | Resume

  function Cap(p: Policy): int {
    if p.maxOrders.Some? then p.maxOrders.value else 1
  }

  function Sent(w: Watch, e: WM.Event): Watch {
    w.(state := WM.Next(w.state, e))
  }

  predicate TakesSignal(w: Watch) {
    w.completedOrders < Cap(w.policy) && (w.state.Monitoring? || w.state.Configured? || w.state.Continued?)
  }

  function PolicyApplied(w: Watch): Watch {
    if w.policy.continueAfterSuccess && w.completedOrders < Cap(w.policy) then
      Sent(Sent(w, WM.OnContinue), WM.OnResume)
    else Sent(w, WM.OnExhaust)
  }

  function Executed(cfg: Config, w: Watch, bridge: Bridge): Watch {
    if !w.state.Executing? then w
    else if !cfg.bridged then PolicyApplied(Sent(w, WM.OnFailed))
    else
      match bridge
      case InvalidIntent => w
      case Created => w.(tally := w.tally.(created := w.tally.created + 1))
      case Rejected => w.(rejections := w.rejections + 1)
  }

  function ResultMarked(cfg: Config, w: Watch, ok: bool): Watch {
    if !w.state.Executing? then w
    else
      var counted := w.(tally := w.tally.(recorded := w.tally.recorded + 1));
      if ok then
        PolicyApplied(Sent(counted, WM.OnSucceeded)
                      .(completedOrders := w.completedOrders + 1, consecutiveFailures := 0))
      else
        var failures := w.consecutiveFailures + 1;
        var quarantined := failures >= cfg.quarantineAfter;
        var failed := Sent(counted, WM.OnFailed).(consecutiveFailures := failures, quarantined := quarantined);
        if quarantined then Sent(failed, WM.OnExhaust) else PolicyApplied(failed)
  }

  function Step(cfg: Config, w: Watch, e: Event): Watch {
    match e
    case FireSignal =>
      if !TakesSignal(w) then w
      else
        var resumed := if w.state.Continued? then Sent(w, WM.OnResume) else w;
        Sent(resumed, WM.OnSignal)
        .(notifying := w.notifying + 1, tally := w.tally.(accepted := w.tally.accepted + 1))
    case SignalResumes(bridge) =>
      if w.notifying == 0 then w
      else
        var r := w.(notifying := w.notifying - 1);
        if w.policy.requireConfirmation then Sent(r, WM.OnConfirm)
        else Executed(cfg, Sent(r, WM.OnExecute), bridge)
    case ConfirmFromUser(bridge) =>
      if !w.state.Confirming? then w
      else
        var r := w.(tally := w.tally.(confirmed := w.tally.confirmed + 1));
        Executed(cfg, Sent(r, WM.OnConfirmFromUser), bridge)
    case DismissConfirmation => if w.state.Confirming? then Sent(w, WM.OnTimeout) else w
    case ConfirmationTimeout => if w.state.Confirming? then Sent(w, WM.OnTimeout) else w
    case RejectionResumes =>
      if w.rejections == 0 then w
      else PolicyApplied(Sent(w.(rejections := w.rejections - 1), WM.OnFailed))
    case MarkResult(ok) => ResultMarked(cfg, w, ok)
    case Cancel => Sent(w, WM.OnCancel)
    case Pause => Sent(w, WM.OnPause)
    case Resume => Sent(w, WM.OnResume)
  }

  function NewWatch(policy: Policy): Watch {
    Watch(policy, WM.Monitoring, 0, 0, false, 0, 0, Tally(0, 0, 0, 0))
  }

  function Run(cfg: Config, policy: Policy, es: seq<Event>): Watch {
    if es == [] then NewWatch(policy)
    else Step(cfg, Run(cfg, policy, es[..|es| - 1]), es[|es| - 1])
  }

  // ----- how many orders a watch can place

  /** The caps that count: no order at all below one, and a quarantine threshold below one acts as one. */
  function Orders(w: Watch): nat { Max(Cap(w.policy), 0) }

  function Threshold(cfg: Config): nat { Max(cfg.quarantineAfter, 1) }

  /** `t` times `n`, as a sum. */
  function Times(t: nat, n: nat): nat {
    if n == 0 then 0 else t + Times(t, n - 1)
  }

  lemma {:induction false} TimesIsProduct(t: nat, n: nat)
    ensures Times(t, n) == t * n
  {
    if n > 0 { TimesIsProduct(t, n - 1); }
  }

  lemma {:induction false} TimesGrows(t: nat, m: nat, n: nat)
    requires m < n
    ensures Times(t, m) + t <= Times(t, n)
  {
    if m < n - 1 { TimesGrows(t, m, n - 1); }
  }

  /** What recorded results have used up of `Times(Threshold, Orders)`. */
  function Used(cfg: Config, w: Watch): nat {
    Times(Threshold(cfg), w.completedOrders) + w.consecutiveFailures
  }

  predicate Ordering(w: Watch) {
    w.state.Triggered? || w.state.Confirming? || w.state.Executing?
  }

  /** The states a watch rests in, and what a suspended signal call can find. */
  ghost predicate Shape(w: Watch) {
    && !w.state.Succeeded? && !w.state.Failed? && !w.state.Expired?
    && !w.state.Draft? && !w.state.Configured? && !w.state.Continued?
    && (w.notifying > 0 ==> w.notifying == 1 && (w.state.Triggered? || w.state.Cancelled?))
    && (w.state.Triggered? ==> w.notifying == 1)
    && (Ordering(w) ==> w.completedOrders < Cap(w.policy))
    && w.completedOrders <= Orders(w)
    && (w.tally.accepted == 0 ==> !Ordering(w) && w.tally.created == 0 && w.rejections == 0)
    && (w.tally.accepted > 0 ==> Orders(w) >= 1)
    && (!w.state.Exhausted? && Orders(w) >= 1 ==> w.completedOrders < Orders(w))
  }

  /** Every recorded result uses up at least one unit, and a live watch has one left. */
  ghost predicate Budgeted(cfg: Config, w: Watch) {
    && (!w.state.Exhausted? ==> w.consecutiveFailures < Threshold(cfg))
    && (Orders(w) >= 1 ==> Used(cfg, w) <= Times(Threshold(cfg), Orders(w)))
    && w.tally.recorded <= Used(cfg, w)
  }

  /** Every task created but the one in execution has its recorded result, its signal and its confirmation. */
  ghost predicate Counted(w: Watch) {
    && w.tally.created + w.rejections <= w.tally.recorded + (if w.state.Executing? || w.state.Cancelled? then 1 else 0)
    && (w.policy.requireConfirmation ==> w.tally.created + w.rejections <= w.tally.confirmed)
    && w.tally.confirmed + (if w.state.Triggered? || w.state.Confirming? then 1 else 0) <= w.tally.accepted
  }

  ghost predicate Inv(cfg: Config, w: Watch) {
    Shape(w) && Budgeted(cfg, w) && Counted(w)
  }

  lemma InvPolicy(w: Watch)
    requires w.state.Succeeded? || w.state.Failed?
    ensures var w' := PolicyApplied(w);
            && w' == w.(state := w'.state)
            && w'.state == (if w.policy.continueAfterSuccess && w.completedOrders < Cap(w.policy)
                            then WM.Monitoring else WM.Exhausted)
  {
  }

  lemma InvExecuted(cfg: Config, w: Watch, bridge: Bridge)
    requires w.state.Executing? && Inv(cfg, w) && w.tally.created + w.rejections <= w.tally.recorded
    requires w.tally.accepted > 0
    requires w.policy.requireConfirmation ==> w.tally.created + w.rejections < w.tally.confirmed
    ensures Inv(cfg, Executed(cfg, w, bridge))
  {
    if !cfg.bridged {
      InvPolicy(Sent(w, WM.OnFailed));
    }
  }

  lemma SuccessIs(cfg: Config, w: Watch)
    requires w.state.Executing?
    ensures var w' := ResultMarked(cfg, w, true);
            && w'.(state := w.state) == w.(tally := w.tally.(recorded := w.tally.recorded + 1),
                                           completedOrders := w.completedOrders + 1, consecutiveFailures := 0)
            && w'.state == (if w.policy.continueAfterSuccess && w.completedOrders + 1 < Cap(w.policy)
                            then WM.Monitoring else WM.Exhausted)
  {
    var counted := w.(tally := w.tally.(recorded := w.tally.recorded + 1));
    InvPolicy(Sent(counted, WM.OnSucceeded).(completedOrders := w.completedOrders + 1, consecutiveFailures := 0));
  }

  lemma FailureIs(cfg: Config, w: Watch)
    requires w.state.Executing?
    ensures var w' := ResultMarked(cfg, w, false);
            var failures := w.consecutiveFailures + 1;
            && w'.(state := w.state) == w.(tally := w.tally.(recorded := w.tally.recorded + 1),
                                           consecutiveFailures := failures,
                                           quarantined := failures >= cfg.quarantineAfter)
            && w'.state == (if failures < cfg.quarantineAfter && w.policy.continueAfterSuccess
                               && w.completedOrders < Cap(w.policy)
                            then WM.Monitoring else WM.Exhausted)
  {
    var counted := w.(tally := w.tally.(recorded := w.tally.recorded + 1));
    var failures := w.consecutiveFailures + 1;
    InvPolicy(Sent(counted, WM.OnFailed)
              .(consecutiveFailures := failures, quarantined := failures >= cfg.quarantineAfter));
  }

  /** A result keeps the invariant and uses up at least one unit. */
  lemma InvResult(cfg: Config, w: Watch, ok: bool)
    requires Inv(cfg, w) && w.state.Executing?
    ensures Inv(cfg, ResultMarked(cfg, w, ok))
    ensures Used(cfg, ResultMarked(cfg, w, ok)) > Used(cfg, w)
  {
    if ok { SuccessIs(cfg, w); } else { FailureIs(cfg, w); }
    TimesGrows(Threshold(cfg), w.completedOrders, Orders(w));
    if ok && w.completedOrders + 1 < Orders(w) {
      TimesGrows(Threshold(cfg), w.completedOrders + 1, Orders(w));
    }
  }

  lemma InvFire(cfg: Config, w: Watch)
    requires Inv(cfg, w)
    ensures Inv(cfg, Step(cfg, w, FireSignal))
  {
  }

  lemma InvSignal(cfg: Config, w: Watch, bridge: Bridge)
    requires Inv(cfg, w)
    ensures Inv(cfg, Step(cfg, w, SignalResumes(bridge)))
  {
    if w.notifying > 0 && w.state.Triggered? && !w.policy.requireConfirmation {
      InvExecuted(cfg, Sent(w.(notifying := w.notifying - 1), WM.OnExecute), bridge);
    }
  }

  lemma InvConfirm(cfg: Config, w: Watch, bridge: Bridge)
    requires Inv(cfg, w)
    ensures Inv(cfg, Step(cfg, w, ConfirmFromUser(bridge)))
  {
    if w.state.Confirming? {
      ConfirmIs(cfg, w, bridge);
      InvExecuted(cfg, Confirmed(w), bridge);
    }
  }

  /** The watch a user has just confirmed. */
  function Confirmed(w: Watch): Watch {
    w.(state := WM.Executing, tally := w.tally.(confirmed := w.tally.confirmed + 1))
  }

  lemma ConfirmIs(cfg: Config, w: Watch, bridge: Bridge)
    requires Inv(cfg, w) && w.state.Confirming?
    ensures Step(cfg, w, ConfirmFromUser(bridge)) == Executed(cfg, Confirmed(w), bridge)
    ensures Inv(cfg, Confirmed(w)) && w.tally.accepted > 0
  {
  }

  lemma RejectionIs(cfg: Config, w: Watch)
    requires w.rejections > 0
    ensures var w' := Step(cfg, w, RejectionResumes);
            && w' == w.(rejections := w.rejections - 1, state := w'.state)
            && (w.state.Executing? ==>
                  w'.state == (if w.policy.continueAfterSuccess && w.completedOrders < Cap(w.policy)
                               then WM.Monitoring else WM.Exhausted))
            && (!w.state.Executing? && !w.state.Succeeded? && !w.state.Failed? && w'.state != w.state ==>
                  w'.state.Monitoring? && (w.state.Configured? || w.state.Suspended? || w.state.Continued?))
  {
    if w.state.Executing? { InvPolicy(Sent(w.(rejections := w.rejections - 1), WM.OnFailed)); }
  }

  lemma InvRejection(cfg: Config, w: Watch)
    requires Inv(cfg, w)
    ensures Inv(cfg, Step(cfg, w, RejectionResumes))
  {
    if w.rejections > 0 {
      RejectionIs(cfg, w);
      InvRejected(cfg, w, Step(cfg, w, RejectionResumes));
    }
  }

  lemma InvRejected(cfg: Config, w: Watch, w': Watch)
    requires Inv(cfg, w) && w.rejections > 0 && w' == w.(rejections := w.rejections - 1, state := w'.state)
    requires w.state.Executing? ==> w'.state.Monitoring? || w'.state.Exhausted?
    requires !w.state.Executing? && w'.state != w.state ==>
               w'.state.Monitoring? && (w.state.Configured? || w.state.Suspended? || w.state.Continued?)
    ensures Inv(cfg, w')
  {
  }

  lemma InvStep(cfg: Config, w: Watch, e: Event)
    requires Inv(cfg, w)
    ensures Inv(cfg, Step(cfg, w, e))
  {
    match e
    case FireSignal => InvFire(cfg, w);
    case SignalResumes(bridge) => InvSignal(cfg, w, bridge);
    case ConfirmFromUser(bridge) => InvConfirm(cfg, w, bridge);
    case RejectionResumes => InvRejection(cfg, w);
    case MarkResult(ok) => if w.state.Executing? { InvResult(cfg, w, ok); }
    case DismissConfirmation =>
    case ConfirmationTimeout =>
    case Cancel =>
    case Pause =>
    case Resume =>
  }

  lemma PolicyStays(cfg: Config, w: Watch, e: Event)
    ensures Step(cfg, w, e).policy == w.policy
  {
  }

  lemma {:induction false} InvRun(cfg: Config, policy: Policy, es: seq<Event>)
    ensures Inv(cfg, Run(cfg, policy, es)) && Run(cfg, policy, es).policy == policy
  {
    if es != [] {
      InvRun(cfg, policy, es[..|es| - 1]);
      InvStep(cfg, Run(cfg, policy, es[..|es| - 1]), es[|es| - 1]);
      PolicyStays(cfg, Run(cfg, policy, es[..|es| - 1]), es[|es| - 1]);
    }
  }

  /**
   Over any run a watch completes at most `maxOrders` orders and creates at most `maxOrders`
   times the quarantine threshold tasks; and when confirmation is required, it creates no more
   tasks than the user confirmed, nor are there more confirmations than accepted signals.
  */
  lemma OrdersAreBounded(cfg: Config, policy: Policy, es: seq<Event>)
    ensures var w := Run(cfg, policy, es);
            var cap := if policy.maxOrders.Some? then policy.maxOrders.value else 1;
            && w.completedOrders <= Max(cap, 0)
            && w.tally.created <= Max(cfg.quarantineAfter, 1) * Max(cap, 0)
            && (policy.requireConfirmation ==> w.tally.created <= w.tally.confirmed)
            && w.tally.confirmed <= w.tally.accepted
  {
    InvRun(cfg, policy, es);
    var w := Run(cfg, policy, es);
    TimesIsProduct(Threshold(cfg), Orders(w));
    if w.tally.accepted > 0 && !w.state.Exhausted? {
      TimesGrows(Threshold(cfg), w.completedOrders, Orders(w));
    }
  }

  // ----- what the counters mean

  /** The results recorded in a run, in order. */
  function Results(cfg: Config, policy: Policy, es: seq<Event>): seq<bool> {
    if es == [] then []
    else
      var before, e := es[..|es| - 1], es[|es| - 1];
      Results(cfg, policy, before)
      + if e.MarkResult? && Run(cfg, policy, before).state.Executing? then [e.ok] else []
  }

  function Successes(rs: seq<bool>): nat {
    if rs == [] then 0 else Successes(rs[..|rs| - 1]) + if rs[|rs| - 1] then 1 else 0
  }

  /** The failures behind the last success. */
  function TrailingFailures(rs: seq<bool>): nat {
    if rs == [] || rs[|rs| - 1] then 0 else TrailingFailures(rs[..|rs| - 1]) + 1
  }

  /** The counters are those of the results; failures alone quarantine a watch, and it stops only for a reason. */
  ghost predicate Kept(cfg: Config, w: Watch, rs: seq<bool>) {
    && w.tally.recorded == |rs| && w.completedOrders == Successes(rs) && w.consecutiveFailures == TrailingFailures(rs)
    && (w.quarantined <==> TrailingFailures(rs) >= Threshold(cfg))
    && (w.quarantined ==> w.state.Exhausted?)
    && (w.state.Exhausted? ==> w.quarantined || !w.policy.continueAfterSuccess || w.completedOrders >= Cap(w.policy))
  }

  lemma KeptResult(cfg: Config, w: Watch, rs: seq<bool>, ok: bool)
    requires Kept(cfg, w, rs) && w.state.Executing?
    ensures Kept(cfg, ResultMarked(cfg, w, ok), rs + [ok])
  {
    assert (rs + [ok])[..|rs|] == rs;
    if ok { SuccessIs(cfg, w); } else { FailureIs(cfg, w); }
  }

  lemma KeptPolicy(cfg: Config, w: Watch, rs: seq<bool>)
    requires Kept(cfg, w, rs) && !w.state.Exhausted?
    ensures Kept(cfg, PolicyApplied(w), rs)
  {
  }

  lemma KeptSignal(cfg: Config, w: Watch, rs: seq<bool>, e: Event)
    requires Kept(cfg, w, rs) && (e.FireSignal? || e.SignalResumes? || e.ConfirmFromUser?)
    ensures Kept(cfg, Step(cfg, w, e), rs)
  {
  }

  lemma KeptRejection(cfg: Config, w: Watch, rs: seq<bool>, e: Event)
    requires Kept(cfg, w, rs) && e.RejectionResumes?
    ensures Kept(cfg, Step(cfg, w, e), rs)
  {
    if w.rejections > 0 {
      var failed := Sent(w.(rejections := w.rejections - 1), WM.OnFailed);
      if !w.state.Exhausted? { KeptPolicy(cfg, failed, rs); }
    }
  }

  lemma KeptSent(cfg: Config, w: Watch, rs: seq<bool>, e: Event)
    requires Kept(cfg, w, rs) && !(e.MarkResult? && w.state.Executing?)
    requires !e.FireSignal? && !e.SignalResumes? && !e.ConfirmFromUser? && !e.RejectionResumes?
    ensures Kept(cfg, Step(cfg, w, e), rs)
  {
  }

  lemma KeptOther(cfg: Config, w: Watch, rs: seq<bool>, e: Event)
    requires Kept(cfg, w, rs) && !(e.MarkResult? && w.state.Executing?)
    ensures Kept(cfg, Step(cfg, w, e), rs)
  {
    if e.FireSignal? || e.SignalResumes? || e.ConfirmFromUser? {
      KeptSignal(cfg, w, rs, e);
    } else if e.RejectionResumes? {
      KeptRejection(cfg, w, rs, e);
    } else {
      KeptSent(cfg, w, rs, e);
    }
  }

  lemma KeptStep(cfg: Config, w: Watch, rs: seq<bool>, e: Event, w': Watch, rs': seq<bool>)
    requires Kept(cfg, w, rs) && w' == Step(cfg, w, e)
    requires rs' == rs + if e.MarkResult? && w.state.Executing? then [e.ok] else []
    ensures Kept(cfg, w', rs')
  {
    if e.MarkResult? && w.state.Executing? {
      KeptResult(cfg, w, rs, e.ok);
    } else {
      assert rs' == rs;
      KeptOther(cfg, w, rs, e);
    }
  }

  /**
   In every run the watch counts exactly the recorded successes and the failures since the last
   of them; it is quarantined exactly when those failures reach the threshold; and it is
   exhausted only when it is quarantined, may not continue, or has all its orders.
  */
  lemma {:induction false} CountersAreExact(cfg: Config, policy: Policy, es: seq<Event>)
    ensures Kept(cfg, Run(cfg, policy, es), Results(cfg, policy, es))
  {
    if es != [] {
      var before, e := es[..|es| - 1], es[|es| - 1];
      CountersAreExact(cfg, policy, before);
      KeptStep(cfg, Run(cfg, policy, before), Results(cfg, policy, before), e,
               Run(cfg, policy, es), Results(cfg, policy, es));
    }
  }

  // ----- a watch that has stopped

  predicate Stopped(w: Watch) {
    w.state.Cancelled? || w.state.Exhausted?
  }

  /** Everything that counts is as it was; only calls suspended before may have ended. */
  predicate StandsStill(w: Watch, w': Watch) {
    && w'.state == w.state && w'.policy == w.policy && w'.quarantined == w.quarantined
    && w'.completedOrders == w.completedOrders && w'.consecutiveFailures == w.consecutiveFailures
    && w'.tally == w.tally && w'.notifying <= w.notifying && w'.rejections <= w.rejections
  }

  lemma StoppedStep(cfg: Config, w: Watch, e: Event, w': Watch)
    requires Stopped(w) && w' == Step(cfg, w, e)
    ensures StandsStill(w, w')
  {
  }

  /** The run continued. */
  lemma RunOn(cfg: Config, policy: Policy, es: seq<Event>, more: seq<Event>)
    requires more != []
    ensures Run(cfg, policy, es + more) == Step(cfg, Run(cfg, policy, es + more[..|more| - 1]), more[|more| - 1])
  {
    assert (es + more)[..|es + more| - 1] == es + more[..|more| - 1];
  }

  lemma {:induction false} StoppedStays(cfg: Config, policy: Policy, es: seq<Event>, more: seq<Event>)
    requires Stopped(Run(cfg, policy, es))
    ensures StandsStill(Run(cfg, policy, es), Run(cfg, policy, es + more))
    decreases |more|
  {
    if more == [] {
      assert es + more == es;
    } else {
      var before := more[..|more| - 1];
      RunOn(cfg, policy, es, more);
      StoppedStays(cfg, policy, es, before);
      StoppedStep(cfg, Run(cfg, policy, es + before), more[|more| - 1], Run(cfg, policy, es + more));
    }
  }

  lemma CancelStops(cfg: Config, w: Watch)
    requires Inv(cfg, w) && !w.state.Exhausted?
    ensures Step(cfg, w, Cancel) == w.(state := WM.Cancelled)
  {
  }

  /**
   Cancelling stops a watch for good: in every reachable state but an exhausted one it is
   cancelled, and whatever comes later, a confirmation, a result, a signal call or a rejection
   that was suspended, it stays so; no signal is accepted any more, no result is recorded, and
   neither the tasks created nor the orders completed ever grow.
  */
  lemma CancelledForGood(cfg: Config, policy: Policy, es: seq<Event>, more: seq<Event>, w: Watch, w': Watch)
    requires w == Run(cfg, policy, es) && w' == Run(cfg, policy, es + [Cancel] + more) && !w.state.Exhausted?
    ensures w'.state.Cancelled? && w'.tally == w.tally && w'.completedOrders == w.completedOrders
  {
    InvRun(cfg, policy, es);
    CancelStops(cfg, w);
    RunAppend(cfg, policy, es, Cancel);
    StoppedStays(cfg, policy, es + [Cancel], more);
  }

  /** An exhausted watch, too, has stopped for good, and cancelling it changes nothing. */
  lemma ExhaustedForGood(cfg: Config, policy: Policy, es: seq<Event>, more: seq<Event>, w: Watch, w': Watch)
    requires w == Run(cfg, policy, es) && w' == Run(cfg, policy, es + more) && w.state.Exhausted?
    ensures w'.state.Exhausted? && w'.tally == w.tally && w'.completedOrders == w.completedOrders
  {
    StoppedStays(cfg, policy, es, more);
  }

  // ----- pausing and confirming

  /** A paused watch accepts no signal until it is resumed, unless a suspended rejection resumes it. */
  lemma {:induction false} PausedWaits(cfg: Config, w: Watch, more: seq<Event>)
    requires w.state.Suspended? && w.rejections == 0 && w.notifying == 0
    requires forall i :: 0 <= i < |more| ==> !more[i].Resume? && !more[i].Cancel?
    ensures RunFrom(cfg, w, more) == w
    decreases |more|
  {
    if more != [] {
      PausedStep(cfg, w, more[0]);
      PausedWaits(cfg, w, more[1..]);
    }
  }

  function RunFrom(cfg: Config, w: Watch, es: seq<Event>): Watch
    decreases |es|
  {
    if es == [] then w else RunFrom(cfg, Step(cfg, w, es[0]), es[1..])
  }

  lemma PausedStep(cfg: Config, w: Watch, e: Event)
    requires w.state.Suspended? && w.rejections == 0 && w.notifying == 0 && !e.Resume? && !e.Cancel?
    ensures Step(cfg, w, e) == w
  {
  }

  /** Pausing a watch at rest and resuming it gives it back as it was, able to take signals again. */
  lemma PauseAndResume(cfg: Config, w: Watch)
    requires w.state.Monitoring?
    ensures Step(cfg, w, Pause).state.Suspended? && Step(cfg, Step(cfg, w, Pause), Resume) == w
    ensures !TakesSignal(Step(cfg, w, Pause))
  {
  }

  /** A watch at rest below its cap, as a signal and its notification leave it. */
  function Signalled(cfg: Config, w: Watch, bridge: Bridge): Watch {
    Step(cfg, Step(cfg, w, FireSignal), SignalResumes(bridge))
  }

  /**
   The confirmation gate: where confirmation is required, an accepted signal creates nothing
   and waits; a confirmation creates the task; a dismissal and a timeout create none, and the
   watch takes signals again. Where it is not required the signal itself creates the task.
  */
  lemma ConfirmationGate(cfg: Config, w: Watch, bridge: Bridge)
    requires cfg.bridged && w.state.Monitoring? && w.notifying == 0 && w.completedOrders < Cap(w.policy)
    ensures var s := Signalled(cfg, w, bridge);
            s.tally.accepted == w.tally.accepted + 1 &&
            if w.policy.requireConfirmation then
              && s.state.Confirming? && s.tally.created == w.tally.created
              && Step(cfg, s, ConfirmFromUser(Created)).state.Executing?
              && Step(cfg, s, ConfirmFromUser(Created)).tally.created == w.tally.created + 1
              && Step(cfg, s, DismissConfirmation) == w.(tally := s.tally) == Step(cfg, s, ConfirmationTimeout)
            else s.state.Executing? && s.tally.created == w.tally.created + if bridge.Created? then 1 else 0
  {
  }

  /** Goes on below the cap if the policy says so, and stops otherwise. */
  predicate GoesOn(w: Watch, w': Watch) {
    && w'.completedOrders == w.completedOrders && w'.consecutiveFailures == w.consecutiveFailures
    && w'.tally.created == w.tally.created && w'.tally.recorded == w.tally.recorded
    && if w.policy.continueAfterSuccess && w.completedOrders < Cap(w.policy) then w'.state.Monitoring?
       else w'.state.Exhausted?
  }

  /**
   An order that does not come about counts neither as created nor as a failure. Without a
   bridge the watch goes on or stops at once, and after a rejection once it is known; with an
   intent that cannot be built it stays executing.
  */
  lemma OrderFails(cfg: Config, w: Watch, bridge: Bridge)
    requires w.state.Monitoring? && w.notifying == 0 && w.rejections == 0 && w.completedOrders < Cap(w.policy)
    requires !w.policy.requireConfirmation
    ensures var s := Signalled(cfg, w, bridge);
            && (!cfg.bridged ==> GoesOn(w, s))
            && (cfg.bridged && bridge.Rejected? ==>
                  s.state.Executing? && s.tally.created == w.tally.created && GoesOn(w, Step(cfg, s, RejectionResumes)))
            && (cfg.bridged && bridge.InvalidIntent? ==>
                  s.state.Executing? && s.tally.created == w.tally.created && s.rejections == 0)
  {
    OrderFailsBy(cfg, w, bridge, Signalled(cfg, w, bridge));
  }

  lemma OrderFailsBy(cfg: Config, w: Watch, bridge: Bridge, s: Watch)
    requires w.state.Monitoring? && w.notifying == 0 && w.rejections == 0 && w.completedOrders < Cap(w.policy)
    requires !w.policy.requireConfirmation && s == Signalled(cfg, w, bridge)
    ensures !cfg.bridged ==> GoesOn(w, s)
    ensures cfg.bridged && bridge.Rejected? ==>
              s.state.Executing? && s.rejections == 1 && s.tally.created == w.tally.created
              && GoesOn(w, Step(cfg, s, RejectionResumes))
    ensures cfg.bridged && bridge.InvalidIntent? ==>
              s.state.Executing? && s.rejections == 0 && s.tally.created == w.tally.created
  {
    if s.rejections > 0 { RejectionIs(cfg, s); }
  }

  /** Below its cap a watch at rest accepts every signal; at its cap, or at work, none. */
  lemma SignalAccepted(cfg: Config, policy: Policy, es: seq<Event>, w: Watch)
    requires w == Run(cfg, policy, es)
    ensures Step(cfg, w, FireSignal).tally.accepted == w.tally.accepted + 1
            <==> w.state.Monitoring? && w.completedOrders < Cap(policy)
    ensures Step(cfg, w, FireSignal).tally.accepted == w.tally.accepted
            <==> !w.state.Monitoring? || w.completedOrders >= Cap(policy)
  {
    InvRun(cfg, policy, es);
  }

  // ----- the bound is reached

  /** `es`, then a signal, its order, and the order's result. */
  function Cycled(es: seq<Event>, ok: bool): seq<Event> {
    es + [FireSignal] + [SignalResumes(Created)] + [MarkResult(ok)]
  }

  lemma RunAppend(cfg: Config, policy: Policy, es: seq<Event>, e: Event)
    ensures Run(cfg, policy, es + [e]) == Step(cfg, Run(cfg, policy, es), e)
  {
    assert (es + [e])[..|es|] == es;
  }

  lemma RunThree(
    cfg: Config, policy: Policy, es: seq<Event>, d: Event, e: Event, f: Event, a: Watch, b: Watch, c: Watch)
    requires Step(cfg, Run(cfg, policy, es), d) == a && Step(cfg, a, e) == b && Step(cfg, b, f) == c
    ensures Run(cfg, policy, es + [d] + [e] + [f]) == c
  {
    RunAppend(cfg, policy, es, d);
    RunAppend(cfg, policy, es + [d], e);
    RunAppend(cfg, policy, es + [d] + [e], f);
  }

  /** A watch behind `n` cycles, with `done` orders completed and `failed` failures since. */
  function At(
    policy: Policy, state: State, done: nat, failed: nat, notifying: nat,
    accepted: nat, created: nat, recorded: nat): Watch
  {
    Watch(policy, state, done, failed, false, notifying, 0, Tally(accepted, 0, created, recorded))
  }

  function Resting(policy: Policy, done: nat, failed: nat, n: nat): Watch {
    At(policy, WM.Monitoring, done, failed, 0, n, n, n)
  }

  ghost predicate Unhindered(cfg: Config, policy: Policy) {
    && cfg.bridged && !policy.requireConfirmation && policy.continueAfterSuccess
    && cfg.quarantineAfter >= 1 && Cap(policy) >= 1
  }

  lemma Fires(cfg: Config, policy: Policy, done: nat, failed: nat, n: nat)
    requires done < Cap(policy)
    ensures Step(cfg, Resting(policy, done, failed, n), FireSignal)
            == At(policy, WM.Triggered, done, failed, 1, n + 1, n, n)
  {
  }

  lemma Creates(cfg: Config, policy: Policy, done: nat, failed: nat, n: nat)
    requires Unhindered(cfg, policy)
    ensures Step(cfg, At(policy, WM.Triggered, done, failed, 1, n + 1, n, n), SignalResumes(Created))
            == At(policy, WM.Executing, done, failed, 0, n + 1, n + 1, n)
  {
  }

  lemma CycleFrom(cfg: Config, policy: Policy, es: seq<Event>, done: nat, failed: nat, n: nat, ok: bool)
    requires Unhindered(cfg, policy) && done < Cap(policy)
    requires Run(cfg, policy, es) == Resting(policy, done, failed, n)
    ensures Run(cfg, policy, Cycled(es, ok))
            == ResultMarked(cfg, At(policy, WM.Executing, done, failed, 0, n + 1, n + 1, n), ok)
  {
    var a := At(policy, WM.Triggered, done, failed, 1, n + 1, n, n);
    var b := At(policy, WM.Executing, done, failed, 0, n + 1, n + 1, n);
    Fires(cfg, policy, done, failed, n);
    Creates(cfg, policy, done, failed, n);
    RunThree(cfg, policy, es, FireSignal, SignalResumes(Created), MarkResult(ok), a, b, Step(cfg, b, MarkResult(ok)));
  }

  lemma Marked(cfg: Config, policy: Policy, done: nat, failed: nat, n: nat, ok: bool)
    requires Unhindered(cfg, policy) && done < Cap(policy)
    ensures var w := ResultMarked(cfg, At(policy, WM.Executing, done, failed, 0, n + 1, n + 1, n), ok);
            && w.tally.created == n + 1
            && (!ok && failed + 1 < cfg.quarantineAfter ==> w == Resting(policy, done, failed + 1, n + 1))
            && (ok && done + 1 < Cap(policy) ==> w == Resting(policy, done + 1, 0, n + 1))
  {
    var w := At(policy, WM.Executing, done, failed, 0, n + 1, n + 1, n);
    if ok { SuccessIs(cfg, w); } else { FailureIs(cfg, w); }
  }

  lemma {:induction false} Reach(cfg: Config, policy: Policy, done: nat, failed: nat, n: nat) returns (es: seq<Event>)
    requires Unhindered(cfg, policy) && done < Cap(policy) && failed < cfg.quarantineAfter
    requires n == Times(cfg.quarantineAfter, done) + failed
    ensures Run(cfg, policy, es) == Resting(policy, done, failed, n)
    decreases done, failed
  {
    if failed > 0 {
      var was := Reach(cfg, policy, done, failed - 1, n - 1);
      CycleFrom(cfg, policy, was, done, failed - 1, n - 1, false);
      Marked(cfg, policy, done, failed - 1, n - 1, false);
      es := Cycled(was, false);
    } else if done > 0 {
      var was := Reach(cfg, policy, done - 1, cfg.quarantineAfter - 1, n - 1);
      CycleFrom(cfg, policy, was, done - 1, cfg.quarantineAfter - 1, n - 1, true);
      Marked(cfg, policy, done - 1, cfg.quarantineAfter - 1, n - 1, true);
      es := Cycled(was, true);
    } else {
      es := [];
    }
  }

  /** The number of cycles before the last one. */
  lemma TimesLast(t: nat, m: nat) returns (n: nat)
    requires t >= 1 && m >= 1
    ensures n == Times(t, m - 1) + (t - 1) && n + 1 == t * m
  {
    TimesIsProduct(t, m);
    n := t * m - 1;
  }

  lemma OneMore(cfg: Config, policy: Policy, es: seq<Event>, done: nat, failed: nat, n: nat)
    requires Unhindered(cfg, policy) && done < Cap(policy)
    requires Run(cfg, policy, es) == Resting(policy, done, failed, n)
    ensures Run(cfg, policy, Cycled(es, true)).tally.created == n + 1
  {
    CycleFrom(cfg, policy, es, done, failed, n, true);
    Marked(cfg, policy, done, failed, n, true);
  }

  /** The bound on the tasks created is the best one: some run reaches it. */
  lemma BoundIsReached(cfg: Config, policy: Policy) returns (run: seq<Event>)
    requires Unhindered(cfg, policy)
    ensures Run(cfg, policy, run).tally.created == cfg.quarantineAfter * Cap(policy)
  {
    var done, failed := Cap(policy) - 1, cfg.quarantineAfter - 1;
    var n := TimesLast(cfg.quarantineAfter, Cap(policy));
    var es := Reach(cfg, policy, done, failed, n);
    OneMore(cfg, policy, es, done, failed, n);
    run := Cycled(es, true);
  }

  // ----- the implementation

  /**
   One watch as the service keeps it. The suspended calls are counted in `notifying` and
   `rejections`; a call that has nothing to resume does nothing. `tally` is history only.
  */
  class RestockWatch {
    const cfg: Config
    const policy: Policy
    var state: State
    var completedOrders: nat
    var consecutiveFailures: nat
    var quarantined: bool
    var notifying: nat
    var rejections: nat
    ghost var tally: Tally

    ghost function View(): Watch
      reads this
    {
      Watch(policy, state, completedOrders, consecutiveFailures, quarantined, notifying, rejections, tally)
    }

    constructor (cfg: Config, policy: Policy)
      ensures View() == NewWatch(policy) && this.cfg == cfg
    {
      this.cfg, this.policy := cfg, policy;
      state, completedOrders, consecutiveFailures, quarantined := WM.Monitoring, 0, 0, false;
      notifying, rejections, tally := 0, 0, Tally(0, 0, 0, 0);
    }

    method Send(e: WM.Event)
      modifies this`state
      ensures View() == Sent(old(View()), e)
    {
      state := WM.Next(state, e);
    }

    method FireSignal() returns (accepted: bool)
      modifies this
      ensures View() == Step(cfg, old(View()), Event.FireSignal)
      ensures accepted <==> TakesSignal(old(View()))
    {
      var cap := if policy.maxOrders.Some? then policy.maxOrders.value else 1;
      if completedOrders >= cap {
        return false;
      }
      if !(state.Monitoring? || state.Configured? || state.Continued?) {
        return false;
      }
      if state.Continued? {
        Send(WM.OnResume);
      }
      Send(WM.OnSignal);
      tally := tally.(accepted := tally.accepted + 1);
      notifying := notifying + 1;
      accepted := true;
    }

    /** The rest of an accepted `FireSignal`, behind its notification. */
    method ResumeSignal(bridge: Bridge)
      modifies this
      ensures View() == Step(cfg, old(View()), SignalResumes(bridge))
    {
      if notifying > 0 {
        notifying := notifying - 1;
        if policy.requireConfirmation {
          Send(WM.OnConfirm);
        } else {
          Send(WM.OnExecute);
          ExecuteRestockOrder(bridge);
        }
      }
    }

    /** Throws (answers false) unless the watch awaits confirmation. */
    method ConfirmFromUser(bridge: Bridge) returns (ok: bool)
      modifies this
      ensures View() == Step(cfg, old(View()), Event.ConfirmFromUser(bridge))
      ensures ok <==> old(state).Confirming?
    {
      if !state.Confirming? {
        return false;
      }
      Send(WM.OnConfirmFromUser);
      tally := tally.(confirmed := tally.confirmed + 1);
      ExecuteRestockOrder(bridge);
      ok := true;
    }

    /** Throws (does nothing) unless the watch is executing. */
    method ExecuteRestockOrder(bridge: Bridge)
      modifies this`state, this`rejections, this`tally
      ensures View() == Executed(cfg, old(View()), bridge)
    {
      if !state.Executing? {
        return;
      }
      if !cfg.bridged {
        Send(WM.OnFailed);
        ApplyContinuationPolicy();
        return;
      }
      match bridge
      case InvalidIntent =>
      case Created => tally := tally.(created := tally.created + 1);
      case Rejected => rejections := rejections + 1;
    }

    /** The rest of `ExecuteRestockOrder` behind a rejected `createTask`. */
    method ResumeRejection()
      modifies this
      ensures View() == Step(cfg, old(View()), RejectionResumes)
    {
      if rejections > 0 {
        rejections := rejections - 1;
        Send(WM.OnFailed);
        ApplyContinuationPolicy();
      }
    }

    /** `DismissConfirmation` by the user, or the confirmation timer firing. */
    method LapseConfirmation()
      modifies this
      ensures View() == Step(cfg, old(View()), DismissConfirmation)
      ensures View() == Step(cfg, old(View()), ConfirmationTimeout)
    {
      if state.Confirming? {
        Send(WM.OnTimeout);
      }
    }

    /** Throws (answers false) unless the watch is executing. */
    method MarkExecutionResult(ok: bool) returns (recorded: bool)
      modifies this
      ensures View() == Step(cfg, old(View()), MarkResult(ok))
      ensures recorded <==> old(state).Executing?
    {
      if !state.Executing? {
        return false;
      }
      tally := tally.(recorded := tally.recorded + 1);
      if ok {
        completedOrders, consecutiveFailures := completedOrders + 1, 0;
        Send(WM.OnSucceeded);
        ApplyContinuationPolicy();
      } else {
        consecutiveFailures := consecutiveFailures + 1;
        quarantined := consecutiveFailures >= cfg.quarantineAfter;
        Send(WM.OnFailed);
        if quarantined {
          Send(WM.OnExhaust);
        } else {
          ApplyContinuationPolicy();
        }
      }
      recorded := true;
    }

    method ApplyContinuationPolicy()
      modifies this`state
      ensures View() == PolicyApplied(old(View()))
    {
      var cap := if policy.maxOrders.Some? then policy.maxOrders.value else 1;
      if policy.continueAfterSuccess && completedOrders < cap {
        Send(WM.OnContinue);
        Send(WM.OnResume);
      } else {
        Send(WM.OnExhaust);
      }
    }

    method CancelWatch()
      modifies this`state
      ensures View() == Step(cfg, old(View()), Cancel)
    {
      Send(WM.OnCancel);
    }

    method PauseWatch()
      modifies this`state
      ensures View() == Step(cfg, old(View()), Pause)
    {
      Send(WM.OnPause);
    }

    method ResumeWatch()
      modifies this`state
      ensures View() == Step(cfg, old(View()), Resume)
    {
      Send(WM.OnResume);
    }
  }
}
