/**
 What settling means for a task and for its channel: which outcome leads to which state, which
 states are for good, and what the service's calls do to the channel they share.
*/
module SettleOutcomes {
  import opened Wrappers
  import opened StableSort
  import opened Edf
  import opened PaymentChannels
  import opened SettleProtocol
  import CR = ChannelRuns
  import TM = TaskMachine

  ghost predicate Ends(s: Service, e: Event) {
    e.SettleEnds? && e.id in s.inFlight && e.id in s.tasks && s.tasks[e.id].methodRef in s.lanes
  }

  // ----- what one event can do to a task and to a channel

  /** The state `id` may be in behind the event, having been in `state`. */
  predicate MayMove(s: Service, e: Event, id: string, state: TM.State, state': TM.State) {
    || state' == state
    || (e.AcquireBegins? && e.id == id && state' == TM.Next(TM.Next(state, TM.OnStrike), TM.OnAcquire))
    || (e.AcquireEnds? && e.id == id
        && state' == TM.Next(state, if e.reservedUntil.Some? then TM.OnAcquired else TM.OnAcquireFailed))
    || (e.EnqueueForSettle? && e.id == id && state' == TM.Next(state, TM.OnQueued))
    || (e.SettleBegins? && e.id == id && state' == TM.Next(state, TM.OnPaymentStart))
    || (e.SettleEnds? && e.id == id && e.id in s.inFlight && e.id in s.tasks && s.tasks[e.id].methodRef in s.lanes
        && state' == TM.Next(state, ResultEvent(e.outcome)))
    || (e.CancelTask? && e.id == id && state' == TM.Next(state, TM.OnCancel))
  }

  /** Tasks keep existing, move as they may, and new ones are configured. */
  ghost predicate TasksMove(s: Service, e: Event, s': Service) {
    && (forall id :: id in s.tasks ==> id in s'.tasks && MayMove(s, e, id, s.tasks[id].state, s'.tasks[id].state))
    && forall id :: id in s'.tasks && id !in s.tasks ==> s'.tasks[id].state.Configured?
  }

  function FrozenOf(s: Service, m: string): Option<string> {
    if m in s.lanes then s.lanes[m].channel.frozen else None
  }

  /** What becomes of the freeze of `m`. */
  function FreezeBehind(s: Service, e: Event, m: string): Option<string> {
    if e.FreezeChannel? && e.methodRef == m && m in s.lanes then Some(e.reason)
    else if e.UnfreezeChannel? && e.methodRef == m then None
    else FrozenOf(s, m)
  }

  /** Channels keep existing and keep their settings, and only freezing and lifting change their freeze. */
  ghost predicate LanesStay(s: Service, e: Event, s': Service) {
    && (forall m :: m in s.lanes ==> m in s'.lanes && s'.lanes[m].cfg == s.lanes[m].cfg)
    && (forall m :: m in s'.lanes && m !in s.lanes ==>
          && s'.lanes[m].cfg.minIntervalMs == 30000 && s'.lanes[m].cfg.maxQueueSize == 10
          && (e.EnqueueForSettle? || e.SettleBegins?) && s'.lanes[m].cfg.typicalDurationMs == e.typicalMs)
    && (forall m :: FrozenOf(s', m) == FreezeBehind(s, e, m))
  }

  lemma LaneAdded(s: Service, e: Event, n: string)
    requires e.EnqueueForSettle? || e.SettleBegins?
    ensures LanesStay(s, e, WithLane(s, n, e.typicalMs))
  {
  }

  /** Replacing a channel by one with the same freeze. */
  lemma ChannelReplaced(s: Service, e: Event, s1: Service, n: string, c: Channel)
    requires LanesStay(s, e, s1) && n in s1.lanes && c.frozen == s1.lanes[n].channel.frozen
    ensures LanesStay(s, e, WithChannel(s1, n, c))
  {
    var s2 := WithChannel(s1, n, c);
    forall m ensures FrozenOf(s2, m) == FrozenOf(s1, m) {
    }
  }

  lemma EnqueueMoves(s: Service, e: Event)
    requires e.EnqueueForSettle? && e.id in s.tasks
    ensures TasksMove(s, e, AfterEnqueue(s, e))
  {
  }

  lemma EnqueueStays(s: Service, e: Event)
    requires e.EnqueueForSettle? && e.id in s.tasks
    ensures LanesStay(s, e, AfterEnqueue(s, e))
  {
    var m := s.tasks[e.id].methodRef;
    var s1 := WithLane(s, m, e.typicalMs);
    LaneAdded(s, e, m);
    if s.tasks[e.id].reservedUntil.Some? {
      var order := Order(e.id, s.tasks[e.id].reservedUntil.value, e.durationMs);
      var (r, c) := Enqueued(s1.lanes[m].cfg, s1.lanes[m].channel, e.now, order);
      ChannelReplaced(s, e, s1, m, c);
      EnqueueParts(s, e, s1, m, r, c);
    }
  }

  lemma AskedFreeze(lane: Lane, id: string, e: Event)
    requires e.SettleBegins?
    ensures Asked(lane, id, e).frozen == lane.channel.frozen
  {
  }

  lemma BeginMoves(s: Service, e: Event)
    requires e.SettleBegins? && e.id in s.tasks
    ensures TasksMove(s, e, AfterBegin(s, e))
  {
  }

  lemma BeginStays(s: Service, e: Event)
    requires e.SettleBegins? && e.id in s.tasks
    ensures LanesStay(s, e, AfterBegin(s, e))
  {
    var m := s.tasks[e.id].methodRef;
    var s1 := WithLane(s, m, e.typicalMs);
    var c := Asked(s1.lanes[m], e.id, e);
    LaneAdded(s, e, m);
    AskedFreeze(s1.lanes[m], e.id, e);
    ChannelReplaced(s, e, s1, m, c);
    if e.live { BeginParts(s, e, s1, WithChannel(s1, m, c), c); }
  }

  lemma EndViews(s: Service, e: Event)
    requires Ends(s, e)
    ensures TasksMove(s, e, AfterEnd(s, e)) && LanesStay(s, e, AfterEnd(s, e))
  {
    var m := s.tasks[e.id].methodRef;
    ChannelReplaced(s, e, s, m, Completed(s.lanes[m].cfg, s.lanes[m].channel, e.id, e.outcome.Paid?, None, e.t0, e.t1));
  }

  /** Events on a task alone. */
  lemma TaskViews(s: Service, e: Event)
    requires e.CreateTask? || e.AcquireBegins? || e.AcquireEnds? || e.CancelTask?
    ensures TasksMove(s, e, Step(s, e)) && Step(s, e).lanes == s.lanes
  {
  }

  lemma SameLanes(s: Service, e: Event, s': Service)
    requires s'.lanes == s.lanes && !e.FreezeChannel? && !e.UnfreezeChannel?
    ensures LanesStay(s, e, s')
  {
  }

  lemma FreezeViews(s: Service, e: Event)
    requires e.FreezeChannel? || e.UnfreezeChannel?
    ensures TasksMove(s, e, Step(s, e)) && LanesStay(s, e, Step(s, e))
  {
  }

  lemma StepViews(s: Service, e: Event, s': Service)
    requires s' == Step(s, e)
    ensures TasksMove(s, e, s') && LanesStay(s, e, s')
  {
    if e.CreateTask? || e.AcquireBegins? || e.AcquireEnds? || e.CancelTask? {
      TaskViews(s, e);
      SameLanes(s, e, s');
    } else if e.FreezeChannel? || e.UnfreezeChannel? {
      FreezeViews(s, e);
    } else {
      SettleViews(s, e);
    }
  }

  lemma SettleViews(s: Service, e: Event)
    requires e.EnqueueForSettle? || e.SettleBegins? || e.SettleEnds?
    ensures TasksMove(s, e, Step(s, e)) && LanesStay(s, e, Step(s, e))
  {
    SameLanes(s, e, s);
    if e.EnqueueForSettle? && e.id in s.tasks {
      EnqueueMoves(s, e);
      EnqueueStays(s, e);
    } else if e.SettleBegins? && e.id in s.tasks {
      BeginMoves(s, e);
      BeginStays(s, e);
    } else if Ends(s, e) {
      EndViews(s, e);
    }
  }

  /** A payment flow ends a paying task in the state of its outcome, and no other task's state changes. */
  lemma OutcomeDecides(s: Service, e: Event)
    requires Ends(s, e) && s.tasks[e.id].state.Paying?
    ensures var s' := Step(s, e);
            var state := s'.tasks[e.id].state;
            && (state.Succeeded? <==> e.outcome.Paid?)
            && (state.PaymentTimeout? <==> e.outcome.TimedOut?)
            && (state.PaymentFailed? <==> e.outcome.Declined?)
            && s'.inFlight == s.inFlight - multiset{e.id}
            && forall id :: id in s.tasks && id != e.id ==> id in s'.tasks && s'.tasks[id] == s.tasks[id]
  {
  }

  // ----- over runs

  /** The outcome that a task's state tells of. */
  predicate Tells(state: TM.State, outcome: Outcome) {
    || (state.Succeeded? && outcome.Paid?)
    || (state.PaymentTimeout? && outcome.TimedOut?)
    || (state.PaymentFailed? && outcome.Declined?)
  }

  predicate AfterPayment(state: TM.State) {
    state.Succeeded? || state.PaymentTimeout? || state.PaymentFailed?
  }

  /** Operation `i` of the run ended a payment flow of the task, which was paying, with what `state` tells of. */
  ghost predicate EndedBy(es: seq<Event>, i: nat, id: string, state: TM.State) {
    && i < |es| && es[i].SettleEnds? && es[i].id == id && Tells(state, es[i].outcome)
    && id in Run(es[..i]).tasks && Run(es[..i]).tasks[id].state.Paying? && id in Run(es[..i]).inFlight
  }

  lemma MachineEnters(s: TM.State, e: TM.Event, s': TM.State)
    requires s' == TM.Next(s, e) && AfterPayment(s') && s' != s
    ensures s.Paying?
    ensures e == if s'.Succeeded? then TM.OnPaymentSucceeded
                 else if s'.PaymentTimeout? then TM.OnPaymentTimeout else TM.OnPaymentFailed
  {
  }

  lemma MayTell(s: Service, e: Event, id: string, state: TM.State, state': TM.State)
    requires MayMove(s, e, id, state, state') && AfterPayment(state') && state' != state
    ensures Ends(s, e) && e.id == id && state.Paying? && Tells(state', e.outcome)
  {
    if e.SettleEnds? { MachineEnters(state, ResultEvent(e.outcome), state'); }
  }

  /** Only the end of a payment flow takes a task to a state that tells of an outcome. */
  lemma OnlyEndsTell(s: Service, e: Event, s': Service, id: string)
    requires TasksMove(s, e, s') && id in s'.tasks && AfterPayment(s'.tasks[id].state)
    ensures id in s.tasks
    ensures s'.tasks[id].state != s.tasks[id].state ==>
              Ends(s, e) && e.id == id && s.tasks[id].state.Paying? && Tells(s'.tasks[id].state, e.outcome)
  {
    if id in s.tasks && s'.tasks[id].state != s.tasks[id].state {
      MayTell(s, e, id, s.tasks[id].state, s'.tasks[id].state);
    }
  }

  /**
   In every run a task that succeeded was paid, one that timed out timed out, and one that
   failed was declined: some payment flow of it ended so while it was paying.
  */
  lemma {:induction false} StateTellsOutcome(es: seq<Event>, id: string) returns (i: nat)
    requires id in Run(es).tasks && AfterPayment(Run(es).tasks[id].state)
    ensures EndedBy(es, i, id, Run(es).tasks[id].state)
  {
    var before, e := es[..|es| - 1], es[|es| - 1];
    StepViews(Run(before), e, Run(es));
    OnlyEndsTell(Run(before), e, Run(es), id);
    if Run(es).tasks[id].state == Run(before).tasks[id].state {
      i := StateTellsOutcome(before, id);
      Earlier(es, before, i);
    } else {
      i := |es| - 1;
    }
  }

  lemma Earlier(es: seq<Event>, before: seq<Event>, i: nat)
    requires i < |before| < |es| && before == es[..|before|]
    ensures before[..i] == es[..i] && before[i] == es[i]
  {
  }

  lemma TerminalStays(s: Service, e: Event, id: string, state: TM.State, state': TM.State)
    requires TM.Terminal(state) && MayMove(s, e, id, state, state')
    ensures state' == state
  {
  }

  /** A task that succeeded, timed out or was cancelled stays so, whatever comes: it never pays again. */
  lemma {:induction false} EndedForGood(s: Service, es: seq<Event>, id: string)
    requires id in s.tasks
    requires s.tasks[id].state.Succeeded? || s.tasks[id].state.PaymentTimeout? || s.tasks[id].state.Cancelled?
    ensures id in RunFrom(s, es).tasks && RunFrom(s, es).tasks[id].state == s.tasks[id].state
    decreases |es|
  {
    if es != [] {
      StepViews(s, es[0], Step(s, es[0]));
      TerminalStays(s, es[0], id, s.tasks[id].state, Step(s, es[0]).tasks[id].state);
      EndedForGood(Step(s, es[0]), es[1..], id);
    }
  }

  /** The channel of `m` is idle: nothing in service or pending, and not frozen. */
  predicate Idle(s: Service, m: string) {
    && m in s.lanes && s.lanes[m].cfg.maxQueueSize > 0
    && var c := s.lanes[m].channel; c.current.None? && c.frozen.None? && c.pending == []
  }

  lemma EnqueuedNext(cfg: Config, c: Channel, c': Channel, now: int, order: Order)
    requires c.current.None? && c.frozen.None? && c.pending == [] && cfg.maxQueueSize > 0
    requires c' == Enqueued(cfg, c, now, order).1
    ensures Enqueued(cfg, c, now, order).0.Ok? && c'.current.None? && c'.frozen.None? && NextInLine(c', order.id)
  {
    var x := Accepted(cfg, c, order);
    CR.EnqueuedTasks(cfg, c, now, order);
    assert Tasks(c.pending) + [x] == [x];
    SortOfSorted(DeadlineOf, [x]);
  }

  lemma EnqueuedAgain(s: Service, e: Event, s': Service)
    requires e.EnqueueForSettle? && e.id in s.tasks && s.tasks[e.id].state.PaymentFailed?
    requires s.tasks[e.id].reservedUntil.Some? && Idle(s, s.tasks[e.id].methodRef) && s' == Step(s, e)
    ensures e.id in s'.tasks && s'.tasks[e.id].state.PaymentFailed?
    ensures s'.tasks[e.id].methodRef == s.tasks[e.id].methodRef && s'.tasks[e.id].methodRef in s'.lanes
    ensures var c := s'.lanes[s'.tasks[e.id].methodRef].channel;
            c.current.None? && c.frozen.None? && NextInLine(c, e.id)
  {
    var lane := s.lanes[s.tasks[e.id].methodRef];
    var order := Order(e.id, s.tasks[e.id].reservedUntil.value, e.durationMs);
    EnqueuedNext(lane.cfg, lane.channel, Enqueued(lane.cfg, lane.channel, e.now, order).1, e.now, order);
  }

  /** A declined task can pay again: over an idle channel, by being enqueued and settled once more. */
  lemma DeclinedCanPayAgain(s: Service, id: string, enqueue: Event, settle: Event)
    requires id in s.tasks && s.tasks[id].state.PaymentFailed? && s.tasks[id].reservedUntil.Some?
    requires Idle(s, s.tasks[id].methodRef)
    requires enqueue.EnqueueForSettle? && enqueue.id == id && settle.SettleBegins? && settle.id == id && settle.live
    ensures var s' := Step(Step(s, enqueue), settle); id in s'.tasks && s'.tasks[id].state.Paying?
  {
    var s1 := Step(s, enqueue);
    EnqueuedAgain(s, enqueue, s1);
    BeginPays(s1, settle, s1.lanes[s1.tasks[id].methodRef], Step(s1, settle));
  }

  // ----- the channel behind the calls

  /**
   The end of a payment flow frees the channel its task was served by, and only a paid one
   leaves its time there as a sample for later estimates.
  */
  lemma EndFreesChannel(s: Service, e: Event)
    requires Ends(s, e) && ServedBy(s, e.id) && |s.lanes[s.tasks[e.id].methodRef].channel.durations| <= 50
    ensures var m := s.tasks[e.id].methodRef;
            var c, c' := s.lanes[m].channel, Step(s, e).lanes[m].channel;
            && c'.current.None? && c'.frozen == c.frozen && Tasks(c'.pending) == Sort(DeadlineOf, Tasks(c.pending))
            && c'.durations == (if e.outcome.Paid?
                                then CR.LastUpTo(c.durations + [Max(0, e.t0 - c.current.value.startedAt)], 50)
                                else c.durations)
  {
    var lane := s.lanes[s.tasks[e.id].methodRef];
    CR.CompletedTasks(lane.cfg, lane.channel, e.id, e.outcome.Paid?, None, e.t0, e.t1);
  }

  /**
   Enqueueing queues the task with the expiry of its reservation as its deadline, if the channel
   accepts it; without a reservation, or if it is refused, no channel and no task changes.
  */
  lemma EnqueueQueues(s: Service, e: Event, m: string, lane: Lane, s': Service)
    requires e.EnqueueForSettle? && e.id in s.tasks && m == s.tasks[e.id].methodRef && s' == Step(s, e)
    requires lane == WithLane(s, m, e.typicalMs).lanes[m]
    ensures m in s'.lanes && e.id in s'.tasks
    ensures CanQueue(s, e.id, lane) ==>
              && (s.tasks[e.id].state.Acquired? ==> s'.tasks[e.id].state.QueuedForPayment?)
              && Queued(lane, s'.lanes[m].channel, e.id, s.tasks[e.id].reservedUntil.value, e.durationMs)
    ensures !CanQueue(s, e.id, lane) ==> s' == WithLane(s, m, e.typicalMs)
  {
    if s.tasks[e.id].reservedUntil.Some? {
      var s1 := WithLane(s, m, e.typicalMs);
      var order := Order(e.id, s.tasks[e.id].reservedUntil.value, e.durationMs);
      var (r, c) := Enqueued(lane.cfg, lane.channel, e.now, order);
      EnqueueParts(s, e, s1, m, r, c);
      QueuedCase(s1, e, m, lane, order, r, c, s');
    }
  }

  lemma QueuedCase(
    s1: Service, e: Event, m: string, lane: Lane, order: Order, r: Result<Receipt, Refusal>, c: Channel, s': Service)
    requires e.EnqueueForSettle? && e.id in s1.tasks && m in s1.lanes && lane == s1.lanes[m]
    requires (r, c) == Enqueued(lane.cfg, lane.channel, e.now, order)
    requires s' == if r.Err? then WithChannel(s1, m, c) else Sent(WithChannel(s1, m, c), e.id, TM.OnQueued)
    ensures m in s'.lanes && e.id in s'.tasks
    ensures r.Ok? <==> lane.channel.frozen.None? && |lane.channel.pending| < lane.cfg.maxQueueSize
    ensures r.Ok? ==>
              && (s1.tasks[e.id].state.Acquired? ==> s'.tasks[e.id].state.QueuedForPayment?)
              && Queued(lane, s'.lanes[m].channel, order.id, order.deadline, order.duration)
    ensures r.Err? ==> s' == s1
  {
    QueuedParts(lane, e.now, order, r, c);
    SameChannel(s1, m);
    QueuesOver(s1, e.id, m, c, WithChannel(s1, m, c));
  }

  lemma QueuesOver(s: Service, id: string, m: string, c: Channel, s2: Service)
    requires id in s.tasks && m in s.lanes && s2 == WithChannel(s, m, c)
    ensures var s3 := Sent(s2, id, TM.OnQueued);
            && m in s3.lanes && s3.lanes[m].channel == c && id in s3.tasks
            && (s.tasks[id].state.Acquired? ==> s3.tasks[id].state.QueuedForPayment?)
  {
  }

  predicate CanQueue(s: Service, id: string, lane: Lane)
    requires id in s.tasks
  {
    && s.tasks[id].reservedUntil.Some? && lane.channel.frozen.None?
    && |lane.channel.pending| < lane.cfg.maxQueueSize
  }

  /** `c` is the channel with one more task, of its own duration or the channel's estimate. */
  ghost predicate Queued(lane: Lane, c: Channel, id: string, deadline: int, duration: Option<nat>) {
    var d := if duration.Some? then duration.value else EstimateMs(lane.cfg, lane.channel.durations);
    Tasks(c.pending) == Sort(DeadlineOf, Tasks(lane.channel.pending) + [Task(id, deadline, d)])
  }

  lemma QueuedParts(lane: Lane, now: int, order: Order, r: Result<Receipt, Refusal>, c: Channel)
    requires (r, c) == Enqueued(lane.cfg, lane.channel, now, order)
    ensures r.Ok? <==> lane.channel.frozen.None? && |lane.channel.pending| < lane.cfg.maxQueueSize
    ensures r.Ok? ==> Queued(lane, c, order.id, order.deadline, order.duration)
    ensures r.Err? ==> c == lane.channel
  {
    if lane.channel.frozen.None? && |lane.channel.pending| < lane.cfg.maxQueueSize {
      CR.EnqueuedTasks(lane.cfg, lane.channel, now, order);
    }
  }

  lemma NextIsStarted(lane: Lane, e: Event, c: Channel)
    requires e.SettleBegins? && lane.channel.current.None? && lane.channel.frozen.None?
    requires NextInLine(lane.channel, e.id)
    requires c == Asked(lane, e.id, e)
    ensures c.current.Some? && c.current.value.task.id == e.id
    ensures c.current.value.startedAt == (if e.forceNow then e.t1 else Max(e.t1, e.t0 + lane.cfg.minIntervalMs))
  {
    CR.StartedTasks(lane.cfg, lane.channel, e.forceNow, e.t0, e.t1, e.t2);
  }

  /**
   In turn, over a free channel, a live call makes the task paying, and the one in service of the
   channel, from its recorded start on.
  */
  lemma BeginPays(s: Service, e: Event, lane: Lane, s': Service)
    requires e.SettleBegins? && e.live && e.id in s.tasks && s.tasks[e.id].methodRef in s.lanes && s' == Step(s, e)
    requires lane == s.lanes[s.tasks[e.id].methodRef] && lane.channel.current.None? && lane.channel.frozen.None?
    requires NextInLine(lane.channel, e.id)
    requires s.tasks[e.id].state.QueuedForPayment? || s.tasks[e.id].state.PaymentFailed?
    ensures e.id in s'.tasks && s'.tasks[e.id].state.Paying? && s.tasks[e.id].methodRef in s'.lanes
    ensures var current := s'.lanes[s.tasks[e.id].methodRef].channel.current;
            && current.Some? && current.value.task.id == e.id
            && current.value.startedAt == if e.forceNow then e.t1 else Max(e.t1, e.t0 + lane.cfg.minIntervalMs)
    ensures s'.inFlight == if e.throws then s.inFlight else s.inFlight + multiset{e.id}
  {
    var m, c := s.tasks[e.id].methodRef, Asked(lane, e.id, e);
    var s2 := WithChannel(s, m, c);
    NextIsStarted(lane, e, c);
    BeginParts(s, e, s, s2, c);
    PaysOver(s, e.id, m, c, s2);
  }

  lemma PaysOver(s: Service, id: string, m: string, c: Channel, s2: Service)
    requires id in s.tasks && m in s.lanes && s2 == WithChannel(s, m, c)
    requires s.tasks[id].state.QueuedForPayment? || s.tasks[id].state.PaymentFailed?
    ensures var s3 := Sent(s2, id, TM.OnPaymentStart);
            s3.tasks[id].state.Paying? && s3.lanes[m].channel == c && s3.inFlight == s.inFlight
  {
  }

  /** A call that is not live changes nothing. */
  lemma NotLiveDoesNothing(s: Service, e: Event)
    requires e.SettleBegins? && !e.live
    ensures Step(s, e) == s
  {
  }

  /** Cancelling takes a task out up to its acquisition and behind a failed payment, and does nothing in between. */
  lemma CancelExactly(s: Service, id: string)
    requires id in s.tasks
    ensures var state, s' := s.tasks[id].state, Step(s, CancelTask(id));
            && s'.lanes == s.lanes && s'.inFlight == s.inFlight
            && if state.Acquired? || state.QueuedForPayment? || state.Paying? || state.AcquireFailed?
                  || TM.Terminal(state)
               then s' == s else s'.tasks[id].state.Cancelled?
  {
    var t := s.tasks[id];
    if TM.Next(t.state, TM.OnCancel) == t.state { assert s.tasks[id := t] == s.tasks; }
  }

  // ----- freezing

  /** The freeze of `m` in force: the last one of its channel, unless it was lifted since. */
  function FreezeOf(es: seq<Event>, m: string): Option<string> {
    if es == [] then None
    else
      var before := es[..|es| - 1];
      match es[|es| - 1]
      case FreezeChannel(n, reason) => if n == m && m in Run(before).lanes then Some(reason) else FreezeOf(before, m)
      case UnfreezeChannel(n, _) => if n == m then None else FreezeOf(before, m)
      case _ => FreezeOf(before, m)
  }

  /** In every run a channel is frozen exactly by the last freeze that was not lifted since. */
  lemma {:induction false} FrozenByLast(es: seq<Event>, m: string)
    ensures FrozenOf(Run(es), m) == FreezeOf(es, m)
  {
    if es != [] {
      FrozenByLast(es[..|es| - 1], m);
      StepViews(Run(es[..|es| - 1]), es[|es| - 1], Run(es));
    }
  }

  /**
   From the freeze of a channel until it is lifted, no payment flow over it begins for a task
   other than the one it serves at that moment.
  */
  lemma FreezeHolds(s: Service, m: string, reason: string, es: seq<Event>, u: string)
    requires m in s.lanes && !Serves(s.lanes[m].channel, u)
    requires u in s.inFlight ==> u in s.tasks && s.tasks[u].methodRef != m
    requires forall i :: 0 <= i < |es| ==> !(es[i].UnfreezeChannel? && es[i].methodRef == m)
    ensures var s' := RunFrom(Step(s, FreezeChannel(m, reason)), es);
            u in s'.tasks && s'.tasks[u].methodRef == m ==> u !in s'.inFlight
  {
    FrozenBeginsNothing(Step(s, FreezeChannel(m, reason)), es, m, u);
  }

  /** A channel is made by the first call that asks for it, with its typical duration, and keeps its settings. */
  lemma SettingsStay(s: Service, e: Event, m: string)
    ensures m in s.lanes ==> m in Step(s, e).lanes && Step(s, e).lanes[m].cfg == s.lanes[m].cfg
    ensures m !in s.lanes && m in Step(s, e).lanes ==>
              (e.EnqueueForSettle? || e.SettleBegins?) && Step(s, e).lanes[m].cfg == Config(30000, e.typicalMs, 10)
  {
    StepViews(s, e, Step(s, e));
  }

  /** Every channel of the service keeps 30 seconds between payments and takes ten tasks. */
  lemma {:induction false} LanesAreStandard(es: seq<Event>, m: string)
    requires m in Run(es).lanes
    ensures Run(es).lanes[m].cfg.minIntervalMs == 30000 && Run(es).lanes[m].cfg.maxQueueSize == 10
  {
    if es != [] {
      var before := Run(es[..|es| - 1]);
      if m in before.lanes { LanesAreStandard(es[..|es| - 1], m); }
      StepViews(before, es[|es| - 1], Run(es));
    }
  }
}
