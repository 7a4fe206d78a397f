/**
 How Sniper2 tasks share payment channels. Every stretch of code between two suspensions is
 one event, so settling a task is two of them: `SettleBegins` up to the payment flow it
 awaits, and `SettleEnds` behind it. `inFlight` counts the payment flows awaited.
*/
module SettleProtocol {
  import opened Wrappers
  import opened StableSort
  import opened Edf
  import opened PaymentChannels
  import CR = ChannelRuns
  import TM = TaskMachine

  /** `reservedUntil` is the expiry of the reservation an acquire phase obtained. */
  datatype TaskRecord = TaskRecord(state: TM.State, methodRef: string, reservedUntil: Option<int>)

  datatype Lane = Lane(cfg: Config, channel: Channel)

  datatype Service = Service(tasks: map<string, TaskRecord>, lanes: map<string, Lane>, inFlight: multiset<string>)

  datatype Outcome = Paid | TimedOut | Declined

  datatype Event =
    | CreateTask(id: string, methodRef: string)
    | AcquireBegins(id: string)
    | AcquireEnds(id: string, reservedUntil: Option<int>)
    | EnqueueForSettle(id: string, typicalMs: nat, durationMs: Option<nat>, now: int)
    | SettleBegins(id: string, typicalMs: nat, live: bool, forceNow: bool, throws: bool, t0: int, t1: int, t2: int)
    | SettleEnds(id: string, outcome: Outcome, t0: int, t1: int)
    | CancelTask(id: string)
    | FreezeChannel(methodRef: string, reason: string)
    | UnfreezeChannel(methodRef: string, now: int)

  const MIN_INTERVAL_MS := 30000
  const MAX_QUEUE_SIZE := 10

  function Sent(s: Service, id: string, e: TM.Event): Service
    requires id in s.tasks
  {
    s.(tasks := s.tasks[id := s.tasks[id].(state := TM.Next(s.tasks[id].state, e))])
  }

  /** The channel of a payment method is created when it is first asked for. */
  function WithLane(s: Service, methodRef: string, typicalMs: nat): Service {
    if methodRef in s.lanes then s
    else s.(lanes := s.lanes[methodRef := Lane(Config(MIN_INTERVAL_MS, typicalMs, MAX_QUEUE_SIZE), Fresh())])
  }

  function WithChannel(s: Service, methodRef: string, c: Channel): Service
    requires methodRef in s.lanes
  {
    s.(lanes := s.lanes[methodRef := s.lanes[methodRef].(channel := c)])
  }

  predicate Serves(c: Channel, id: string) {
    c.current.Some? && c.current.value.task.id == id
  }

  function AfterEnqueue(s: Service, e: Event): Service
    requires e.EnqueueForSettle? && e.id in s.tasks
  {
    var m := s.tasks[e.id].methodRef;
    var s1 := WithLane(s, m, e.typicalMs);
    if s.tasks[e.id].reservedUntil.None? then s1
    else
      var order := Order(e.id, s.tasks[e.id].reservedUntil.value, e.durationMs);
      var (r, c) := Enqueued(s1.lanes[m].cfg, s1.lanes[m].channel, e.now, order);
      if r.Err? then s1 else Sent(WithChannel(s1, m, c), e.id, TM.OnQueued)
  }

  /** The channel as the call leaves it: started on its next task unless it serves `id` already. */
  function Asked(lane: Lane, id: string, e: Event): Channel
    requires e.SettleBegins?
  {
    if Serves(lane.channel, id) then lane.channel
    else Started(lane.cfg, lane.channel, e.forceNow, e.t0, e.t1, e.t2)
  }

  /** A call that finds another task in its channel throws, but leaves the channel started. */
  function AfterBegin(s: Service, e: Event): Service
    requires e.SettleBegins? && e.id in s.tasks
  {
    if !e.live then s
    else
      var m := s.tasks[e.id].methodRef;
      var s1 := WithLane(s, m, e.typicalMs);
      var c := Asked(s1.lanes[m], e.id, e);
      var s2 := WithChannel(s1, m, c);
      if !Serves(c, e.id) then s2
      else
        var s3 := Sent(s2, e.id, TM.OnPaymentStart);
        if e.throws then s3 else s3.(inFlight := s3.inFlight + multiset{e.id})
  }

  function ResultEvent(o: Outcome): TM.Event {
    match o
    case Paid => TM.OnPaymentSucceeded
    case TimedOut => TM.OnPaymentTimeout
    case Declined => TM.OnPaymentFailed
  }

  function AfterEnd(s: Service, e: Event): Service
    requires e.SettleEnds? && e.id in s.tasks && s.tasks[e.id].methodRef in s.lanes
  {
    var m := s.tasks[e.id].methodRef;
    var c := Completed(s.lanes[m].cfg, s.lanes[m].channel, e.id, e.outcome.Paid?, None, e.t0, e.t1);
    Sent(WithChannel(s, m, c), e.id, ResultEvent(e.outcome)).(inFlight := s.inFlight - multiset{e.id})
  }

  function Step(s: Service, e: Event): Service {
    match e
    case CreateTask(id, methodRef) =>
      if id in s.tasks then s else s.(tasks := s.tasks[id := TaskRecord(TM.Configured, methodRef, None)])
    case AcquireBegins(id) => if id in s.tasks then Sent(Sent(s, id, TM.OnStrike), id, TM.OnAcquire) else s
    case AcquireEnds(id, until) =>
      if id !in s.tasks then s
      else Sent(s.(tasks := s.tasks[id := s.tasks[id].(reservedUntil := until)]), id,
                if until.Some? then TM.OnAcquired else TM.OnAcquireFailed)
    case EnqueueForSettle(id, _, _, _) => if id in s.tasks then AfterEnqueue(s, e) else s
    case SettleBegins(id, _, _, _, _, _, _, _) => if id in s.tasks then AfterBegin(s, e) else s
    case SettleEnds(id, _, _, _) =>
      if id in s.inFlight && id in s.tasks && s.tasks[id].methodRef in s.lanes then AfterEnd(s, e) else s
    case CancelTask(id) => if id in s.tasks then Sent(s, id, TM.OnCancel) else s
    case FreezeChannel(m, reason) =>
      if m in s.lanes then WithChannel(s, m, s.lanes[m].channel.(frozen := Some(reason))) else s
    case UnfreezeChannel(m, now) =>
      if m in s.lanes then WithChannel(s, m, Unfrozen(s.lanes[m].cfg, s.lanes[m].channel, now)) else s
  }

  function Run(es: seq<Event>): Service {
    if es == [] then Service(map[], map[], multiset{}) else Step(Run(es[..|es| - 1]), es[|es| - 1])
  }

  // ----- a task that is paying is the one its channel serves

  ghost predicate ServedBy(s: Service, id: string) {
    && id in s.tasks && s.tasks[id].methodRef in s.lanes
    && Serves(s.lanes[s.tasks[id].methodRef].channel, id)
  }

  ghost predicate PayingIsServed(s: Service) {
    forall id :: id in s.tasks && s.tasks[id].state.Paying? ==> ServedBy(s, id)
  }

  lemma EnqueuedCurrent(cfg: Config, c: Channel, now: int, order: Order)
    ensures Enqueued(cfg, c, now, order).1.current == c.current
  {
  }

  /** A call of `startNext` never displaces the task in service, and a frozen channel starts none. */
  lemma StartedCurrent(cfg: Config, c: Channel, forceNow: bool, t0: int, t1: int, t2: int)
    ensures c.current.Some? || c.frozen.Some? ==> Started(cfg, c, forceNow, t0, t1, t2) == c
  {
  }

  lemma CompletedCurrent(cfg: Config, c: Channel, id: string, ok: bool, t0: int, t1: int)
    ensures Completed(cfg, c, id, ok, None, t0, t1).current == if Serves(c, id) then None else c.current
  {
  }

  lemma UnfrozenCurrent(cfg: Config, c: Channel, now: int)
    ensures Unfrozen(cfg, c, now).current == c.current
  {
  }

  lemma OnlyStartPays(s: TM.State, e: TM.Event)
    ensures TM.Next(s, e).Paying? ==> e.OnPaymentStart? || s.Paying?
    ensures e.OnPaymentSucceeded? || e.OnPaymentFailed? || e.OnPaymentTimeout? ==> !TM.Next(s, e).Paying?
  {
  }

  lemma PayingSent(s: Service, id: string, e: TM.Event)
    requires PayingIsServed(s) && id in s.tasks
    requires e.OnPaymentStart? ==> ServedBy(s, id)
    ensures PayingIsServed(Sent(s, id, e))
  {
    OnlyStartPays(s.tasks[id].state, e);
  }

  /** Replacing a channel is safe if it goes on serving whatever task it served. */
  lemma PayingLane(s: Service, m: string, c: Channel)
    requires PayingIsServed(s) && m in s.lanes
    requires s.lanes[m].channel.current.Some? ==> c.current == s.lanes[m].channel.current
    ensures PayingIsServed(WithChannel(s, m, c))
  {
  }

  lemma PayingEnqueue(s: Service, e: Event)
    requires PayingIsServed(s) && e.EnqueueForSettle? && e.id in s.tasks
    ensures PayingIsServed(AfterEnqueue(s, e))
  {
    var m := s.tasks[e.id].methodRef;
    var s1 := WithLane(s, m, e.typicalMs);
    if s.tasks[e.id].reservedUntil.Some? {
      var order := Order(e.id, s.tasks[e.id].reservedUntil.value, e.durationMs);
      var c := Enqueued(s1.lanes[m].cfg, s1.lanes[m].channel, e.now, order).1;
      EnqueuedCurrent(s1.lanes[m].cfg, s1.lanes[m].channel, e.now, order);
      PayingLane(s1, m, c);
      PayingSent(WithChannel(s1, m, c), e.id, TM.OnQueued);
    }
  }

  lemma AskedCurrent(lane: Lane, id: string, e: Event)
    requires e.SettleBegins?
    ensures lane.channel.current.Some? ==> Asked(lane, id, e) == lane.channel
  {
    StartedCurrent(lane.cfg, lane.channel, e.forceNow, e.t0, e.t1, e.t2);
  }

  lemma PayingBegin(s: Service, e: Event)
    requires PayingIsServed(s) && e.SettleBegins? && e.id in s.tasks
    ensures PayingIsServed(AfterBegin(s, e))
  {
    var m := s.tasks[e.id].methodRef;
    var s1 := WithLane(s, m, e.typicalMs);
    var c := Asked(s1.lanes[m], e.id, e);
    AskedCurrent(s1.lanes[m], e.id, e);
    PayingLane(s1, m, c);
    if Serves(c, e.id) {
      PayingSent(WithChannel(s1, m, c), e.id, TM.OnPaymentStart);
    }
  }

  lemma PayingEnd(s: Service, e: Event)
    requires PayingIsServed(s) && e.SettleEnds? && e.id in s.tasks && s.tasks[e.id].methodRef in s.lanes
    ensures PayingIsServed(AfterEnd(s, e))
  {
    var m := s.tasks[e.id].methodRef;
    CompletedCurrent(s.lanes[m].cfg, s.lanes[m].channel, e.id, e.outcome.Paid?, e.t0, e.t1);
    OnlyStartPays(s.tasks[e.id].state, ResultEvent(e.outcome));
  }

  lemma PayingStep(s: Service, e: Event)
    requires PayingIsServed(s)
    ensures PayingIsServed(Step(s, e))
  {
    match e
    case CreateTask(_, _) =>
    case AcquireBegins(id) =>
      if id in s.tasks {
        PayingSent(s, id, TM.OnStrike);
        PayingSent(Sent(s, id, TM.OnStrike), id, TM.OnAcquire);
      }
    case AcquireEnds(id, until) =>
      if id in s.tasks {
        var kept := s.(tasks := s.tasks[id := s.tasks[id].(reservedUntil := until)]);
        assert PayingIsServed(kept);
        PayingSent(kept, id, if until.Some? then TM.OnAcquired else TM.OnAcquireFailed);
      }
    case EnqueueForSettle(id, _, _, _) => if id in s.tasks { PayingEnqueue(s, e); }
    case SettleBegins(id, _, _, _, _, _, _, _) => if id in s.tasks { PayingBegin(s, e); }
    case SettleEnds(id, _, _, _) =>
      if id in s.inFlight && id in s.tasks && s.tasks[id].methodRef in s.lanes { PayingEnd(s, e); }
    case CancelTask(id) => if id in s.tasks { PayingSent(s, id, TM.OnCancel); }
    case FreezeChannel(m, reason) => if m in s.lanes { PayingLane(s, m, s.lanes[m].channel.(frozen := Some(reason))); }
    case UnfreezeChannel(m, now) =>
      if m in s.lanes {
        UnfrozenCurrent(s.lanes[m].cfg, s.lanes[m].channel, now);
        PayingLane(s, m, Unfrozen(s.lanes[m].cfg, s.lanes[m].channel, now));
      }
  }

  lemma {:induction false} PayingRun(es: seq<Event>)
    ensures PayingIsServed(Run(es))
  {
    if es != [] {
      PayingRun(es[..|es| - 1]);
      PayingStep(Run(es[..|es| - 1]), es[|es| - 1]);
    }
  }

  /** In no reachable state are two tasks of one payment method paying. */
  lemma AtMostOnePaying(es: seq<Event>, a: string, b: string)
    requires var s := Run(es);
             && a in s.tasks && s.tasks[a].state.Paying? && b in s.tasks && s.tasks[b].state.Paying?
             && s.tasks[a].methodRef == s.tasks[b].methodRef
    ensures a == b
  {
    PayingRun(es);
  }

  // ----- payment flows in flight

  /** Every payment flow in flight is that of the task its channel serves, and there is one of it. */
  ghost predicate OneEach(s: Service) {
    forall id :: id in s.inFlight ==> s.inFlight[id] == 1 && ServedBy(s, id)
  }

  /** The call awaits a payment flow if its task turns out to be served. */
  predicate WouldPay(e: Event) {
    e.SettleBegins? && e.live && !e.throws
  }

  /** No call that would pay settles a task whose payment flow is still in flight. */
  ghost predicate Disciplined(es: seq<Event>) {
    forall i :: 0 <= i < |es| && WouldPay(es[i]) ==> es[i].id !in Run(es[..i]).inFlight
  }

  predicate SameMethodInFlight(s: Service, a: string, b: string) {
    && a in s.inFlight && b in s.inFlight && a in s.tasks && b in s.tasks
    && s.tasks[a].methodRef == s.tasks[b].methodRef
  }

  /** One payment flow in flight per payment method. */
  ghost predicate OnePerMethod(s: Service) {
    forall a, b :: SameMethodInFlight(s, a, b) ==> a == b && s.inFlight[a] == 1
  }

  lemma OneEachLane(s: Service, m: string, c: Channel)
    requires OneEach(s) && m in s.lanes
    requires s.lanes[m].channel.current.Some? ==> c.current == s.lanes[m].channel.current
    ensures OneEach(WithChannel(s, m, c))
  {
  }

  lemma OneEachAsked(s: Service, e: Event)
    requires OneEach(s) && e.SettleBegins? && e.id in s.tasks
    ensures var m := s.tasks[e.id].methodRef;
            var s1 := WithLane(s, m, e.typicalMs);
            OneEach(WithChannel(s1, m, Asked(s1.lanes[m], e.id, e)))
  {
    var m := s.tasks[e.id].methodRef;
    var s1 := WithLane(s, m, e.typicalMs);
    assert OneEach(s1);
    AskedCurrent(s1.lanes[m], e.id, e);
    OneEachLane(s1, m, Asked(s1.lanes[m], e.id, e));
  }

  lemma OneEachFlow(s: Service, id: string, e: TM.Event)
    requires OneEach(s) && ServedBy(s, id) && id !in s.inFlight
    ensures var s' := Sent(s, id, e); OneEach(s') && OneEach(s'.(inFlight := s'.inFlight + multiset{id}))
  {
  }

  lemma OneEachSent(s: Service, id: string, e: TM.Event)
    requires OneEach(s) && id in s.tasks
    ensures OneEach(Sent(s, id, e))
  {
  }

  lemma OneEachBegin(s: Service, e: Event)
    requires OneEach(s) && e.SettleBegins? && e.id in s.tasks && (WouldPay(e) ==> e.id !in s.inFlight)
    ensures OneEach(AfterBegin(s, e))
  {
    if e.live {
      var m := s.tasks[e.id].methodRef;
      var s1 := WithLane(s, m, e.typicalMs);
      var c := Asked(s1.lanes[m], e.id, e);
      var s2 := WithChannel(s1, m, c);
      OneEachAsked(s, e);
      if Serves(c, e.id) {
        OneEachSent(s2, e.id, TM.OnPaymentStart);
        if !e.throws { OneEachFlow(s2, e.id, TM.OnPaymentStart); }
      }
    }
  }

  lemma OneEachEnqueue(s: Service, e: Event)
    requires OneEach(s) && e.EnqueueForSettle? && e.id in s.tasks
    ensures OneEach(AfterEnqueue(s, e))
  {
    var m := s.tasks[e.id].methodRef;
    var s1 := WithLane(s, m, e.typicalMs);
    assert OneEach(s1);
    if s.tasks[e.id].reservedUntil.Some? {
      var order := Order(e.id, s.tasks[e.id].reservedUntil.value, e.durationMs);
      var c := Enqueued(s1.lanes[m].cfg, s1.lanes[m].channel, e.now, order).1;
      EnqueuedCurrent(s1.lanes[m].cfg, s1.lanes[m].channel, e.now, order);
      OneEachLane(s1, m, c);
      OneEachSent(WithChannel(s1, m, c), e.id, TM.OnQueued);
    }
  }

  lemma OneEachEnd(s: Service, e: Event)
    requires OneEach(s) && e.SettleEnds? && e.id in s.inFlight && e.id in s.tasks && s.tasks[e.id].methodRef in s.lanes
    ensures OneEach(AfterEnd(s, e))
  {
    var m := s.tasks[e.id].methodRef;
    CompletedCurrent(s.lanes[m].cfg, s.lanes[m].channel, e.id, e.outcome.Paid?, e.t0, e.t1);
    assert ServedBy(s, e.id);
  }

  lemma OneEachThaw(s: Service, m: string, now: int)
    requires OneEach(s) && m in s.lanes
    ensures OneEach(WithChannel(s, m, Unfrozen(s.lanes[m].cfg, s.lanes[m].channel, now)))
  {
    UnfrozenCurrent(s.lanes[m].cfg, s.lanes[m].channel, now);
    OneEachLane(s, m, Unfrozen(s.lanes[m].cfg, s.lanes[m].channel, now));
  }

  lemma OneEachAcquire(s: Service, id: string, until: Option<int>)
    requires OneEach(s) && id in s.tasks
    ensures OneEach(Step(s, AcquireBegins(id))) && OneEach(Step(s, AcquireEnds(id, until)))
  {
    OneEachSent(s, id, TM.OnStrike);
    OneEachSent(Sent(s, id, TM.OnStrike), id, TM.OnAcquire);
    var kept := s.(tasks := s.tasks[id := s.tasks[id].(reservedUntil := until)]);
    assert OneEach(kept);
    OneEachSent(kept, id, if until.Some? then TM.OnAcquired else TM.OnAcquireFailed);
  }

  lemma OneEachStep(s: Service, e: Event)
    requires OneEach(s) && (WouldPay(e) ==> e.id !in s.inFlight)
    ensures OneEach(Step(s, e))
  {
    match e
    case EnqueueForSettle(id, _, _, _) => if id in s.tasks { OneEachEnqueue(s, e); }
    case SettleBegins(id, _, _, _, _, _, _, _) => if id in s.tasks { OneEachBegin(s, e); }
    case SettleEnds(id, _, _, _) =>
      if id in s.inFlight && id in s.tasks && s.tasks[id].methodRef in s.lanes { OneEachEnd(s, e); }
    case FreezeChannel(m, reason) => if m in s.lanes { OneEachLane(s, m, s.lanes[m].channel.(frozen := Some(reason))); }
    case UnfreezeChannel(m, now) => if m in s.lanes { OneEachThaw(s, m, now); }
    case AcquireBegins(id) => if id in s.tasks { OneEachAcquire(s, id, None); }
    case AcquireEnds(id, until) => if id in s.tasks { OneEachAcquire(s, id, until); }
    case CancelTask(id) => if id in s.tasks { OneEachSent(s, id, TM.OnCancel); }
    case CreateTask(_, _) =>
  }

  /** A run is disciplined when all but its last event is, and that event. */
  lemma DisciplinedLast(es: seq<Event>, before: seq<Event>, e: Event, s: Service)
    requires es == before + [e] && s == Run(before)
    ensures Disciplined(es) <==> Disciplined(before) && (WouldPay(e) ==> e.id !in s.inFlight)
  {
    assert forall i :: 0 <= i <= |before| ==> before[..i] == es[..i];
    assert es[..|before|] == before && es[|before|] == e;
  }

  lemma DisciplinedBefore(es: seq<Event>, n: nat)
    requires Disciplined(es) && n <= |es|
    ensures Disciplined(es[..n])
  {
    forall i | 0 <= i < n && WouldPay(es[..n][i]) ensures es[..n][i].id !in Run(es[..n][..i]).inFlight {
      assert es[..n][..i] == es[..i] && es[..n][i] == es[i];
    }
  }

  lemma {:induction false} OneEachRun(es: seq<Event>)
    requires Disciplined(es)
    ensures OneEach(Run(es))
  {
    if es != [] {
      var before, e := es[..|es| - 1], es[|es| - 1];
      SplitLast(es);
      DisciplinedLast(es, before, e, Run(before));
      OneEachRun(before);
      OneEachNext(Run(before), e, Run(es));
    }
  }

  lemma OneEachNext(s: Service, e: Event, s': Service)
    requires OneEach(s) && (WouldPay(e) ==> e.id !in s.inFlight) && s' == Step(s, e)
    ensures OneEach(s')
  {
    OneEachStep(s, e);
  }

  lemma OneEachIsOne(s: Service)
    requires OneEach(s)
    ensures OnePerMethod(s)
  {
  }

  ghost predicate AlwaysOne(es: seq<Event>) {
    forall n :: 0 <= n <= |es| ==> OnePerMethod(Run(es[..n]))
  }

  /**
   Exactly when the promise of one payment in flight per channel is kept: a run never has two
   flows of one payment method in flight if and only if no call that would pay settles a task
   whose payment flow is in flight at that moment.
  */
  lemma OneFlowExactly(es: seq<Event>)
    ensures AlwaysOne(es) <==> Disciplined(es)
  {
    if Disciplined(es) {
      forall n | 0 <= n <= |es| ensures OnePerMethod(Run(es[..n])) {
        DisciplinedBefore(es, n);
        OneEachRun(es[..n]);
        OneEachIsOne(Run(es[..n]));
      }
    }
    if AlwaysOne(es) { OneFlowNeeds(es); }
  }

  lemma AlwaysOneLast(es: seq<Event>, before: seq<Event>, e: Event)
    requires es == before + [e] && AlwaysOne(es)
    ensures AlwaysOne(before) && OnePerMethod(Step(Run(before), e))
  {
    assert forall n :: 0 <= n <= |before| ==> before[..n] == es[..n];
    assert es[..|es|] == es && es[..|es| - 1] == before;
    assert OnePerMethod(Run(es));
  }

  lemma {:induction false} OneFlowNeeds(es: seq<Event>)
    requires AlwaysOne(es)
    ensures Disciplined(es)
  {
    if es != [] {
      var before, e := es[..|es| - 1], es[|es| - 1];
      SplitLast(es);
      AlwaysOneLast(es, before, e);
      OneFlowNeeds(before);
      OneEachRun(before);
      NotAgain(Run(before), e);
      DisciplinedLast(es, before, e, Run(before));
    }
  }

  lemma NotAgain(s: Service, e: Event)
    requires OneEach(s) && OnePerMethod(Step(s, e))
    ensures WouldPay(e) ==> e.id !in s.inFlight
  {
    if WouldPay(e) && e.id in s.inFlight { AgainIsTwo(s, e); }
  }

  /** Settling again a task whose flow is in flight puts two flows of it in flight. */
  lemma AgainIsTwo(s: Service, e: Event)
    requires OneEach(s) && WouldPay(e) && e.id in s.inFlight
    ensures !OnePerMethod(Step(s, e))
  {
    assert ServedBy(s, e.id);
    SettledAgain(s, e.id, e);
    assert SameMethodInFlight(Step(s, e), e.id, e.id);
  }

  /** As long as no task is settled twice at once, one payment method has one payment flow in flight. */
  lemma AtMostOneInFlight(es: seq<Event>, a: string, b: string)
    requires Disciplined(es) && SameMethodInFlight(Run(es), a, b)
    ensures a == b && Run(es).inFlight[a] == 1
  {
    OneEachRun(es);
  }

  ghost predicate NextInLine(c: Channel, id: string) {
    c.pending != [] && Sort(DeadlineOf, Tasks(c.pending))[0].id == id
  }

  /**
   The discipline is needed: wherever a task is in flight and another is next in its unfrozen
   channel, settling the first again, its first flow ending, and settling the other put two
   tasks of one payment method in flight.
  */
  lemma DuplicateSettleBreaks(s: Service, a: string, b: string, again: Event, ends: Event, other: Event)
    requires a != b && a in s.inFlight && a in s.tasks && b in s.tasks && ServedBy(s, a)
    requires s.tasks[a].methodRef == s.tasks[b].methodRef
    requires var c := s.lanes[s.tasks[a].methodRef].channel; c.frozen.None? && NextInLine(c, b)
    requires again.SettleBegins? && again.id == a && again.live && !again.throws
    requires ends.SettleEnds? && ends.id == a
    requires other.SettleBegins? && other.id == b && other.live && !other.throws
    ensures SameMethodInFlight(Step(Step(Step(s, again), ends), other), a, b)
  {
    SettledAgain(s, a, again);
    EndFrees(Step(s, again), a, b, ends);
    TurnBegins(Step(Step(s, again), ends), b, other);
  }

  lemma SettledAgain(s: Service, a: string, e: Event)
    requires a in s.tasks && ServedBy(s, a) && e.SettleBegins? && e.id == a && e.live && !e.throws
    ensures var s' := Step(s, e);
            && s'.lanes == s.lanes && s'.inFlight == s.inFlight + multiset{a} && s'.tasks.Keys == s.tasks.Keys
            && forall u :: u in s.tasks ==> s'.tasks[u].methodRef == s.tasks[u].methodRef
  {
    var m := s.tasks[a].methodRef;
    assert s.lanes[m := s.lanes[m].(channel := s.lanes[m].channel)] == s.lanes;
  }

  lemma EndFrees(s: Service, a: string, b: string, e: Event)
    requires a in s.tasks && b in s.tasks && ServedBy(s, a) && s.tasks[b].methodRef == s.tasks[a].methodRef
    requires e.SettleEnds? && e.id == a && s.inFlight[a] >= 2
    requires var c := s.lanes[s.tasks[a].methodRef].channel; c.frozen.None? && NextInLine(c, b)
    ensures var s' := Step(s, e);
            && b in s'.tasks && s'.tasks[b].methodRef in s'.lanes && a in s'.inFlight
            && var c := s'.lanes[s'.tasks[b].methodRef].channel;
               c.frozen.None? && c.current.None? && NextInLine(c, b)
  {
    var lane := s.lanes[s.tasks[a].methodRef];
    var freed := Completed(lane.cfg, lane.channel, a, e.outcome.Paid?, None, e.t0, e.t1);
    CR.CompletedTasks(lane.cfg, lane.channel, a, e.outcome.Paid?, None, e.t0, e.t1);
    CR.SortTwice(Tasks(lane.channel.pending));
    assert |Tasks(freed.pending)| == |Tasks(lane.channel.pending)|;
  }

  lemma TurnBegins(s: Service, b: string, e: Event)
    requires b in s.tasks && s.tasks[b].methodRef in s.lanes && e.SettleBegins? && e.id == b && e.live && !e.throws
    requires var c := s.lanes[s.tasks[b].methodRef].channel; c.frozen.None? && c.current.None? && NextInLine(c, b)
    ensures Step(s, e).inFlight == s.inFlight + multiset{b}
  {
    var lane := s.lanes[s.tasks[b].methodRef];
    CR.StartedTasks(lane.cfg, lane.channel, e.forceNow, e.t0, e.t1, e.t2);
  }

  // ----- a run that breaks it

  lemma RunTo(es: seq<Event>, e: Event, s: Service, s': Service)
    requires Run(es) == s && Step(s, e) == s'
    ensures Run(es + [e]) == s'
  {
    assert (es + [e])[..|es|] == es;
  }

  /** A service with two tasks of one payment method and nothing else. */
  function Two(a: string, x: TaskRecord, b: string, y: TaskRecord): Service {
    Service(map[a := x, b := y], map[], multiset{})
  }

  function Configured(m: string): TaskRecord { TaskRecord(TM.Configured, m, None) }

  function Held(m: string): TaskRecord { TaskRecord(TM.Acquired, m, Some(0)) }

  lemma TwoSent(a: string, x: TaskRecord, b: string, y: TaskRecord, e: TM.Event)
    requires a != b
    ensures Sent(Two(a, x, b, y), a, e) == Two(a, x.(state := TM.Next(x.state, e)), b, y)
  {
    var x' := x.(state := TM.Next(x.state, e));
    assert map[a := x, b := y][a := x'] == map[a := x', b := y];
  }

  lemma TwoBegin(a: string, b: string, y: TaskRecord, m: string)
    requires a != b
    ensures Step(Two(a, Configured(m), b, y), AcquireBegins(a)) == Two(a, TaskRecord(TM.Acquiring, m, None), b, y)
  {
    TwoSent(a, Configured(m), b, y, TM.OnStrike);
    TwoSent(a, TaskRecord(TM.Striking, m, None), b, y, TM.OnAcquire);
  }

  lemma TwoEnd(a: string, b: string, y: TaskRecord, m: string)
    requires a != b
    ensures Step(Two(a, TaskRecord(TM.Acquiring, m, None), b, y), AcquireEnds(a, Some(0))) == Two(a, Held(m), b, y)
  {
    var x, kept := TaskRecord(TM.Acquiring, m, None), TaskRecord(TM.Acquiring, m, Some(0));
    assert map[a := x, b := y][a := kept] == map[a := kept, b := y];
    TwoSent(a, kept, b, y, TM.OnAcquired);
  }

  lemma TwoSwap(a: string, x: TaskRecord, b: string, y: TaskRecord)
    requires a != b
    ensures Two(a, x, b, y) == Two(b, y, a, x)
  {
    assert map[a := x, b := y] == map[b := y, a := x];
  }

  lemma TwoCreated(a: string, b: string, m: string)
    requires a != b
    ensures Step(Step(Run([]), CreateTask(a, m)), CreateTask(b, m)) == Two(a, Configured(m), b, Configured(m))
  {
    assert map[][a := Configured(m)][b := Configured(m)] == map[a := Configured(m), b := Configured(m)];
  }

  /** Both tasks hold a reservation. */
  lemma TwoHeldRun(a: string, b: string, m: string) returns (es: seq<Event>)
    requires a != b
    ensures Run(es) == Two(a, Held(m), b, Held(m))
  {
    var x, y, acq := Configured(m), Held(m), TaskRecord(TM.Acquiring, m, None);
    TwoCreated(a, b, m);
    TwoBegin(a, b, x, m);
    TwoEnd(a, b, x, m);
    TwoBegin(b, a, y, m);
    TwoEnd(b, a, y, m);
    TwoSwap(a, y, b, x);
    TwoSwap(a, y, b, y);
    es := [];
    RunTo(es, CreateTask(a, m), Run([]), Step(Run([]), CreateTask(a, m)));
    es := es + [CreateTask(a, m)];
    RunTo(es, CreateTask(b, m), Step(Run([]), CreateTask(a, m)), Two(a, x, b, x));
    es := es + [CreateTask(b, m)];
    RunTo(es, AcquireBegins(a), Two(a, x, b, x), Two(a, acq, b, x));
    es := es + [AcquireBegins(a)];
    RunTo(es, AcquireEnds(a, Some(0)), Two(a, acq, b, x), Two(a, y, b, x));
    es := es + [AcquireEnds(a, Some(0))];
    RunTo(es, AcquireBegins(b), Two(b, x, a, y), Two(b, acq, a, y));
    es := es + [AcquireBegins(b)];
    RunTo(es, AcquireEnds(b, Some(0)), Two(b, acq, a, y), Two(b, y, a, y));
    es := es + [AcquireEnds(b, Some(0))];
  }

  /** Two tasks of `m` with reservations, and the channel `c` of `m`, if it has been asked for. */
  ghost predicate Ready(s: Service, a: string, b: string, m: string, c: Option<Channel>) {
    && a != b && a in s.tasks && b in s.tasks && s.tasks[a].methodRef == m && s.tasks[b].methodRef == m
    && s.tasks[a].reservedUntil == Some(0) && s.tasks[b].reservedUntil == Some(0)
    && s.inFlight == multiset{}
    && (if c.None? then m !in s.lanes
        else m in s.lanes && s.lanes[m] == Lane(Config(MIN_INTERVAL_MS, 0, MAX_QUEUE_SIZE), c.value))
  }

  function EnqueueNow(id: string): Event { EnqueueForSettle(id, 0, None, 0) }

  function SettleNow(id: string): Event { SettleBegins(id, 0, true, false, false, 0, 0, 0) }

  lemma ReadyEnqueues(s: Service, a: string, b: string, m: string, c: Option<Channel>, id: string, c': Channel)
    requires Ready(s, a, b, m, c) && (id == a || id == b)
    requires var was := if c.Some? then c.value else Fresh();
             var r := Enqueued(Config(MIN_INTERVAL_MS, 0, MAX_QUEUE_SIZE), was, 0, Order(id, 0, None));
             r.0.Ok? && r.1 == c'
    ensures Ready(Step(s, EnqueueNow(id)), a, b, m, Some(c'))
  {
  }

  lemma ReadySettles(s: Service, a: string, b: string, m: string, c: Channel, c': Channel)
    requires Ready(s, a, b, m, Some(c)) && !Serves(c, a) && Serves(c', a)
    requires c' == Started(Config(MIN_INTERVAL_MS, 0, MAX_QUEUE_SIZE), c, false, 0, 0, 0)
    ensures var s' := Step(s, SettleNow(a));
            && s'.inFlight == multiset{a} && a in s'.tasks && b in s'.tasks
            && s'.tasks[a].methodRef == m && s'.tasks[b].methodRef == m && m in s'.lanes && s'.lanes[m].channel == c'
  {
  }

  /** The two tasks queue up in order, and the first is started. */
  lemma TwoQueued(cfg: Config, a: string, b: string, c1: Channel, c2: Channel, c3: Channel)
    requires cfg.maxQueueSize >= 2
    requires c1 == Enqueued(cfg, Fresh(), 0, Order(a, 0, None)).1 && c2 == Enqueued(cfg, c1, 0, Order(b, 0, None)).1
    requires c3 == Started(cfg, c2, false, 0, 0, 0)
    ensures Enqueued(cfg, Fresh(), 0, Order(a, 0, None)).0.Ok? && Enqueued(cfg, c1, 0, Order(b, 0, None)).0.Ok?
    ensures c2.current.None? && Serves(c3, a) && c3.frozen.None? && NextInLine(c3, b)
  {
    var ta, tb := Accepted(cfg, Fresh(), Order(a, 0, None)), Accepted(cfg, c1, Order(b, 0, None));
    CR.SortOfTwo(ta, tb);
    CR.EnqueuedTasks(cfg, Fresh(), 0, Order(a, 0, None));
    assert Tasks(c1.pending) == [ta];
    CR.EnqueuedTasks(cfg, c1, 0, Order(b, 0, None));
    assert Tasks(c2.pending) == [ta, tb];
    CR.StartedTasks(cfg, c2, false, 0, 0, 0);
    assert Tasks(c3.pending) == [tb];
  }

  /** The first task is paying and the second is next in line. */
  lemma OnePaysRun(a: string, b: string, m: string) returns (es: seq<Event>)
    requires a != b
    ensures var s := Run(es);
            && s.inFlight == multiset{a} && a in s.tasks && b in s.tasks && ServedBy(s, a)
            && s.tasks[a].methodRef == m && s.tasks[b].methodRef == m
            && s.lanes[m].channel.frozen.None? && NextInLine(s.lanes[m].channel, b)
  {
    var cfg := Config(MIN_INTERVAL_MS, 0, MAX_QUEUE_SIZE);
    var c1 := Enqueued(cfg, Fresh(), 0, Order(a, 0, None)).1;
    var c2 := Enqueued(cfg, c1, 0, Order(b, 0, None)).1;
    var c3 := Started(cfg, c2, false, 0, 0, 0);
    TwoQueued(cfg, a, b, c1, c2, c3);
    var start := TwoHeldRun(a, b, m);
    var s0 := Run(start);
    ReadyEnqueues(s0, a, b, m, None, a, c1);
    var s1 := Step(s0, EnqueueNow(a));
    ReadyEnqueues(s1, a, b, m, Some(c1), b, c2);
    var s2 := Step(s1, EnqueueNow(b));
    ReadySettles(s2, a, b, m, c2, c3);
    RunTo(start, EnqueueNow(a), s0, s1);
    RunTo(start + [EnqueueNow(a)], EnqueueNow(b), s1, s2);
    RunTo(start + [EnqueueNow(a)] + [EnqueueNow(b)], SettleNow(a), s2, Step(s2, SettleNow(a)));
    es := start + [EnqueueNow(a)] + [EnqueueNow(b)] + [SettleNow(a)];
  }

  /** The failure is reached from an empty service, for any two tasks of any payment method. */
  lemma TwoPayAtOnceRun(a: string, b: string, m: string, outcome: Outcome) returns (es: seq<Event>)
    requires a != b
    ensures SameMethodInFlight(Run(es), a, b) && !AlwaysOne(es)
  {
    var start := OnePaysRun(a, b, m);
    var s := Run(start);
    var s1 := Step(s, SettleNow(a));
    var s2 := Step(s1, SettleEnds(a, outcome, 0, 0));
    DuplicateSettleBreaks(s, a, b, SettleNow(a), SettleEnds(a, outcome, 0, 0), SettleNow(b));
    RunTo(start, SettleNow(a), s, s1);
    RunTo(start + [SettleNow(a)], SettleEnds(a, outcome, 0, 0), s1, s2);
    RunTo(start + [SettleNow(a)] + [SettleEnds(a, outcome, 0, 0)], SettleNow(b), s2, Step(s2, SettleNow(b)));
    es := start + [SettleNow(a)] + [SettleEnds(a, outcome, 0, 0)] + [SettleNow(b)];
    assert es[..|es|] == es;
    assert !OnePerMethod(Run(es[..|es|]));
  }

  // ----- frozen and out of turn

  /** On a frozen channel a payment flow begins exactly for the task the channel already serves. */
  lemma FrozenBeginsExactly(s: Service, e: Event)
    requires e.SettleBegins? && e.live && !e.throws && e.id in s.tasks && s.tasks[e.id].methodRef in s.lanes
    requires s.lanes[s.tasks[e.id].methodRef].channel.frozen.Some?
    ensures Step(s, e).inFlight == (if ServedBy(s, e.id) then s.inFlight + multiset{e.id} else s.inFlight)
  {
    var lane := s.lanes[s.tasks[e.id].methodRef];
    StartedCurrent(lane.cfg, lane.channel, e.forceNow, e.t0, e.t1, e.t2);
  }

  /** Settling out of turn fails, but leaves the task whose turn it is in service of the channel. */
  lemma WrongTurnStartsNext(s: Service, e: Event, a: string)
    requires e.SettleBegins? && e.live && e.id in s.tasks && s.tasks[e.id].methodRef in s.lanes && a != e.id
    requires var c := s.lanes[s.tasks[e.id].methodRef].channel; c.frozen.None? && c.current.None? && NextInLine(c, a)
    ensures var s' := Step(s, e);
            && s'.inFlight == s.inFlight && s'.tasks == s.tasks
            && Serves(s'.lanes[s.tasks[e.id].methodRef].channel, a)
  {
    var lane := s.lanes[s.tasks[e.id].methodRef];
    CR.StartedTasks(lane.cfg, lane.channel, e.forceNow, e.t0, e.t1, e.t2);
  }

  function RunFrom(s: Service, es: seq<Event>): Service
    decreases |es|
  {
    if es == [] then s else RunFrom(Step(s, es[0]), es[1..])
  }

  /** A channel serves a task whose payment flow is not in flight. */
  ghost predicate Blocked(s: Service, m: string, a: string) {
    m in s.lanes && Serves(s.lanes[m].channel, a) && a !in s.inFlight
  }

  /** Tasks keep their payment methods, the lanes go on serving what they serve, and flows of `m` do not begin. */
  ghost predicate StaysPut(s: Service, s': Service, m: string, a: string) {
    && Blocked(s', m, a)
    && (forall u :: u in s.tasks ==> u in s'.tasks && s'.tasks[u].methodRef == s.tasks[u].methodRef)
    && (forall u :: u in s.tasks && s.tasks[u].methodRef == m && u !in s.inFlight ==> u !in s'.inFlight)
  }

  lemma BlockedEnqueue(s: Service, e: Event, m: string, a: string)
    requires Blocked(s, m, a) && e.EnqueueForSettle? && e.id in s.tasks
    ensures StaysPut(s, AfterEnqueue(s, e), m, a)
  {
    var s1 := WithLane(s, s.tasks[e.id].methodRef, e.typicalMs);
    var lane := s1.lanes[s.tasks[e.id].methodRef];
    if s.tasks[e.id].reservedUntil.Some? {
      EnqueuedCurrent(lane.cfg, lane.channel, e.now, Order(e.id, s.tasks[e.id].reservedUntil.value, e.durationMs));
    }
  }

  lemma BlockedAsked(s: Service, e: Event, m: string, a: string)
    requires Blocked(s, m, a) && e.SettleBegins? && e.id in s.tasks && e.id != a
    ensures var n := s.tasks[e.id].methodRef;
            var s1 := WithLane(s, n, e.typicalMs);
            var c := Asked(s1.lanes[n], e.id, e);
            && Serves(WithChannel(s1, n, c).lanes[m].channel, a) && (n == m ==> !Serves(c, e.id))
  {
    var s1 := WithLane(s, s.tasks[e.id].methodRef, e.typicalMs);
    AskedCurrent(s1.lanes[s.tasks[e.id].methodRef], e.id, e);
  }

  /** A payment flow of another payment method may begin. */
  lemma BlockedFlow(s: Service, s': Service, id: string, m: string, a: string)
    requires StaysPut(s, s', m, a) && id in s.tasks && s.tasks[id].methodRef != m && id != a
    ensures StaysPut(s, s'.(inFlight := s'.inFlight + multiset{id}), m, a)
  {
  }

  lemma BlockedBegin(s: Service, e: Event, m: string, a: string)
    requires Blocked(s, m, a) && e.SettleBegins? && e.id in s.tasks && e.id != a
    ensures StaysPut(s, AfterBegin(s, e), m, a)
  {
    if e.live {
      var n := s.tasks[e.id].methodRef;
      var s1 := WithLane(s, n, e.typicalMs);
      var c := Asked(s1.lanes[n], e.id, e);
      var s2 := WithChannel(s1, n, c);
      BlockedAsked(s, e, m, a);
      assert StaysPut(s, s2, m, a);
      if Serves(c, e.id) {
        var s3 := Sent(s2, e.id, TM.OnPaymentStart);
        assert StaysPut(s, s3, m, a);
        BlockedFlow(s, s3, e.id, m, a);
      }
    }
  }

  lemma BlockedEnd(s: Service, e: Event, m: string, a: string)
    requires Blocked(s, m, a) && e.SettleEnds? && e.id in s.inFlight
    requires e.id in s.tasks && s.tasks[e.id].methodRef in s.lanes
    ensures StaysPut(s, AfterEnd(s, e), m, a)
  {
    var lane := s.lanes[s.tasks[e.id].methodRef];
    CompletedCurrent(lane.cfg, lane.channel, e.id, e.outcome.Paid?, e.t0, e.t1);
  }

  lemma BlockedStep(s: Service, e: Event, m: string, a: string)
    requires Blocked(s, m, a) && !(e.SettleBegins? && e.id == a)
    ensures StaysPut(s, Step(s, e), m, a)
  {
    match e
    case EnqueueForSettle(id, _, _, _) => if id in s.tasks { BlockedEnqueue(s, e, m, a); }
    case SettleBegins(id, _, _, _, _, _, _, _) => if id in s.tasks { BlockedBegin(s, e, m, a); }
    case SettleEnds(id, _, _, _) =>
      if id in s.inFlight && id in s.tasks && s.tasks[id].methodRef in s.lanes { BlockedEnd(s, e, m, a); }
    case UnfreezeChannel(n, now) =>
      if n in s.lanes { UnfrozenCurrent(s.lanes[n].cfg, s.lanes[n].channel, now); }
    case CreateTask(_, _) =>
    case AcquireBegins(_) =>
    case AcquireEnds(_, _) =>
    case CancelTask(_) =>
    case FreezeChannel(_, _) =>
  }

  /**
   A task left in service (an abandoned one whose turn another task's call took) blocks its
   payment method: until someone settles it, no other task of the method begins to pay.
  */
  lemma {:induction false} AbandonedTaskBlocks(s: Service, es: seq<Event>, m: string, a: string, u: string)
    requires Blocked(s, m, a) && forall i :: 0 <= i < |es| ==> !(es[i].SettleBegins? && es[i].id == a)
    requires u in s.tasks && s.tasks[u].methodRef == m && u !in s.inFlight
    ensures Blocked(RunFrom(s, es), m, a) && u !in RunFrom(s, es).inFlight
    decreases |es|
  {
    if es != [] {
      BlockedStep(s, es[0], m, a);
      AbandonedTaskBlocks(Step(s, es[0]), es[1..], m, a, u);
    }
  }

  /** The channel of `m` is frozen, does not serve `u`, and `u` is not paying over it. */
  ghost predicate FrozenFor(s: Service, m: string, u: string) {
    && m in s.lanes && s.lanes[m].channel.frozen.Some? && !Serves(s.lanes[m].channel, u)
    && (u in s.inFlight ==> u in s.tasks && s.tasks[u].methodRef != m)
  }

  lemma FrozenEnqueue(s: Service, e: Event, m: string, u: string)
    requires FrozenFor(s, m, u) && e.EnqueueForSettle? && e.id in s.tasks
    ensures FrozenFor(AfterEnqueue(s, e), m, u)
  {
    var n := s.tasks[e.id].methodRef;
    var s1 := WithLane(s, n, e.typicalMs);
    assert FrozenFor(s1, m, u);
    if s.tasks[e.id].reservedUntil.Some? && n != m {
      var order := Order(e.id, s.tasks[e.id].reservedUntil.value, e.durationMs);
      assert FrozenFor(WithChannel(s1, n, Enqueued(s1.lanes[n].cfg, s1.lanes[n].channel, e.now, order).1), m, u);
    }
  }

  lemma FrozenBegin(s: Service, e: Event, m: string, u: string)
    requires FrozenFor(s, m, u) && e.SettleBegins? && e.id in s.tasks
    ensures FrozenFor(AfterBegin(s, e), m, u)
  {
    if e.live {
      var n := s.tasks[e.id].methodRef;
      var s1 := WithLane(s, n, e.typicalMs);
      assert FrozenFor(s1, m, u);
      var c := Asked(s1.lanes[n], e.id, e);
      StartedCurrent(s1.lanes[n].cfg, s1.lanes[n].channel, e.forceNow, e.t0, e.t1, e.t2);
      assert n == m ==> c == s1.lanes[m].channel;
      var s2 := WithChannel(s1, n, c);
      assert FrozenFor(s2, m, u);
      if Serves(c, e.id) {
        assert FrozenFor(Sent(s2, e.id, TM.OnPaymentStart), m, u);
      }
    }
  }

  lemma FrozenEnd(s: Service, e: Event, m: string, u: string)
    requires FrozenFor(s, m, u) && e.SettleEnds? && e.id in s.inFlight
    requires e.id in s.tasks && s.tasks[e.id].methodRef in s.lanes
    ensures FrozenFor(AfterEnd(s, e), m, u)
  {
    var lane := s.lanes[s.tasks[e.id].methodRef];
    CompletedCurrent(lane.cfg, lane.channel, e.id, e.outcome.Paid?, e.t0, e.t1);
  }

  lemma FrozenStep(s: Service, e: Event, m: string, u: string)
    requires FrozenFor(s, m, u) && !(e.UnfreezeChannel? && e.methodRef == m)
    ensures FrozenFor(Step(s, e), m, u)
  {
    match e
    case EnqueueForSettle(id, _, _, _) => if id in s.tasks { FrozenEnqueue(s, e, m, u); }
    case SettleBegins(id, _, _, _, _, _, _, _) => if id in s.tasks { FrozenBegin(s, e, m, u); }
    case SettleEnds(id, _, _, _) =>
      if id in s.inFlight && id in s.tasks && s.tasks[id].methodRef in s.lanes { FrozenEnd(s, e, m, u); }
    case UnfreezeChannel(_, _) =>
    case FreezeChannel(_, _) =>
    case CreateTask(_, _) =>
    case AcquireBegins(_) =>
    case AcquireEnds(_, _) =>
    case CancelTask(_) =>
  }

  /**
   From a freeze of a payment method until it is lifted, no payment flow over it begins for any
   task but the one its channel served when it was frozen, whatever is enqueued, settled or
   completed meanwhile.
  */
  lemma {:induction false} FrozenBeginsNothing(s: Service, es: seq<Event>, m: string, u: string)
    requires FrozenFor(s, m, u) && forall i :: 0 <= i < |es| ==> !(es[i].UnfreezeChannel? && es[i].methodRef == m)
    ensures FrozenFor(RunFrom(s, es), m, u)
    ensures var s' := RunFrom(s, es); u in s'.tasks && s'.tasks[u].methodRef == m ==> u !in s'.inFlight
    decreases |es|
  {
    if es != [] {
      FrozenStep(s, es[0], m, u);
      FrozenBeginsNothing(Step(s, es[0]), es[1..], m, u);
    }
  }

  // ----- the implementation

  lemma SameChannel(s: Service, m: string)
    requires m in s.lanes
    ensures WithChannel(s, m, s.lanes[m].channel) == s
  {
    assert s.lanes[m := s.lanes[m].(channel := s.lanes[m].channel)] == s.lanes;
  }

  /** `AfterEnqueue` in the steps the service takes. */
  lemma EnqueueParts(s: Service, e: Event, s1: Service, m: string, r: Result<Receipt, Refusal>, c: Channel)
    requires e.EnqueueForSettle? && e.id in s.tasks && s.tasks[e.id].reservedUntil.Some?
    requires m == s.tasks[e.id].methodRef && s1 == WithLane(s, m, e.typicalMs)
    requires var order := Order(e.id, s.tasks[e.id].reservedUntil.value, e.durationMs);
             (r, c) == Enqueued(s1.lanes[m].cfg, s1.lanes[m].channel, e.now, order)
    ensures var s2 := WithChannel(s1, m, c); AfterEnqueue(s, e) == if r.Err? then s2 else Sent(s2, e.id, TM.OnQueued)
  {
    if r.Err? {
      assert c == s1.lanes[m].channel;
      SameChannel(s1, m);
    }
  }

  /** Where only the channel of `m` differs. */
  lemma OneLane(s: Service, s': Service, m: string, c: Channel)
    requires m in s.lanes && s'.tasks == s.tasks && s'.inFlight == s.inFlight && s'.lanes.Keys == s.lanes.Keys
    requires s'.lanes[m] == Lane(s.lanes[m].cfg, c)
    requires forall n :: n in s.lanes && n != m ==> s'.lanes[n] == s.lanes[n]
    ensures s' == WithChannel(s, m, c)
  {
    assert s'.lanes == s.lanes[m := s.lanes[m].(channel := c)];
  }

  /** `AfterBegin` of a live call in the steps the service takes. */
  lemma BeginParts(s: Service, e: Event, s1: Service, s2: Service, c: Channel)
    requires e.SettleBegins? && e.live && e.id in s.tasks && s1 == WithLane(s, s.tasks[e.id].methodRef, e.typicalMs)
    requires c == Asked(s1.lanes[s.tasks[e.id].methodRef], e.id, e) && s2 == WithChannel(s1, s.tasks[e.id].methodRef, c)
    ensures ServedBy(Step(s, e), e.id) <==> Serves(c, e.id)
    ensures !Serves(c, e.id) ==> Step(s, e) == s2
    ensures Serves(c, e.id) ==>
              var s3 := Sent(s2, e.id, TM.OnPaymentStart);
              Step(s, e) == if e.throws then s3 else s3.(inFlight := s3.inFlight + multiset{e.id})
  {
  }

  lemma EndParts(s: Service, e: Event, s1: Service, c: Channel)
    requires e.SettleEnds? && e.id in s.inFlight && e.id in s.tasks && s.tasks[e.id].methodRef in s.lanes
    requires var lane := s.lanes[s.tasks[e.id].methodRef];
             c == Completed(lane.cfg, lane.channel, e.id, e.outcome.Paid?, None, e.t0, e.t1)
    requires s1 == WithChannel(s, s.tasks[e.id].methodRef, c)
    ensures Step(s, e) == Sent(s1, e.id, ResultEvent(e.outcome)).(inFlight := s1.inFlight - multiset{e.id})
  {
  }

  datatype SettleError = UserCancelled | NotNext | EngineFailed

  /** The service's tasks and its channels, each an object of its own; `inFlight` is history only. */
  class Sniper2Service {
    var tasks: map<string, TaskRecord>
    var channels: map<string, PaymentChannel>
    ghost var inFlight: multiset<string>

    ghost predicate Valid()
      reads this
    {
      forall m, n :: m in channels && n in channels && m != n ==> channels[m] != channels[n]
    }

    ghost function Lanes(): map<string, Lane>
      reads this, channels.Values
    {
      map m | m in channels :: Lane(channels[m].cfg, channels[m].State())
    }

    ghost function State(): Service
      reads this, channels.Values
    {
      Service(tasks, Lanes(), inFlight)
    }

    constructor ()
      ensures Valid() && State() == Run([])
    {
      tasks, channels, inFlight := map[], map[], multiset{};
    }

    method Send(id: string, e: TM.Event)
      requires id in tasks
      modifies this`tasks
      ensures State() == Sent(old(State()), id, e)
    {
      tasks := tasks[id := tasks[id].(state := TM.Next(tasks[id].state, e))];
    }

    /** One channel per payment method, created on first use. */
    method ChannelFor(methodRef: string, typicalMs: nat) returns (channel: PaymentChannel)
      requires Valid()
      modifies this`channels
      ensures Valid() && State() == WithLane(old(State()), methodRef, typicalMs)
      ensures methodRef in channels && channel == channels[methodRef]
      ensures channels.Values <= old(channels.Values) + {channel} && (channel in old(channels.Values) || fresh(channel))
    {
      if methodRef !in channels {
        var created := new PaymentChannel(Config(MIN_INTERVAL_MS, typicalMs, MAX_QUEUE_SIZE));
        channels := channels[methodRef := created];
      }
      channel := channels[methodRef];
    }

    /** `runAcquirePhase` up to the flow it awaits; the guards' verdict is an input. */
    method BeginAcquire(id: string, guardsPass: bool) returns (begun: bool)
      requires id in tasks
      modifies this`tasks
      ensures State() == if begun then Step(old(State()), AcquireBegins(id)) else old(State())
      ensures begun == guardsPass
    {
      if guardsPass {
        Send(id, TM.OnStrike);
        Send(id, TM.OnAcquire);
      }
      begun := guardsPass;
    }

    /** `runAcquirePhase` behind the flow. */
    method EndAcquire(id: string, reservedUntil: Option<int>)
      requires id in tasks
      modifies this`tasks
      ensures State() == Step(old(State()), AcquireEnds(id, reservedUntil))
    {
      tasks := tasks[id := tasks[id].(reservedUntil := reservedUntil)];
      if reservedUntil.Some? {
        Send(id, TM.OnAcquired);
      } else {
        Send(id, TM.OnAcquireFailed);
      }
    }

    /** None is the `acquire_expired` error of a task without a reservation. */
    method EnqueueForSettle(id: string, typicalMs: nat, durationMs: Option<nat>, now: int)
      returns (r: Option<Result<Receipt, Refusal>>)
      requires Valid() && id in tasks
      modifies this`tasks, this`channels, channels.Values
      ensures Valid() && State() == Step(old(State()), Event.EnqueueForSettle(id, typicalMs, durationMs, now))
      ensures r.None? <==> old(tasks)[id].reservedUntil.None?
      ensures r.Some? ==>
                var m := old(tasks)[id].methodRef;
                var lane := WithLane(old(State()), m, typicalMs).lanes[m];
                var order := Order(id, old(tasks)[id].reservedUntil.value, durationMs);
                r.value == Enqueued(lane.cfg, lane.channel, now, order).0
    {
      var channel := ChannelFor(tasks[id].methodRef, typicalMs);
      if tasks[id].reservedUntil.None? {
        return None;
      }
      ghost var s1 := State();
      ghost var c;
      var receipt;
      receipt, c := Queue(id, tasks[id].methodRef, now, Order(id, tasks[id].reservedUntil.value, durationMs));
      EnqueueParts(old(State()), Event.EnqueueForSettle(id, typicalMs, durationMs, now), s1, tasks[id].methodRef,
                   receipt, c);
      r := Some(receipt);
    }

    /** Enqueues in the channel, and marks the task queued if the channel accepts. */
    method Queue(id: string, m: string, now: int, order: Order)
      returns (receipt: Result<Receipt, Refusal>, ghost c: Channel)
      requires Valid() && id in tasks && m in channels
      modifies this`tasks, channels[m]
      ensures Valid() && channels == old(channels) && id in tasks && tasks[id].methodRef == old(tasks)[id].methodRef
      ensures (receipt, c) == Enqueued(channels[m].cfg, old(channels[m].State()), now, order)
      ensures var s2 := WithChannel(old(State()), m, c);
              State() == if receipt.Err? then s2 else Sent(s2, id, TM.OnQueued)
    {
      receipt, c := EnqueueIn(m, now, order);
      if receipt.Ok? {
        Send(id, TM.OnQueued);
      }
    }

    /** `c` is the channel's state behind the call. */
    method EnqueueIn(m: string, now: int, order: Order) returns (r: Result<Receipt, Refusal>, ghost c: Channel)
      requires Valid() && m in channels
      modifies channels[m]
      ensures Valid() && channels == old(channels) && State() == WithChannel(old(State()), m, c)
      ensures (r, c) == Enqueued(channels[m].cfg, old(channels[m].State()), now, order)
    {
      r := channels[m].Enqueue(now, order);
      c := channels[m].State();
      OneLane(old(State()), State(), m, c);
    }

    /** Starts the channel's next task unless the channel serves `id`, and tells whether it then does. */
    method Ask(m: string, id: string, e: Event) returns (served: bool, ghost c: Channel)
      requires Valid() && m in channels && e.SettleBegins?
      modifies channels[m]
      ensures Valid() && channels == old(channels) && State() == WithChannel(old(State()), m, c)
      ensures c == Asked(Lane(channels[m].cfg, old(channels[m].State())), id, e) && (served <==> Serves(c, id))
    {
      var channel := channels[m];
      if channel.currentlyProcessing.None? || channel.currentlyProcessing.value.task.id != id {
        var _ := channel.StartNext(e.forceNow, e.t0, e.t1, e.t2);
      }
      c := channel.State();
      OneLane(old(State()), State(), m, c);
      served := channel.currentlyProcessing.Some? && channel.currentlyProcessing.value.task.id == id;
    }

    /** `runSettlePhase` up to the payment flow; `throws` when building its engine does. */
    method BeginSettle(id: string, typicalMs: nat, live: bool, forceNow: bool, throws: bool, t0: int, t1: int, t2: int)
      returns (r: Result<(), SettleError>)
      requires Valid() && id in tasks
      modifies this, channels.Values
      ensures Valid() && State() == Step(old(State()), SettleBegins(id, typicalMs, live, forceNow, throws, t0, t1, t2))
      ensures r.Ok? <==> inFlight == old(inFlight) + multiset{id}
      ensures r == Err(UserCancelled) <==> !live
      ensures r == Err(NotNext) <==> live && !ServedBy(State(), id)
      ensures r == Err(EngineFailed) <==> live && ServedBy(State(), id) && throws
    {
      if !live {
        return Err(UserCancelled);
      }
      ghost var e := SettleBegins(id, typicalMs, live, forceNow, throws, t0, t1, t2);
      var channel := ChannelFor(tasks[id].methodRef, typicalMs);
      ghost var s1, c := State(), channel.State();
      var served;
      served, c := Ask(tasks[id].methodRef, id, SettleBegins(id, typicalMs, live, forceNow, throws, t0, t1, t2));
      BeginParts(old(State()), e, s1, State(), c);
      if !served {
        return Err(NotNext);
      }
      r := Pay(id, throws);
    }

    /** The task is paying, and its flow is in flight unless the engine cannot be built. */
    method Pay(id: string, throws: bool) returns (r: Result<(), SettleError>)
      requires id in tasks
      modifies this`tasks, this`inFlight
      ensures var s3 := Sent(old(State()), id, TM.OnPaymentStart);
              State() == if throws then s3 else s3.(inFlight := s3.inFlight + multiset{id})
      ensures r == if throws then Err(EngineFailed) else Ok(())
    {
      Send(id, TM.OnPaymentStart);
      if throws {
        return Err(EngineFailed);
      }
      inFlight := inFlight + multiset{id};
      r := Ok(());
    }

    /** `runSettlePhase` behind the payment flow. */
    method EndSettle(id: string, outcome: Outcome, t0: int, t1: int)
      requires Valid() && id in inFlight && id in tasks && tasks[id].methodRef in channels
      modifies this`tasks, this`inFlight, channels[tasks[id].methodRef]
      ensures Valid() && State() == Step(old(State()), SettleEnds(id, outcome, t0, t1))
    {
      ghost var c := CompleteIn(tasks[id].methodRef, id, outcome.Paid?, t0, t1);
      EndParts(old(State()), SettleEnds(id, outcome, t0, t1), State(), c);
      Send(id, ResultEvent(outcome));
      inFlight := inFlight - multiset{id};
    }

    method CompleteIn(m: string, id: string, ok: bool, t0: int, t1: int) returns (ghost c: Channel)
      requires Valid() && m in channels
      modifies channels[m]
      ensures Valid() && channels == old(channels) && State() == WithChannel(old(State()), m, c)
      ensures c == Completed(channels[m].cfg, old(channels[m].State()), id, ok, None, t0, t1)
    {
      channels[m].Complete(id, ok, None, t0, t1);
      c := channels[m].State();
      OneLane(old(State()), State(), m, c);
    }

    /** What a terminal event with a bank challenge does to the task's channel, if there is one. */
    method FreezeChannel(m: string, reason: string)
      requires Valid()
      modifies channels.Values
      ensures Valid() && channels == old(channels)
      ensures State() == Step(old(State()), Event.FreezeChannel(m, reason))
    {
      if m in channels {
        ghost var lane := State().lanes[m];
        channels[m].Freeze(reason);
        OneLane(old(State()), State(), m, lane.channel.(frozen := Some(reason)));
      }
    }
  }
}
