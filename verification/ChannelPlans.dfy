/**
 What a channel promises about the future: the times on its pending tasks and on the receipts
 it gives, in terms of the task it serves, the clock, the durations and the gap.
*/
module ChannelPlans {
  import opened Wrappers
  import opened StableSort
  import opened Edf
  import opened PaymentChannels
  import opened ChannelRuns

  /**
   When the next payment can start, seen from a clock reading: the gap after the task in
   service, which takes its duration from its recorded start on, or after now.
  */
  function FirstStart(cfg: Config, c: Channel, at: int): int {
    if c.current.Some? then
      var p := c.current.value;
      Max(at, p.startedAt + p.task.duration + cfg.minIntervalMs)
    else at + cfg.minIntervalMs
  }

  predicate Labels(risk: Risk, finish: int, deadline: int) {
    && (risk == WillMiss <==> finish > deadline)
    && (risk == Safe <==> finish + 120000 <= deadline)
  }

  /** The task in service is expected to take its duration. */
  predicate FinishPlanned(c: Channel) {
    c.current.Some? ==> c.current.value.expectedFinishAt == c.current.value.startedAt + c.current.value.task.duration
  }

  /** Slot `k` comes behind all slots before it and a gap for each, counted from the first start. */
  predicate SlotPlanned(cfg: Config, c: Channel, at: int, k: nat)
    requires k < |c.pending|
  {
    var s := c.pending[k];
    && s.start == FirstStart(cfg, c, at) + TotalDuration(Tasks(c.pending)[..k]) + k * cfg.minIntervalMs
    && s.finish == s.start + s.task.duration && Labels(s.risk, s.finish, s.task.deadline)
  }

  ghost predicate PlannedAt(cfg: Config, c: Channel, at: int) {
    forall k :: 0 <= k < |c.pending| ==> SlotPlanned(cfg, c, at, k)
  }

  lemma FirstIsFirst(cfg: Config, c: Channel, at: int)
    requires FinishPlanned(c)
    ensures Max(at, LastFinish(c, at) + cfg.minIntervalMs) == FirstStart(cfg, c, at)
  {
  }

  lemma RebalancedPlans(cfg: Config, c: Channel, at: int)
    requires FinishPlanned(c)
    ensures FinishPlanned(Rebalanced(cfg, c, at)) && PlannedAt(cfg, Rebalanced(cfg, c, at), at)
  {
    var c', ts := Rebalanced(cfg, c, at), Sort(DeadlineOf, Tasks(c.pending));
    RebalancedTasks(cfg, c, at);
    FirstIsFirst(cfg, c, at);
    forall k | 0 <= k < |ts| ensures SlotPlanned(cfg, c', at, k) {
      ScheduleAt(at, cfg.minIntervalMs, LastFinish(c, at), ts, k);
    }
  }

  /** The operation has an effect on the plan. */
  predicate Acts(c: Channel, e: Event, c': Channel) {
    !e.Freeze? && (c' != c || e.Rebalance? || e.Unfreeze?)
  }

  lemma StartPlans(cfg: Config, c: Channel, e: Event)
    requires FinishPlanned(c) && e.StartNext?
    ensures FinishPlanned(Step(cfg, c, e)) && (Acts(c, e, Step(cfg, c, e)) ==> PlannedAt(cfg, Step(cfg, c, e), e.t2))
  {
    if c.frozen.None? && c.current.None? && c.pending != [] {
      var r := Rebalanced(cfg, c, e.t0);
      RebalancedTasks(cfg, c, e.t0);
      RebalancedPlans(cfg, HeadServed(r, e.forceNow, e.t1), e.t2);
    }
  }

  lemma StepPlans(cfg: Config, c: Channel, e: Event, c': Channel)
    requires FinishPlanned(c) && c' == Step(cfg, c, e)
    ensures FinishPlanned(c') && (Acts(c, e, c') ==> PlannedAt(cfg, c', End(e)))
  {
    match e
    case Enqueue(now, order) =>
      RebalancedPlans(cfg, c.(pending := c.pending + [Slot(Accepted(cfg, c, order), now, now, Safe)]), now);
    case Dequeue(now, id) =>
      var current := if c.current.Some? && c.current.value.task.id == id then None else c.current;
      RebalancedPlans(cfg, c.(pending := Filter(NotTask(id), c.pending), current := current), now);
    case Rebalance(now) => RebalancedPlans(cfg, c, now);
    case StartNext(_, _, _, _) => StartPlans(cfg, c, e);
    case Complete(_, _, _, _, t1) => RebalancedPlans(cfg, c.(durations := c'.durations, current := None), t1);
    case Freeze(_, _) =>
    case Unfreeze(now) => RebalancedPlans(cfg, c.(frozen := None), now);
  }

  /** In every reachable state the task in service is expected to finish its duration after its recorded start. */
  lemma {:induction false} FinishIsPlanned(cfg: Config, es: seq<Event>)
    ensures FinishPlanned(Run(cfg, es))
  {
    if es != [] {
      FinishIsPlanned(cfg, es[..|es| - 1]);
      StepPlans(cfg, Run(cfg, es[..|es| - 1]), es[|es| - 1], Run(cfg, es));
    }
  }

  /**
   Every operation that has an effect leaves the pending tasks planned at its last clock reading:
   behind the task in service, if there is one, each after the ones before it, with a gap for each.
  */
  lemma PendingIsPlanned(cfg: Config, es: seq<Event>, e: Event, c: Channel, c': Channel)
    requires c == Run(cfg, es) && c' == Run(cfg, es + [e])
    ensures Acts(c, e, c') ==> PlannedAt(cfg, c', End(e))
    ensures !Acts(c, e, c') ==> c'.pending == c.pending && c'.current == c.current
  {
    assert (es + [e])[..|es|] == es;
    FinishIsPlanned(cfg, es);
    StepPlans(cfg, c, e, c');
  }

  // ----- what enqueueing answers

  /** The deadlines of the pending tasks are in order in every reachable state. */
  lemma PendingIsSorted(cfg: Config, es: seq<Event>)
    ensures Sorted(DeadlineOf, Tasks(Run(cfg, es).pending))
  {
    RunAgrees(cfg, es);
    SortSorted(DeadlineOf, Account(cfg, es).waiting);
  }

  lemma {:induction false} FirstIs(slots: seq<Slot>, id: string, k: nat)
    requires k < |slots| && slots[k].task.id == id
    requires forall i :: 0 <= i < k ==> slots[i].task.id != id
    ensures FirstWithId(slots, id) == k
  {
    if k > 0 { FirstIs(slots[1..], id, k - 1); }
  }

  /** `r` puts `x` behind the first `k` of the tasks `ts`, after all of which it is paid. */
  ghost predicate Describes(r: Receipt, cfg: Config, first: int, ts: seq<Task>, k: nat, x: Task)
    requires k <= |ts|
  {
    && r.position == k + 1
    && r.start == first + TotalDuration(ts[..k]) + k * cfg.minIntervalMs
    && r.finish == r.start + x.duration
    && Labels(r.risk, r.finish, x.deadline) && (r.isSafe <==> r.finish <= x.deadline)
  }

  /**
   The receipt of an accepted task describes the task itself: its place behind all tasks with a
   deadline not later than its own, the time it starts and finishes when they are all paid
   first, and whether that meets its deadline. A frozen or full channel refuses it unchanged.
  */
  lemma ReceiptIsExact(cfg: Config, es: seq<Event>, c: Channel, now: int, order: Order) returns (k: nat)
    requires c == Run(cfg, es) && forall i :: 0 <= i < |c.pending| ==> c.pending[i].task.id != order.id
    ensures var ts := Tasks(c.pending);
            var (r, c') := Enqueued(cfg, c, now, order);
            && (r.Err? <==> c.frozen.Some? || |c.pending| >= cfg.maxQueueSize) && (r.Err? ==> c' == c)
            && k <= |ts| && (forall i :: 0 <= i < |ts| ==> (i < k <==> ts[i].deadline <= order.deadline))
            && (r.Ok? ==> Describes(r.value, cfg, FirstStart(cfg, c, now), ts, k, Accepted(cfg, c, order)))
  {
    PendingIsSorted(cfg, es);
    FinishIsPlanned(cfg, es);
    k := ReceiptFrom(cfg, c, now, order);
  }

  function ReceiptOf(slots: seq<Slot>, k: nat): Receipt
    requires k < |slots|
  {
    Receipt(k + 1, slots[k].start, slots[k].finish, slots[k].risk != WillMiss, slots[k].risk)
  }

  lemma EnqueuedReceipt(cfg: Config, c: Channel, now: int, order: Order)
    requires Enqueued(cfg, c, now, order).0.Ok?
    ensures var (r, c') := Enqueued(cfg, c, now, order);
            var k := FirstWithId(c'.pending, order.id);
            k < |c'.pending| && r.value == ReceiptOf(c'.pending, k)
  {
    EnqueuedIsPending(cfg, c, now, order);
  }

  lemma ReceiptFrom(cfg: Config, c: Channel, now: int, order: Order) returns (k: nat)
    requires Sorted(DeadlineOf, Tasks(c.pending)) && FinishPlanned(c)
    requires forall i :: 0 <= i < |c.pending| ==> c.pending[i].task.id != order.id
    ensures var ts := Tasks(c.pending);
            var r := Enqueued(cfg, c, now, order).0;
            && k <= |ts| && (forall i :: 0 <= i < |ts| ==> (i < k <==> ts[i].deadline <= order.deadline))
            && (r.Ok? ==> Describes(r.value, cfg, FirstStart(cfg, c, now), ts, k, Accepted(cfg, c, order)))
  {
    var ts, x := Tasks(c.pending), Accepted(cfg, c, order);
    k := InsertPosition(ts, x);
    FirstIsFirst(cfg, c, now);
    if Enqueued(cfg, c, now, order).0.Ok? {
      EnqueuedPending(cfg, c, now, order, ts, x);
      EnqueuedReceipt(cfg, c, now, order);
      ReceiptAt(cfg, LastFinish(c, now), now, ts, k, x, Enqueued(cfg, c, now, order).1.pending);
    }
  }

  lemma ReceiptAt(cfg: Config, last: int, now: int, ts: seq<Task>, k: nat, x: Task, slots: seq<Slot>)
    requires k <= |ts| && forall i :: 0 <= i < |ts| ==> ts[i].id != x.id
    requires slots == Schedule(now, cfg.minIntervalMs, last, ts[..k] + ([x] + ts[k..]))
    ensures FirstWithId(slots, x.id) == k < |slots|
    ensures Describes(ReceiptOf(slots, k), cfg, Max(now, last + cfg.minIntervalMs), ts, k, x)
  {
    var q := ts[..k] + ([x] + ts[k..]);
    assert q[..k] == ts[..k] && q[k] == x;
    forall i | 0 <= i < k ensures slots[i].task.id != x.id {
      ScheduleAt(now, cfg.minIntervalMs, last, q, i);
      assert q[i] == ts[i];
    }
    ScheduleAt(now, cfg.minIntervalMs, last, q, k);
    FirstIs(slots, x.id, k);
  }

  /**
   What an accepted task does to the others, against a rebalance at the same time without it:
   those ahead of it keep their slots, those behind it are all later by its duration and one gap.
  */
  lemma EnqueueDelaysExactly(cfg: Config, es: seq<Event>, c: Channel, c': Channel, now: int, order: Order)
    returns (k: nat)
    requires c == Run(cfg, es) && Enqueued(cfg, c, now, order).0.Ok? && c' == Enqueued(cfg, c, now, order).1
    ensures var x := Accepted(cfg, c, order);
            && (forall i :: 0 <= i < |Tasks(c.pending)| ==> (i < k <==> Tasks(c.pending)[i].deadline <= x.deadline))
            && Inserted(Rebalanced(cfg, c, now).pending, c'.pending, k, x, x.duration + cfg.minIntervalMs)
  {
    PendingIsSorted(cfg, es);
    k := DelaysFrom(cfg, c, c', now, order, Tasks(c.pending));
  }

  lemma DelaysFrom(cfg: Config, c: Channel, c': Channel, now: int, order: Order, ts: seq<Task>) returns (k: nat)
    requires ts == Tasks(c.pending) && Sorted(DeadlineOf, ts)
    requires Enqueued(cfg, c, now, order).0.Ok? && c' == Enqueued(cfg, c, now, order).1
    ensures var x := Accepted(cfg, c, order);
            && (forall i :: 0 <= i < |ts| ==> (i < k <==> ts[i].deadline <= x.deadline))
            && Inserted(Rebalanced(cfg, c, now).pending, c'.pending, k, x, x.duration + cfg.minIntervalMs)
  {
    var x, before := Accepted(cfg, c, order), Rebalanced(cfg, c, now).pending;
    EnqueuedPending(cfg, c, now, order, ts, x);
    k := InsertedFrom(now, cfg.minIntervalMs, LastFinish(c, now), ts, x, before, c'.pending);
  }

  lemma InsertedFrom(now: int, gap: nat, last: int, ts: seq<Task>, x: Task, before: seq<Slot>, after: seq<Slot>)
    returns (k: nat)
    requires Sorted(DeadlineOf, ts) && before == Schedule(now, gap, last, Sort(DeadlineOf, ts))
    requires after == Schedule(now, gap, last, Sort(DeadlineOf, ts + [x]))
    ensures forall i :: 0 <= i < |ts| ==> (i < k <==> ts[i].deadline <= x.deadline)
    ensures Inserted(before, after, k, x, x.duration + gap)
  {
    SortOfSorted(DeadlineOf, ts);
    k := InsertionEffect(now, gap, last, ts, x);
  }

  lemma EnqueuedPending(cfg: Config, c: Channel, now: int, order: Order, ts: seq<Task>, x: Task)
    requires Enqueued(cfg, c, now, order).0.Ok? && ts == Tasks(c.pending) && x == Accepted(cfg, c, order)
    ensures Enqueued(cfg, c, now, order).1.pending
            == Schedule(now, cfg.minIntervalMs, LastFinish(c, now), Sort(DeadlineOf, ts + [x]))
  {
    assert Tasks(c.pending + [Slot(x, now, now, Safe)]) == ts + [x];
  }

  // ----- what the channel's risk labels are worth

  /** The slots of the tasks in the order `p`, behind the task in service. */
  function PlanOf(cfg: Config, c: Channel, now: int, p: seq<Task>): seq<Slot> {
    Schedule(now, cfg.minIntervalMs, FirstStart(cfg, c, now) - cfg.minIntervalMs, p)
  }

  lemma SamePlan(cfg: Config, c: Channel, now: int, p: seq<Task>)
    requires FinishPlanned(c)
    ensures Schedule(now, cfg.minIntervalMs, LastFinish(c, now), p) == PlanOf(cfg, c, now, p)
  {
    FirstIsFirst(cfg, c, now);
  }

  /**
   In every reachable state: if any order of the waiting tasks meets every deadline, `rebalance`
   labels none `WillMiss`, and it meets every bound on lateness that any order meets.
  */
  lemma RebalanceIsOptimal(cfg: Config, es: seq<Event>, c: Channel, now: int, p: seq<Task>)
    requires c == Run(cfg, es) && multiset(p) == multiset(Tasks(c.pending))
    ensures NoneMissed(PlanOf(cfg, c, now, p)) ==> NoneMissed(Rebalanced(cfg, c, now).pending)
    ensures forall late :: LateByAtMost(PlanOf(cfg, c, now, p), late)
                           ==> LateByAtMost(Rebalanced(cfg, c, now).pending, late)
  {
    FinishIsPlanned(cfg, es);
    OptimalFrom(cfg, c, now, p);
  }

  lemma OptimalFrom(cfg: Config, c: Channel, now: int, p: seq<Task>)
    requires FinishPlanned(c) && multiset(p) == multiset(Tasks(c.pending))
    ensures NoneMissed(PlanOf(cfg, c, now, p)) ==> NoneMissed(Rebalanced(cfg, c, now).pending)
    ensures forall late :: LateByAtMost(PlanOf(cfg, c, now, p), late)
                           ==> LateByAtMost(Rebalanced(cfg, c, now).pending, late)
  {
    var ts, last := Tasks(c.pending), LastFinish(c, now);
    SamePlan(cfg, c, now, p);
    SortSorted(DeadlineOf, ts);
    SortPermutes(DeadlineOf, ts);
    if NoneMissed(PlanOf(cfg, c, now, p)) {
      EdfMissesNoneIfPossible(now, cfg.minIntervalMs, last, ts, p);
    }
    forall late | LateByAtMost(PlanOf(cfg, c, now, p), late)
      ensures LateByAtMost(Rebalanced(cfg, c, now).pending, late)
    {
      SortedIsNoLater(now, cfg.minIntervalMs, last, Sort(DeadlineOf, ts), p, late);
    }
  }
}
