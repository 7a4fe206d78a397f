/**
 Whole runs of a payment channel: every sequence of operations from a fresh channel.
 `Books` is an independent reference, which keeps the waiting tasks in arrival order, never
 sorts tasks, and remembers what became of every accepted task and every duration ever recorded.
*/
module ChannelRuns {
  import opened Wrappers
  import opened StableSort
  import opened Edf
  import opened PaymentChannels

  datatype Event =
    | Enqueue(now: int, order: Order)
    | Dequeue(now: int, id: string)
    | Rebalance(now: int)
    | StartNext(forceNow: bool, t0: int, t1: int, t2: int)
    | Complete(id: string, ok: bool, durationMs: Option<nat>, t0: int, t1: int)
    | Freeze(at: int, reason: string)
    | Unfreeze(now: int)

  function Step(cfg: Config, c: Channel, e: Event): Channel {
    match e
    case Enqueue(now, order) => Enqueued(cfg, c, now, order).1
    case Dequeue(now, id) => Dequeued(cfg, c, now, id)
    case Rebalance(now) => Rebalanced(cfg, c, now)
    case StartNext(forceNow, t0, t1, t2) => Started(cfg, c, forceNow, t0, t1, t2)
    case Complete(id, ok, durationMs, t0, t1) => Completed(cfg, c, id, ok, durationMs, t0, t1)
    case Freeze(_, reason) => c.(frozen := Some(reason))
    case Unfreeze(now) => Unfrozen(cfg, c, now)
  }

  function Run(cfg: Config, es: seq<Event>): Channel {
    if es == [] then Fresh() else Step(cfg, Run(cfg, es[..|es| - 1]), es[|es| - 1])
  }

  // ----- the reference

  datatype Books = Books(
    waiting: seq<Task>,
    serving: Option<Task>,
    accepted: multiset<Task>,
    completed: multiset<Task>,
    dequeued: multiset<Task>,
    successes: seq<nat>)

  function LastUpTo(s: seq<nat>, n: nat): seq<nat> {
    if |s| <= n then s else s[|s| - n..]
  }

  function TaskIs(id: string): Task -> bool { (t: Task) => t.id == id }

  function TaskIsNot(id: string): Task -> bool { (t: Task) => t.id != id }

  function Bag(t: Option<Task>): multiset<Task> {
    if t.Some? then multiset{t.value} else multiset{}
  }

  /** Every task with the id counts as dequeued, the one being served too. */
  function WithoutId(b: Books, id: string): Books {
    var served := b.serving.Some? && b.serving.value.id == id;
    b.(waiting := Filter(TaskIsNot(id), b.waiting),
       serving := if served then None else b.serving,
       dequeued := b.dequeued + multiset(Filter(TaskIs(id), b.waiting)) + if served then Bag(b.serving) else multiset{})
  }

  /** The time a payment took: as reported, or else since its recorded start, if that has come. */
  function SampleOf(reported: Option<nat>, now: int, startedAt: int): nat {
    if reported.Some? then reported.value else if now <= startedAt then 0 else now - startedAt
  }

  /** `frozen` and `startedAt` are read off the channel; everything else is kept here. */
  function Note(cfg: Config, b: Books, e: Event, frozen: bool, startedAt: int): Books {
    match e
    case Enqueue(now, order) =>
      if frozen || |b.waiting| >= cfg.maxQueueSize then b
      else
        var estimate := EstimateMs(cfg, LastUpTo(b.successes, WINDOW));
        var x := Task(order.id, order.deadline, if order.duration.Some? then order.duration.value else estimate);
        b.(waiting := b.waiting + [x], accepted := b.accepted + multiset{x})
    case Dequeue(now, id) => WithoutId(b, id)
    case StartNext(_, _, _, _) =>
      if frozen || b.serving.Some? || b.waiting == [] then b
      else
        var k := EarliestIndex(DeadlineOf, b.waiting);
        b.(serving := Some(b.waiting[k]), waiting := RemoveAt(b.waiting, k))
    case Complete(id, ok, durationMs, t0, _) =>
      if b.serving.None? || b.serving.value.id != id then b
      else
        var d := SampleOf(durationMs, t0, startedAt);
        b.(serving := None, completed := b.completed + Bag(b.serving),
           successes := if ok then b.successes + [d] else b.successes)
    case Rebalance(_) => b
    case Freeze(_, _) => b
    case Unfreeze(_) => b
  }

  function StartOf(c: Channel): int {
    if c.current.Some? then c.current.value.startedAt else 0
  }

  function Account(cfg: Config, es: seq<Event>): Books {
    if es == [] then Books([], None, multiset{}, multiset{}, multiset{}, [])
    else
      var before := Run(cfg, es[..|es| - 1]);
      Note(cfg, Account(cfg, es[..|es| - 1]), es[|es| - 1], before.frozen.Some?, StartOf(before))
  }

  ghost predicate Agree(cfg: Config, b: Books, c: Channel) {
    && Tasks(c.pending) == Sort(DeadlineOf, b.waiting)
    && b.serving == (if c.current.Some? then Some(c.current.value.task) else None)
    && c.durations == LastUpTo(b.successes, 50)
    && b.accepted == multiset(b.waiting) + Bag(b.serving) + b.completed + b.dequeued
    && |b.waiting| <= Max(0, cfg.maxQueueSize)
  }

  lemma RebalancedTasks(cfg: Config, c: Channel, now: int)
    ensures Tasks(Rebalanced(cfg, c, now).pending) == Sort(DeadlineOf, Tasks(c.pending))
  {
    var ts := Sort(DeadlineOf, Tasks(c.pending));
    var slots := Rebalanced(cfg, c, now).pending;
    forall i | 0 <= i < |ts| ensures Tasks(slots)[i] == ts[i] {
      ScheduleAt(now, cfg.minIntervalMs, LastFinish(c, now), ts, i);
    }
  }

  lemma SortTwice(ts: seq<Task>)
    ensures Sort(DeadlineOf, Sort(DeadlineOf, ts)) == Sort(DeadlineOf, ts)
  {
    SortSorted(DeadlineOf, ts);
    SortOfSorted(DeadlineOf, Sort(DeadlineOf, ts));
  }

  lemma {:induction false} FilterTasks(id: string, slots: seq<Slot>)
    ensures Tasks(Filter(NotTask(id), slots)) == Filter(TaskIsNot(id), Tasks(slots))
  {
    if slots != [] {
      FilterTasks(id, slots[1..]);
      assert Tasks(slots)[1..] == Tasks(slots[1..]);
    }
  }

  lemma {:induction false} FilterSplits(id: string, ts: seq<Task>)
    ensures multiset(ts) == multiset(Filter(TaskIs(id), ts)) + multiset(Filter(TaskIsNot(id), ts))
  {
    if ts != [] {
      FilterSplits(id, ts[1..]);
      SplitFirst(ts);
    }
  }

  // What each operation does to the queue, the task in service and the window, estimates aside.

  lemma EnqueuedTasks(cfg: Config, c: Channel, now: int, order: Order)
    requires c.frozen.None? && |c.pending| < cfg.maxQueueSize
    ensures var c' := Enqueued(cfg, c, now, order).1;
            && Tasks(c'.pending) == Sort(DeadlineOf, Tasks(c.pending) + [Accepted(cfg, c, order)])
            && c'.current == c.current && c'.durations == c.durations && c'.frozen == c.frozen
  {
    var added := c.(pending := c.pending + [Slot(Accepted(cfg, c, order), now, now, Safe)]);
    RebalancedTasks(cfg, added, now);
    assert Tasks(added.pending) == Tasks(c.pending) + [Accepted(cfg, c, order)];
  }

  lemma DequeuedTasks(cfg: Config, c: Channel, now: int, id: string)
    ensures var c' := Dequeued(cfg, c, now, id);
            && Tasks(c'.pending) == Sort(DeadlineOf, Filter(TaskIsNot(id), Tasks(c.pending)))
            && c'.current == (if c.current.Some? && c.current.value.task.id == id then None else c.current)
            && c'.durations == c.durations && c'.frozen == c.frozen
  {
    FilterTasks(id, c.pending);
    var current := if c.current.Some? && c.current.value.task.id == id then None else c.current;
    RebalancedTasks(cfg, c.(pending := Filter(NotTask(id), c.pending), current := current), now);
  }

  lemma StartedTasks(cfg: Config, c: Channel, forceNow: bool, t0: int, t1: int, t2: int)
    requires c.frozen.None? && c.current.None? && c.pending != []
    ensures var c' := Started(cfg, c, forceNow, t0, t1, t2);
            var ts := Sort(DeadlineOf, Tasks(c.pending));
            && Tasks(c'.pending) == Sort(DeadlineOf, ts[1..])
            && c'.current.Some? && c'.current.value.task == ts[0]
            && c'.current.value.startedAt == (if forceNow then t1 else Max(t1, t0 + cfg.minIntervalMs))
            && c'.durations == c.durations && c'.frozen == c.frozen
  {
    var r := Rebalanced(cfg, c, t0);
    RebalancedTasks(cfg, c, t0);
    ScheduleAt(t0, cfg.minIntervalMs, LastFinish(c, t0), Sort(DeadlineOf, Tasks(c.pending)), 0);
    ServedTasks(r, forceNow, t1);
    RebalancedTasks(cfg, HeadServed(r, forceNow, t1), t2);
  }

  lemma ServedTasks(c: Channel, forceNow: bool, now: int)
    requires c.pending != []
    ensures Tasks(HeadServed(c, forceNow, now).pending) == Tasks(c.pending)[1..]
  {
  }

  lemma CompletedTasks(cfg: Config, c: Channel, id: string, ok: bool, durationMs: Option<nat>, t0: int, t1: int)
    requires c.current.Some? && c.current.value.task.id == id
    ensures var c' := Completed(cfg, c, id, ok, durationMs, t0, t1);
            var ds := if ok then c.durations + [RecordedMs(durationMs, t0, StartOf(c))] else c.durations;
            && Tasks(c'.pending) == Sort(DeadlineOf, Tasks(c.pending))
            && c'.current == None && c'.durations == Trimmed(ds) && c'.frozen == c.frozen
  {
    var after := Completed(cfg, c, id, ok, durationMs, t0, t1);
    RebalancedTasks(cfg, c.(durations := after.durations, current := None), t1);
  }

  lemma AgreeEnqueue(cfg: Config, b: Books, c: Channel, c': Channel, x: Task)
    requires Agree(cfg, b, c) && |c.pending| < cfg.maxQueueSize
    requires Tasks(c'.pending) == Sort(DeadlineOf, Tasks(c.pending) + [x])
    requires c'.current == c.current && c'.durations == c.durations
    ensures Agree(cfg, b.(waiting := b.waiting + [x], accepted := b.accepted + multiset{x}), c')
  {
    SortOfLonger(b.waiting, x);
    CountsOneMore(b.waiting, x, b.serving, b.completed, b.dequeued);
  }

  lemma SortOfLonger(ts: seq<Task>, x: Task)
    ensures Sort(DeadlineOf, Sort(DeadlineOf, ts) + [x]) == Sort(DeadlineOf, ts + [x])
  {
    SortTwice(ts);
    SortAppend(DeadlineOf, Sort(DeadlineOf, ts), x);
    SortAppend(DeadlineOf, ts, x);
  }

  lemma CountsOneMore(
    ts: seq<Task>, x: Task, serving: Option<Task>, completed: multiset<Task>, dequeued: multiset<Task>)
    ensures multiset(ts + [x]) + Bag(serving) + completed + dequeued
            == multiset(ts) + Bag(serving) + completed + dequeued + multiset{x}
  {
  }

  lemma AgreeDequeue(cfg: Config, b: Books, c: Channel, c': Channel, id: string)
    requires Agree(cfg, b, c)
    requires Tasks(c'.pending) == Sort(DeadlineOf, Filter(TaskIsNot(id), Tasks(c.pending)))
    requires c'.current == (if c.current.Some? && c.current.value.task.id == id then None else c.current)
    requires c'.durations == c.durations
    ensures Agree(cfg, WithoutId(b, id), c')
  {
    FilterSort(DeadlineOf, TaskIsNot(id), b.waiting);
    SortTwice(Filter(TaskIsNot(id), b.waiting));
    FilterSplits(id, b.waiting);
    FilterMembers(TaskIsNot(id), b.waiting);
  }

  lemma AgreeStart(cfg: Config, b: Books, c: Channel, c': Channel, k: nat)
    requires Agree(cfg, b, c) && c.current.None? && b.waiting != [] && k == EarliestIndex(DeadlineOf, b.waiting)
    requires Tasks(c'.pending) == Sort(DeadlineOf, Sort(DeadlineOf, Tasks(c.pending))[1..])
    requires c'.current.Some? && c'.current.value.task == Sort(DeadlineOf, Tasks(c.pending))[0]
    requires c'.durations == c.durations
    ensures Agree(cfg, b.(serving := Some(b.waiting[k]), waiting := RemoveAt(b.waiting, k)), c')
  {
    SortTwice(b.waiting);
    SortTakesEarliest(DeadlineOf, b.waiting);
    SortTwice(RemoveAt(b.waiting, k));
    TakenToServed(b.waiting, k, b.completed, b.dequeued);
  }

  lemma TakenToServed(ts: seq<Task>, k: nat, completed: multiset<Task>, dequeued: multiset<Task>)
    requires k < |ts|
    ensures multiset(ts) + Bag(None) + completed + dequeued
            == multiset(RemoveAt(ts, k)) + Bag(Some(ts[k])) + completed + dequeued
  {
    RemoveCounts(ts, k);
  }

  lemma AgreeComplete(cfg: Config, b: Books, c: Channel, c': Channel, successes: seq<nat>)
    requires Agree(cfg, b, c)
    requires Tasks(c'.pending) == Sort(DeadlineOf, Tasks(c.pending)) && c'.current == None
    requires c'.durations == LastUpTo(successes, WINDOW)
    ensures Agree(cfg, b.(serving := None, completed := b.completed + Bag(b.serving), successes := successes), c')
  {
    SortTwice(b.waiting);
    ServedToCompleted(multiset(b.waiting), b.serving, b.completed, b.dequeued);
  }

  lemma WindowSlides(s: seq<nat>, d: nat)
    ensures Trimmed(LastUpTo(s, WINDOW) + [d]) == LastUpTo(s + [d], WINDOW)
    ensures Trimmed(LastUpTo(s, WINDOW)) == LastUpTo(s, WINDOW)
  {
  }

  lemma ServedToCompleted(
    waiting: multiset<Task>, serving: Option<Task>, completed: multiset<Task>, dequeued: multiset<Task>)
    ensures waiting + Bag(serving) + completed + dequeued == waiting + Bag(None) + (completed + Bag(serving)) + dequeued
  {
  }

  lemma StepEnqueue(cfg: Config, b: Books, c: Channel, e: Event)
    requires Agree(cfg, b, c) && e.Enqueue?
    ensures Agree(cfg, Note(cfg, b, e, c.frozen.Some?, StartOf(c)), Step(cfg, c, e))
  {
    if c.frozen.None? && |c.pending| < cfg.maxQueueSize {
      EnqueuedTasks(cfg, c, e.now, e.order);
      AgreeEnqueue(cfg, b, c, Enqueued(cfg, c, e.now, e.order).1, Accepted(cfg, c, e.order));
    }
  }

  lemma StepDequeue(cfg: Config, b: Books, c: Channel, e: Event)
    requires Agree(cfg, b, c) && e.Dequeue?
    ensures Agree(cfg, Note(cfg, b, e, c.frozen.Some?, StartOf(c)), Step(cfg, c, e))
  {
    DequeuedTasks(cfg, c, e.now, e.id);
    AgreeDequeue(cfg, b, c, Dequeued(cfg, c, e.now, e.id), e.id);
  }

  lemma StepStart(cfg: Config, b: Books, c: Channel, e: Event)
    requires Agree(cfg, b, c) && e.StartNext?
    ensures Agree(cfg, Note(cfg, b, e, c.frozen.Some?, StartOf(c)), Step(cfg, c, e))
  {
    if c.frozen.None? && c.current.None? && c.pending != [] {
      StartedTasks(cfg, c, e.forceNow, e.t0, e.t1, e.t2);
      AgreeStart(cfg, b, c, Started(cfg, c, e.forceNow, e.t0, e.t1, e.t2), EarliestIndex(DeadlineOf, b.waiting));
    }
  }

  lemma StepComplete(cfg: Config, b: Books, c: Channel, e: Event)
    requires Agree(cfg, b, c) && e.Complete?
    ensures Agree(cfg, Note(cfg, b, e, c.frozen.Some?, StartOf(c)), Step(cfg, c, e))
  {
    if c.current.Some? && c.current.value.task.id == e.id {
      var d := SampleOf(e.durationMs, e.t0, StartOf(c));
      assert d == RecordedMs(e.durationMs, e.t0, StartOf(c));
      CompletedTasks(cfg, c, e.id, e.ok, e.durationMs, e.t0, e.t1);
      WindowSlides(b.successes, d);
      AgreeComplete(cfg, b, c, Completed(cfg, c, e.id, e.ok, e.durationMs, e.t0, e.t1),
                    if e.ok then b.successes + [d] else b.successes);
    }
  }

  lemma StepRebalance(cfg: Config, b: Books, c: Channel, e: Event)
    requires Agree(cfg, b, c) && (e.Rebalance? || e.Unfreeze? || e.Freeze?)
    ensures Agree(cfg, Note(cfg, b, e, c.frozen.Some?, StartOf(c)), Step(cfg, c, e))
  {
    SortTwice(b.waiting);
    if e.Rebalance? { RebalancedTasks(cfg, c, e.now); }
    if e.Unfreeze? { RebalancedTasks(cfg, c.(frozen := None), e.now); }
  }

  lemma AgreeStep(cfg: Config, b: Books, c: Channel, e: Event)
    requires Agree(cfg, b, c)
    ensures Agree(cfg, Note(cfg, b, e, c.frozen.Some?, StartOf(c)), Step(cfg, c, e))
  {
    if e.Enqueue? {
      StepEnqueue(cfg, b, c, e);
    } else if e.Dequeue? {
      StepDequeue(cfg, b, c, e);
    } else if e.StartNext? {
      StepStart(cfg, b, c, e);
    } else if e.Complete? {
      StepComplete(cfg, b, c, e);
    } else {
      StepRebalance(cfg, b, c, e);
    }
  }

  /**
   After any run the channel agrees with the reference: it holds the waiting tasks in stable
   deadline order, serves the task the reference serves (the earliest deadline, oldest first),
   every accepted task is in exactly one of waiting, served, completed or dequeued, the queue
   is within its bound, and `durations` is the window of the last successes.
  */
  lemma {:induction false} RunAgrees(cfg: Config, es: seq<Event>)
    ensures Agree(cfg, Account(cfg, es), Run(cfg, es))
  {
    if es != [] {
      RunAgrees(cfg, es[..|es| - 1]);
      AgreeStep(cfg, Account(cfg, es[..|es| - 1]), Run(cfg, es[..|es| - 1]), es[|es| - 1]);
    }
  }

  // ----- time

  function Begin(e: Event): int {
    match e
    case Enqueue(now, _) => now
    case Dequeue(now, _) => now
    case Rebalance(now) => now
    case StartNext(_, t0, _, _) => t0
    case Complete(_, _, _, t0, _) => t0
    case Freeze(at, _) => at
    case Unfreeze(now) => now
  }

  function End(e: Event): int {
    match e
    case StartNext(_, _, _, t2) => t2
    case Complete(_, _, _, _, t1) => t1
    case _ => Begin(e)
  }

  /** A clock that never goes back, within an operation and from one to the next. */
  ghost predicate Chronological(es: seq<Event>) {
    && (forall i :: 0 <= i < |es| ==> Begin(es[i]) <= End(es[i]))
    && (forall i :: 0 <= i < |es| && es[i].StartNext? ==> es[i].t0 <= es[i].t1 <= es[i].t2)
    && (forall i, j :: 0 <= i < j < |es| ==> End(es[i]) <= Begin(es[j]))
  }

  /** Whether a task is in service after the first `i` operations. */
  ghost predicate Busy(cfg: Config, es: seq<Event>, i: nat)
    requires i <= |es|
  {
    Run(cfg, es[..i]).current.Some?
  }

  /** Operation `i` of the run puts a task in service. */
  ghost predicate Starts(cfg: Config, es: seq<Event>, i: nat) {
    i < |es| && !Busy(cfg, es, i) && Busy(cfg, es, i + 1)
  }

  /** Operation `i` of the run frees the channel. */
  ghost predicate Frees(cfg: Config, es: seq<Event>, i: nat) {
    i < |es| && Busy(cfg, es, i) && !Busy(cfg, es, i + 1)
  }

  function StartedAt(cfg: Config, es: seq<Event>, i: nat): int
    requires i < |es|
  {
    StartOf(Run(cfg, es[..i + 1]))
  }

  lemma RunStep(cfg: Config, es: seq<Event>, i: nat)
    requires i < |es|
    ensures Run(cfg, es[..i + 1]) == Step(cfg, Run(cfg, es[..i]), es[i])
  {
    assert es[..i + 1][..i] == es[..i];
  }

  /** Only an unfrozen `StartNext` puts a task in service, and this is the start it records. */
  lemma StartIsRecorded(cfg: Config, es: seq<Event>, i: nat)
    requires Starts(cfg, es, i)
    ensures es[i].StartNext? && Run(cfg, es[..i]).frozen.None?
    ensures StartedAt(cfg, es, i) == if es[i].forceNow then es[i].t1 else Max(es[i].t1, es[i].t0 + cfg.minIntervalMs)
  {
    var c := Run(cfg, es[..i]);
    RunStep(cfg, es, i);
    OnlyStartNextServes(cfg, c, es[i]);
    if c.frozen.None? && c.pending != [] {
      StartedTasks(cfg, c, es[i].forceNow, es[i].t0, es[i].t1, es[i].t2);
    }
  }

  lemma OnlyStartNextServes(cfg: Config, c: Channel, e: Event)
    requires c.current.None? && Step(cfg, c, e).current.Some?
    ensures e.StartNext? && c.frozen.None? && c.pending != []
  {
  }

  /** An unforced start is recorded at least the gap after every earlier operation. */
  lemma StartKeepsGapFrom(cfg: Config, es: seq<Event>, i: nat, j: nat)
    requires Chronological(es) && i < j && Starts(cfg, es, j) && !(es[j].StartNext? && es[j].forceNow)
    ensures StartedAt(cfg, es, j) >= End(es[i]) + cfg.minIntervalMs
  {
    StartIsRecorded(cfg, es, j);
  }

  /** Between two starts the channel was freed: at most one task is in service at a time. */
  lemma FreedBetween(cfg: Config, es: seq<Event>, i: nat, j: nat) returns (k: nat)
    requires i < j <= |es| && Busy(cfg, es, i) && !Busy(cfg, es, j)
    ensures i <= k < j && Frees(cfg, es, k)
    decreases j - i
  {
    if Busy(cfg, es, i + 1) {
      k := FreedBetween(cfg, es, i + 1, j);
    } else {
      k := i;
    }
  }

  /**
   If nothing frees the channel before the recorded start of the task it serves, the next
   unforced start is recorded at least the gap after it.
  */
  lemma StartsAreSpaced(cfg: Config, es: seq<Event>, i: nat, j: nat)
    requires Chronological(es) && i < j && Starts(cfg, es, i) && Starts(cfg, es, j)
    requires es[j].StartNext? ==> !es[j].forceNow
    requires forall k {:trigger Frees(cfg, es, k)} ::
               i < k < j && Frees(cfg, es, k) ==> StartedAt(cfg, es, i) <= End(es[k])
    ensures StartedAt(cfg, es, j) >= StartedAt(cfg, es, i) + cfg.minIntervalMs
  {
    var k := FreedBetween(cfg, es, i + 1, j);
    StartKeepsGapFrom(cfg, es, k, j);
  }

  /** Exactly when two recorded starts keep the gap, in terms of the clock at the second call. */
  lemma SpacingExactly(cfg: Config, es: seq<Event>, i: nat, j: nat)
    requires i < j && Starts(cfg, es, i) && Starts(cfg, es, j)
    requires es[j].StartNext? ==> !es[j].forceNow
    ensures es[j].StartNext?
    ensures StartedAt(cfg, es, j) >= StartedAt(cfg, es, i) + cfg.minIntervalMs
            <==> StartedAt(cfg, es, i) <= es[j].t0 || StartedAt(cfg, es, i) + cfg.minIntervalMs <= es[j].t1
  {
    StartIsRecorded(cfg, es, j);
  }

  /** Two payments, the first reported complete at `t`, and the second started at once. */
  ghost predicate EarlyRun(es: seq<Event>, a: Order, b: Order, t: int) {
    && |es| == 5
    && es[0] == Enqueue(0, a) && es[1] == Enqueue(0, b)
    && es[2] == StartNext(false, 0, 0, 0)
    && es[3] == Complete(a.id, true, None, t, t)
    && es[4] == StartNext(false, t, t, t)
  }

  /**
   A completion reported before the recorded start breaks the promised spacing: the two
   recorded starts of `EarlyRun` are only `t` apart, for every `t` below the gap.
  */
  lemma EarlyCompletionBreaksSpacing(cfg: Config, es: seq<Event>, a: Order, b: Order, t: nat)
    requires cfg.maxQueueSize >= 2 && t < cfg.minIntervalMs && a.deadline == b.deadline
    requires EarlyRun(es, a, b, t)
    ensures Chronological(es) && Starts(cfg, es, 2) && Starts(cfg, es, 4)
    ensures StartedAt(cfg, es, 2) == cfg.minIntervalMs && StartedAt(cfg, es, 4) == cfg.minIntervalMs + t
  {
    EarlyRunIsChronological(es, a, b, t);
    RunOfFive(cfg, es);
    EarlyRunStates(cfg, a, b, t, Run(cfg, es[..1]), Run(cfg, es[..2]), Run(cfg, es[..3]), Run(cfg, es[..4]),
                   Run(cfg, es[..5]));
  }

  lemma EarlyRunIsChronological(es: seq<Event>, a: Order, b: Order, t: nat)
    requires EarlyRun(es, a, b, t)
    ensures Chronological(es)
  {
  }

  lemma RunOfFive(cfg: Config, es: seq<Event>)
    requires |es| == 5
    ensures Run(cfg, es[..1]) == Step(cfg, Fresh(), es[0])
    ensures Run(cfg, es[..2]) == Step(cfg, Run(cfg, es[..1]), es[1])
    ensures Run(cfg, es[..3]) == Step(cfg, Run(cfg, es[..2]), es[2])
    ensures Run(cfg, es[..4]) == Step(cfg, Run(cfg, es[..3]), es[3])
    ensures Run(cfg, es[..5]) == Step(cfg, Run(cfg, es[..4]), es[4])
  {
    assert es[..0] == [];
    RunStep(cfg, es, 0);
    RunStep(cfg, es, 1);
    RunStep(cfg, es, 2);
    RunStep(cfg, es, 3);
    RunStep(cfg, es, 4);
  }

  lemma EarlyRunStates(
    cfg: Config, a: Order, b: Order, t: nat, c1: Channel, c2: Channel, c3: Channel, c4: Channel, c5: Channel)
    requires cfg.maxQueueSize >= 2 && a.deadline == b.deadline
    requires c1 == Enqueued(cfg, Fresh(), 0, a).1 && c2 == Enqueued(cfg, c1, 0, b).1
    requires c3 == Started(cfg, c2, false, 0, 0, 0) && c4 == Completed(cfg, c3, a.id, true, None, t, t)
    requires c5 == Started(cfg, c4, false, t, t, t)
    ensures c2.current.None? && c3.current.Some? && c3.current.value.startedAt == cfg.minIntervalMs
    ensures c4.current.None? && c5.current.Some? && c5.current.value.startedAt == cfg.minIntervalMs + t
  {
    var ta, tb := Accepted(cfg, Fresh(), a), Accepted(cfg, c1, b);
    SortOfTwo(ta, tb);
    EnqueuedTasks(cfg, Fresh(), 0, a);
    assert Tasks(c1.pending) == [ta];
    EnqueuedTasks(cfg, c1, 0, b);
    assert Tasks(c2.pending) == [ta, tb];
    StartedTasks(cfg, c2, false, 0, 0, 0);
    assert Tasks(c3.pending) == [tb];
    CompletedTasks(cfg, c3, a.id, true, None, t, t);
    StartedTasks(cfg, c4, false, t, t, t);
  }

  lemma SortOfTwo(a: Task, b: Task)
    requires a.deadline == b.deadline
    ensures Sort(DeadlineOf, [a]) == [a] && Sort(DeadlineOf, [b]) == [b] && Sort(DeadlineOf, [a, b]) == [a, b]
  {
    SortOfSorted(DeadlineOf, [a]);
    SortOfSorted(DeadlineOf, [b]);
    SortOfSorted(DeadlineOf, [a, b]);
  }

  // ----- freezing

  /** The reason of the last freeze, if no unfreeze came after it. */
  function LastFreeze(es: seq<Event>): Option<string> {
    if es == [] then None
    else
      match es[|es| - 1]
      case Freeze(_, reason) => Some(reason)
      case Unfreeze(_) => None
      case _ => LastFreeze(es[..|es| - 1])
  }

  lemma FreezeNext(cfg: Config, c: Channel, e: Event, c': Channel)
    requires c' == Step(cfg, c, e)
    ensures c'.frozen == if e.Freeze? then Some(e.reason) else if e.Unfreeze? then None else c.frozen
  {
  }

  /** A channel is frozen, for that reason, exactly from the last freeze on until it is lifted. */
  lemma {:induction false} FrozenExactly(cfg: Config, es: seq<Event>)
    ensures Run(cfg, es).frozen == LastFreeze(es)
  {
    if es != [] {
      FrozenExactly(cfg, es[..|es| - 1]);
      FreezeNext(cfg, Run(cfg, es[..|es| - 1]), es[|es| - 1], Run(cfg, es));
    }
  }

  /** Only `Unfreeze` lifts a freeze. */
  lemma {:induction false} FrozenUntil(cfg: Config, es: seq<Event>, i: nat, j: nat)
    requires i < j <= |es| && es[i].Freeze?
    requires forall k :: i < k < j ==> !es[k].Unfreeze?
    ensures Run(cfg, es[..j]).frozen.Some?
    decreases j
  {
    RunStep(cfg, es, j - 1);
    if i + 1 < j { FrozenUntil(cfg, es, i, j - 1); }
    FrozenStep(cfg, Run(cfg, es[..j - 1]), es[j - 1], Run(cfg, es[..j]));
  }

  /** While a channel is frozen no operation puts a task in service. */
  lemma FrozenStartsNothing(cfg: Config, es: seq<Event>, i: nat, j: nat)
    requires i < j <= |es| && es[i].Freeze?
    requires forall k :: i < k < j ==> !es[k].Unfreeze?
    ensures forall k :: i < k < j ==> !Starts(cfg, es, k)
  {
    forall k | i < k < j ensures !Starts(cfg, es, k) {
      FrozenUntil(cfg, es, i, k);
      if Starts(cfg, es, k) { StartIsRecorded(cfg, es, k); }
    }
  }

  lemma FrozenStep(cfg: Config, c: Channel, e: Event, c': Channel)
    requires e.Freeze? || (c.frozen.Some? && !e.Unfreeze?)
    requires c' == Step(cfg, c, e)
    ensures c'.frozen.Some?
  {
  }

  // ----- the duration estimate

  function AtMost(m: nat): nat -> bool { (x: nat) => x <= m }

  function AtLeast(m: nat): nat -> bool { (x: nat) => m <= x }

  /** The upper median: a recorded duration with more than half of them at most it, and half or more at least it. */
  ghost predicate IsMedian(m: nat, ds: seq<nat>) {
    m in ds && |Filter(AtMost(m), ds)| > |ds| / 2 && |Filter(AtLeast(m), ds)| >= |ds| - |ds| / 2
  }

  lemma {:induction false} SplitCounts(ds: seq<nat>, m: nat, n: nat)
    requires m < n
    ensures |Filter(AtMost(m), ds)| + |Filter(AtLeast(n), ds)| <= |ds|
  {
    if ds != [] { SplitCounts(ds[1..], m, n); }
  }

  /** There is only one. */
  lemma MedianIsUnique(ds: seq<nat>, m: nat, n: nat)
    requires IsMedian(m, ds) && IsMedian(n, ds)
    ensures m == n
  {
    if m < n { SplitCounts(ds, m, n); }
    if n < m { SplitCounts(ds, n, m); }
  }

  lemma EstimateIsMedian(cfg: Config, ds: seq<nat>)
    requires |ds| >= 5
    ensures IsMedian(EstimateMs(cfg, ds), ds)
  {
    var t := Sort(Self, ds);
    SortSorted(Self, ds);
    var m := t[|t| / 2];
    assert m in ds by {
      SortPermutes(Self, ds);
      assert m in multiset(t);
    }
    LowHalf(t, |t| / 2);
    HighHalf(t, |t| / 2);
    FilterSort(Self, AtMost(m), ds);
    FilterSort(Self, AtLeast(m), ds);
  }

  lemma LowHalf(t: seq<nat>, h: nat)
    requires Sorted(Self, t) && h < |t|
    ensures |Filter(AtMost(t[h]), t)| >= h + 1
  {
    var m, low := t[h], t[..h + 1];
    forall i | 0 <= i < |low| ensures AtMost(m)(low[i]) { assert i < h ==> Self(t[i]) <= Self(t[h]); }
    FilterAll(AtMost(m), low);
    FilterConcat(AtMost(m), low, t[h + 1..]);
    assert t == low + t[h + 1..];
  }

  lemma HighHalf(t: seq<nat>, h: nat)
    requires Sorted(Self, t) && h < |t|
    ensures |Filter(AtLeast(t[h]), t)| >= |t| - h
  {
    var m, high := t[h], t[h..];
    forall i | 0 <= i < |high| ensures AtLeast(m)(high[i]) { assert i > 0 ==> Self(t[h]) <= Self(t[h + i]); }
    FilterAll(AtLeast(m), high);
    FilterConcat(AtLeast(m), t[..h], high);
    assert t == t[..h] + high;
  }

  /**
   In every reachable state a task without a duration of its own is given the channel's typical
   duration while fewer than five payments have succeeded, and from then on the median of the
   last fifty (or all) successes.
  */
  lemma EstimateOverRuns(cfg: Config, es: seq<Event>, order: Order)
    requires order.duration.None?
    ensures var recent := LastUpTo(Account(cfg, es).successes, 50);
            var d := Accepted(cfg, Run(cfg, es), order).duration;
            if |recent| < 5 then d == cfg.typicalDurationMs else IsMedian(d, recent)
  {
    RunAgrees(cfg, es);
    if |Run(cfg, es).durations| >= MIN_SAMPLES {
      EstimateIsMedian(cfg, Run(cfg, es).durations);
    }
  }
}
