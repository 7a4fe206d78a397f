/**
 The payment channel of one payment method: a bounded queue served one task at a time in
 deadline order, with a mandatory gap between payments, freezing, and a sliding-window
 estimate of how long a payment takes.

 `Channel` is the state of a channel as a value and `Step` the effect of each operation on
 it; the class `PaymentChannel` below implements the operations in place and is proved to
 take exactly these steps. Every clock reading an operation makes is a parameter, in the
 order in which it is made.
*/
module PaymentChannels {
  import opened Wrappers
  import opened StableSort
  import opened Edf

  datatype Config = Config(minIntervalMs: nat, typicalDurationMs: nat, maxQueueSize: int)

  datatype Processing = Processing(task: Task, startedAt: int, expectedFinishAt: int)

  datatype Channel = Channel(
    pending: seq<Slot>,
    current: Option<Processing>,
    durations: seq<nat>,
    frozen: Option<string>)

  /** What a caller enqueues; without a duration of its own it gets the channel's estimate. */
  datatype Order = Order(id: string, deadline: int, duration: Option<nat>)

  datatype Receipt = Receipt(position: nat, start: int, finish: int, isSafe: bool, risk: Risk)

  datatype Refusal = ChannelFrozen(reason: string) | ChannelFull

  const WINDOW := 50
  const MIN_SAMPLES := 5

  function Tasks(slots: seq<Slot>): seq<Task> { Map(TaskOf, slots) }

  function SlotDeadline(s: Slot): int { s.task.deadline }

  function NotTask(id: string): Slot -> bool { (s: Slot) => s.task.id != id }

  function Self(x: nat): int { x }

  /** The running median of the recorded durations, once there are enough of them. */
  function EstimateMs(cfg: Config, durations: seq<nat>): nat {
    if |durations| < MIN_SAMPLES then cfg.typicalDurationMs
    else Sort(Self, durations)[|durations| / 2]
  }

  function LastFinish(c: Channel, now: int): int {
    if c.current.Some? then c.current.value.expectedFinishAt else now
  }

  function Rebalanced(cfg: Config, c: Channel, now: int): Channel {
    c.(pending := Schedule(now, cfg.minIntervalMs, LastFinish(c, now), Sort(DeadlineOf, Tasks(c.pending))))
  }

  function FirstWithId(slots: seq<Slot>, id: string): (k: nat)
    ensures k <= |slots|
    ensures k < |slots| ==> slots[k].task.id == id
    ensures forall i :: 0 <= i < k ==> slots[i].task.id != id
  {
    if slots == [] || slots[0].task.id == id then 0 else 1 + FirstWithId(slots[1..], id)
  }

  function Accepted(cfg: Config, c: Channel, order: Order): Task {
    Task(order.id, order.deadline,
         if order.duration.Some? then order.duration.value else EstimateMs(cfg, c.durations))
  }

  function Enqueued(cfg: Config, c: Channel, now: int, order: Order): (Result<Receipt, Refusal>, Channel) {
    if c.frozen.Some? then (Err(ChannelFrozen(c.frozen.value)), c)
    else if |c.pending| >= cfg.maxQueueSize then (Err(ChannelFull), c)
    else
      var added := c.(pending := c.pending + [Slot(Accepted(cfg, c, order), now, now, Safe)]);
      var c' := Rebalanced(cfg, added, now);
      var k := FirstWithId(c'.pending, order.id);
      EnqueuedIsPending(cfg, c, now, order);
      var s := c'.pending[k];
      (Ok(Receipt(k + 1, s.start, s.finish, s.risk != WillMiss, s.risk)), c')
  }

  function Dequeued(cfg: Config, c: Channel, now: int, id: string): Channel {
    var kept := Filter(NotTask(id), c.pending);
    var current := if c.current.Some? && c.current.value.task.id == id then None else c.current;
    Rebalanced(cfg, c.(pending := kept, current := current), now)
  }

  function HeadServed(c: Channel, forceNow: bool, now: int): Channel
    requires c.pending != []
  {
    var next := c.pending[0];
    var startAt := if forceNow then now else Max(now, next.start);
    c.(pending := c.pending[1..], current := Some(Processing(next.task, startAt, startAt + next.task.duration)))
  }

  /** `t0`, `t1` and `t2` are the three clock readings of one call. */
  function Started(cfg: Config, c: Channel, forceNow: bool, t0: int, t1: int, t2: int): Channel {
    if c.frozen.Some? || c.current.Some? || c.pending == [] then c
    else Rebalanced(cfg, HeadServed(Rebalanced(cfg, c, t0), forceNow, t1), t2)
  }

  /** The duration a success records: the reported one, or the time since the recorded start. */
  function RecordedMs(durationMs: Option<nat>, now: int, startedAt: int): nat {
    if durationMs.Some? then durationMs.value else Max(0, now - startedAt)
  }

  function Trimmed(ds: seq<nat>): seq<nat> {
    if |ds| > WINDOW then ds[1..] else ds
  }

  function Completed(
    cfg: Config, c: Channel, id: string, ok: bool, durationMs: Option<nat>, t0: int, t1: int): Channel
  {
    if c.current.None? || c.current.value.task.id != id then c
    else
      var ds := if ok then c.durations + [RecordedMs(durationMs, t0, c.current.value.startedAt)] else c.durations;
      Rebalanced(cfg, c.(durations := Trimmed(ds), current := None), t1)
  }

  function Unfrozen(cfg: Config, c: Channel, now: int): Channel {
    Rebalanced(cfg, c.(frozen := None), now)
  }

  lemma EnqueuedIsPending(cfg: Config, c: Channel, now: int, order: Order)
    ensures var x := Accepted(cfg, c, order);
            var added := c.(pending := c.pending + [Slot(x, now, now, Safe)]);
            FirstWithId(Rebalanced(cfg, added, now).pending, order.id) < |Rebalanced(cfg, added, now).pending|
  {
    var x := Accepted(cfg, c, order);
    var added := c.(pending := c.pending + [Slot(x, now, now, Safe)]);
    assert Tasks(added.pending)[|c.pending|] == x;
    AnyIsPending(cfg, added, now, x);
  }

  lemma AnyIsPending(cfg: Config, c: Channel, now: int, x: Task)
    requires x in Tasks(c.pending)
    ensures FirstWithId(Rebalanced(cfg, c, now).pending, x.id) < |Rebalanced(cfg, c, now).pending|
  {
    var ts := Tasks(c.pending);
    SortPermutes(DeadlineOf, ts);
    assert x in multiset(Sort(DeadlineOf, ts));
    var k :| 0 <= k < |Sort(DeadlineOf, ts)| && Sort(DeadlineOf, ts)[k] == x;
    ScheduleAt(now, cfg.minIntervalMs, LastFinish(c, now), Sort(DeadlineOf, ts), k);
  }

  // ----- the implementation

  class PaymentChannel {
    const cfg: Config
    var pending: seq<Slot>
    var currentlyProcessing: Option<Processing>
    var durations: seq<nat>
    var isFrozen: bool
    var frozenReason: string

    ghost function State(): Channel
      reads this
    {
      Channel(pending, currentlyProcessing, durations, if isFrozen then Some(frozenReason) else None)
    }

    constructor (cfg: Config)
      ensures this.cfg == cfg && State() == Fresh()
    {
      this.cfg := cfg;
      pending, currentlyProcessing, durations, isFrozen, frozenReason := [], None, [], false, "";
    }

    method Rebalance(now: int)
      modifies this`pending
      ensures State() == Rebalanced(cfg, old(State()), now)
    {
      SortMap(SlotDeadline, DeadlineOf, TaskOf, pending);
      pending := Sort(SlotDeadline, pending);
      WriteEstimates(now);
    }

    /** The loop of `Rebalance`, over pending tasks that are already in order. */
    method WriteEstimates(now: int)
      modifies this`pending
      ensures pending == Schedule(now, cfg.minIntervalMs, LastFinish(old(State()), now), Tasks(old(pending)))
    {
      var lastFinish := if currentlyProcessing.Some? then currentlyProcessing.value.expectedFinishAt else now;
      ghost var ts := Tasks(pending);
      ghost var goal := Schedule(now, cfg.minIntervalMs, lastFinish, ts);
      for i := 0 to |pending|
        invariant |pending| == |ts|
        invariant forall j :: i <= j < |pending| ==> pending[j].task == ts[j]
        invariant forall j :: 0 <= j < i ==> pending[j] == goal[j]
        invariant goal[i..] == Schedule(now, cfg.minIntervalMs, lastFinish, ts[i..])
      {
        var task := pending[i].task;
        var earliestStart := Max(now, lastFinish + cfg.minIntervalMs);
        var finish := earliestStart + task.duration;
        ScheduleUnrolls(now, cfg.minIntervalMs, lastFinish, ts, i, goal);
        pending := pending[i := Slot(task, earliestStart, finish, RiskOf(task.deadline - finish))];
        lastFinish := finish;
      }
    }

    method Enqueue(now: int, order: Order) returns (r: Result<Receipt, Refusal>)
      modifies this`pending
      ensures (r, State()) == Enqueued(cfg, old(State()), now, order)
    {
      if isFrozen {
        return Err(ChannelFrozen(frozenReason));
      }
      if |pending| >= cfg.maxQueueSize {
        return Err(ChannelFull);
      }
      var duration := if order.duration.Some? then order.duration.value else EstimateMs(cfg, durations);
      pending := pending + [Slot(Task(order.id, order.deadline, duration), now, now, Safe)];
      Rebalance(now);
      EnqueuedIsPending(cfg, old(State()), now, order);
      var k := FirstWithId(pending, order.id);
      r := Ok(Receipt(k + 1, pending[k].start, pending[k].finish, pending[k].risk != WillMiss, pending[k].risk));
    }

    method Dequeue(now: int, id: string)
      modifies this`pending, this`currentlyProcessing
      ensures State() == Dequeued(cfg, old(State()), now, id)
    {
      pending := Filter(NotTask(id), pending);
      if currentlyProcessing.Some? && currentlyProcessing.value.task.id == id {
        currentlyProcessing := None;
      }
      Rebalance(now);
    }

    method StartNext(forceNow: bool, t0: int, t1: int, t2: int) returns (started: Option<Processing>)
      modifies this`pending, this`currentlyProcessing
      ensures State() == Started(cfg, old(State()), forceNow, t0, t1, t2)
      ensures started == if old(currentlyProcessing).None? then currentlyProcessing else None
    {
      if isFrozen || currentlyProcessing.Some? || pending == [] {
        return None;
      }
      Rebalance(t0);
      assert State() == Rebalanced(cfg, old(State()), t0);
      var next := pending[0];
      pending := pending[1..];
      var startAt := if forceNow then t1 else Max(t1, next.start);
      currentlyProcessing := Some(Processing(next.task, startAt, startAt + next.task.duration));
      assert State() == HeadServed(Rebalanced(cfg, old(State()), t0), forceNow, t1);
      Rebalance(t2);
      started := currentlyProcessing;
    }

    method Complete(id: string, ok: bool, durationMs: Option<nat>, t0: int, t1: int)
      modifies this`pending, this`currentlyProcessing, this`durations
      ensures State() == Completed(cfg, old(State()), id, ok, durationMs, t0, t1)
    {
      if currentlyProcessing.None? || currentlyProcessing.value.task.id != id {
        return;
      }
      if ok {
        durations := durations + [RecordedMs(durationMs, t0, currentlyProcessing.value.startedAt)];
      }
      if |durations| > WINDOW {
        durations := durations[1..];
      }
      currentlyProcessing := None;
      Rebalance(t1);
    }

    method Freeze(reason: string)
      modifies this`isFrozen, this`frozenReason
      ensures State() == old(State()).(frozen := Some(reason))
    {
      isFrozen := true;
      frozenReason := reason;
    }

    method Unfreeze(now: int)
      modifies this`isFrozen, this`frozenReason, this`pending
      ensures State() == Unfrozen(cfg, old(State()), now)
    {
      isFrozen := false;
      frozenReason := "";
      Rebalance(now);
    }

    method AverageActualDurationMs() returns (ms: nat)
      ensures ms == EstimateMs(cfg, durations)
    {
      if |durations| < MIN_SAMPLES {
        return cfg.typicalDurationMs;
      }
      var sorted := Sort(Self, durations);
      return sorted[|sorted| / 2];
    }
  }

  function Fresh(): Channel {
    Channel([], None, [], None)
  }
}
