/**
 The forward schedule a payment channel lays over its pending tasks, and what the
 earliest-deadline-first order achieves. Times are integer milliseconds.
*/
module Edf {
  import opened Wrappers
  import opened StableSort

  datatype Task = Task(id: string, deadline: int, duration: nat)

  datatype Risk = Safe | Tight | WillMiss

  /** A pending task with the estimates the last pass wrote on it. */
  datatype Slot = Slot(task: Task, start: int, finish: int, risk: Risk)

  const TIGHT_MARGIN_MS := 120000

  function DeadlineOf(t: Task): int { t.deadline }

  function TaskOf(s: Slot): Task { s.task }

  function RiskOf(margin: int): Risk {
    if margin < 0 then WillMiss else if margin < TIGHT_MARGIN_MS then Tight else Safe
  }

  /** The slot of the next task; `last` is when the task before it finishes. */
  function FirstSlot(now: int, gap: nat, last: int, t: Task): Slot {
    var start := Max(now, last + gap);
    Slot(t, start, start + t.duration, RiskOf(t.deadline - (start + t.duration)))
  }

  /** One pass over `ts` in the given order. */
  function Schedule(now: int, gap: nat, last: int, ts: seq<Task>): (slots: seq<Slot>)
    ensures |slots| == |ts|
    decreases |ts|
  {
    if ts == [] then []
    else
      var first := FirstSlot(now, gap, last, ts[0]);
      [first] + Schedule(now, gap, first.finish, ts[1..])
  }

  /** One step of the pass: what it writes at position `i`, and from where it goes on. */
  lemma ScheduleUnrolls(now: int, gap: nat, last: int, ts: seq<Task>, i: nat, slots: seq<Slot>)
    requires i < |ts| == |slots| && slots[i..] == Schedule(now, gap, last, ts[i..])
    ensures slots[i] == FirstSlot(now, gap, last, ts[i])
    ensures slots[i + 1..] == Schedule(now, gap, slots[i].finish, ts[i + 1..])
  {
    assert ts[i..][0] == ts[i] && ts[i..][1..] == ts[i + 1..];
    assert slots[i..][0] == slots[i] && slots[i..][1..] == slots[i + 1..];
  }

  function TotalDuration(ts: seq<Task>): nat {
    if ts == [] then 0 else ts[0].duration + TotalDuration(ts[1..])
  }

  /** Position `k` starts after all durations before it and `k` gaps, counted from the first start. */
  lemma {:induction false} ScheduleAt(now: int, gap: nat, last: int, ts: seq<Task>, k: nat)
    requires k < |ts|
    ensures var slot := Schedule(now, gap, last, ts)[k];
            && slot.task == ts[k]
            && slot.start == Max(now, last + gap) + TotalDuration(ts[..k]) + k * gap
            && slot.finish == slot.start + ts[k].duration
            && (slot.risk == WillMiss <==> slot.finish > ts[k].deadline)
            && (slot.risk == Safe <==> slot.finish + TIGHT_MARGIN_MS <= ts[k].deadline)
    decreases k
  {
    if k > 0 {
      var finish := Max(now, last + gap) + ts[0].duration;
      ScheduleAt(now, gap, finish, ts[1..], k - 1);
      assert ts[..k][1..] == ts[1..][..k - 1];
      assert k * gap == gap + (k - 1) * gap;
    }
  }

  // ----- lateness

  ghost predicate LateByAtMost(slots: seq<Slot>, late: int) {
    forall i :: 0 <= i < |slots| ==> slots[i].finish - slots[i].task.deadline <= late
  }

  function MaxLateness(slots: seq<Slot>): int
    requires slots != []
  {
    var late := slots[0].finish - slots[0].task.deadline;
    if |slots| == 1 then late else Max(late, MaxLateness(slots[1..]))
  }

  lemma {:induction false} MaxLatenessIsLeast(slots: seq<Slot>, late: int)
    requires slots != []
    ensures LateByAtMost(slots, late) <==> MaxLateness(slots) <= late
  {
    if |slots| > 1 {
      MaxLatenessIsLeast(slots[1..], late);
      SplitFirst(slots);
    }
  }

  lemma ScheduleCons(now: int, gap: nat, last: int, t: Task, ts: seq<Task>)
    ensures var first := FirstSlot(now, gap, last, t);
            Schedule(now, gap, last, [t] + ts) == [first] + Schedule(now, gap, first.finish, ts)
  {
    assert ([t] + ts)[1..] == ts;
  }

  lemma LateByCons(first: Slot, rest: seq<Slot>, late: int)
    ensures LateByAtMost([first] + rest, late)
            <==> first.finish - first.task.deadline <= late && LateByAtMost(rest, late)
  {
    if LateByAtMost([first] + rest, late) {
      forall i | 0 <= i < |rest| ensures rest[i].finish - rest[i].task.deadline <= late {
        assert ([first] + rest)[i + 1] == rest[i];
      }
      assert ([first] + rest)[0] == first;
    }
  }

  lemma LateCons(now: int, gap: nat, last: int, t: Task, ts: seq<Task>, late: int)
    ensures var finish := Max(now, last + gap) + t.duration;
            LateByAtMost(Schedule(now, gap, last, [t] + ts), late)
            <==> finish - t.deadline <= late && LateByAtMost(Schedule(now, gap, finish, ts), late)
  {
    var first := FirstSlot(now, gap, last, t);
    ScheduleCons(now, gap, last, t, ts);
    LateByCons(first, Schedule(now, gap, first.finish, ts), late);
  }

  /** Two neighbours out of deadline order can be exchanged. */
  lemma ExchangeNeighbours(now: int, gap: nat, last: int, a: Task, b: Task, ts: seq<Task>, late: int)
    requires b.deadline <= a.deadline
    requires LateByAtMost(Schedule(now, gap, last, [a] + ([b] + ts)), late)
    ensures LateByAtMost(Schedule(now, gap, last, [b] + ([a] + ts)), late)
  {
    var fa, fb := Max(now, last + gap) + a.duration, Max(now, last + gap) + b.duration;
    LateCons(now, gap, last, a, [b] + ts, late);
    LateCons(now, gap, fa, b, ts, late);
    LateCons(now, gap, last, b, [a] + ts, late);
    LateCons(now, gap, fb, a, ts, late);
  }

  /** Behind a task that is on time, another can be moved past it. */
  lemma MovePast(now: int, gap: nat, last: int, a: Task, b: Task, ts: seq<Task>, late: int)
    requires b.deadline <= a.deadline
    requires var finish := Max(now, last + gap) + a.duration;
             finish - a.deadline <= late && LateByAtMost(Schedule(now, gap, finish, [b] + ts), late)
    ensures LateByAtMost(Schedule(now, gap, last, [b] + ([a] + ts)), late)
  {
    LateCons(now, gap, last, a, [b] + ts, late);
    ExchangeNeighbours(now, gap, last, a, b, ts, late);
  }

  /** A task no later than everything ahead of it can move to the front. */
  lemma {:induction false} MoveToFront(now: int, gap: nat, last: int, p: seq<Task>, k: nat, late: int)
    requires k < |p| && forall i :: 0 <= i < k ==> p[k].deadline <= p[i].deadline
    requires LateByAtMost(Schedule(now, gap, last, p), late)
    ensures LateByAtMost(Schedule(now, gap, last, [p[k]] + RemoveAt(p, k)), late)
    decreases k
  {
    RemoveShape(p, k);
    if k > 0 {
      var a, tail := p[0], p[1..];
      LateCons(now, gap, last, a, tail, late);
      MoveToFront(now, gap, Max(now, last + gap) + a.duration, tail, k - 1, late);
      MovePast(now, gap, last, a, p[k], RemoveAt(tail, k - 1), late);
    }
  }

  lemma RemoveShape(p: seq<Task>, k: nat)
    requires k < |p|
    ensures p == [p[0]] + p[1..]
    ensures k == 0 ==> [p[0]] + RemoveAt(p, 0) == p
    ensures k > 0 ==> p[1..][k - 1] == p[k] && RemoveAt(p, k) == [p[0]] + RemoveAt(p[1..], k - 1)
  {
  }

  /** Whatever lateness some order of the tasks achieves, any deadline-sorted order achieves. */
  lemma {:induction false} SortedIsNoLater(now: int, gap: nat, last: int, s: seq<Task>, p: seq<Task>, late: int)
    requires Sorted(DeadlineOf, s) && multiset(s) == multiset(p)
    requires LateByAtMost(Schedule(now, gap, last, p), late)
    ensures LateByAtMost(Schedule(now, gap, last, s), late)
    decreases |s|
  {
    if s != [] {
      var k := IndexOfEarliest(s, p);
      var rest := RemoveAt(p, k);
      MoveToFront(now, gap, last, p, k, late);
      LateCons(now, gap, last, s[0], rest, late);
      SortedIsNoLater(now, gap, Max(now, last + gap) + s[0].duration, s[1..], rest, late);
      SplitFirst(s);
      LateCons(now, gap, last, s[0], s[1..], late);
    }
  }

  lemma IndexOfEarliest(s: seq<Task>, p: seq<Task>) returns (k: nat)
    requires s != [] && Sorted(DeadlineOf, s) && multiset(s) == multiset(p)
    ensures k < |p| && p[k] == s[0] && forall i :: 0 <= i < |p| ==> p[k].deadline <= p[i].deadline
    ensures Sorted(DeadlineOf, s[1..]) && multiset(s[1..]) == multiset(RemoveAt(p, k))
  {
    assert s[0] in multiset(p);
    k :| 0 <= k < |p| && p[k] == s[0];
    SortedTail(DeadlineOf, s);
    forall i | 0 <= i < |p| ensures p[k].deadline <= p[i].deadline {
      assert p[i] in multiset(s);
      var j :| 0 <= j < |s| && s[j] == p[i];
      assert DeadlineOf(s[0]) <= DeadlineOf(s[j]);
    }
    RemoveEqual(s, 0, p, k);
    assert RemoveAt(s, 0) == s[1..];
  }

  /** Earliest deadline first minimises the maximum lateness over all orders of the tasks. */
  lemma EdfOptimal(now: int, gap: nat, last: int, ts: seq<Task>, p: seq<Task>)
    requires ts != [] && multiset(p) == multiset(ts)
    ensures Schedule(now, gap, last, Sort(DeadlineOf, ts)) != [] && Schedule(now, gap, last, p) != []
    ensures MaxLateness(Schedule(now, gap, last, Sort(DeadlineOf, ts))) <= MaxLateness(Schedule(now, gap, last, p))
  {
    var s := Sort(DeadlineOf, ts);
    SortSorted(DeadlineOf, ts);
    SortPermutes(DeadlineOf, ts);
    assert |multiset(p)| == |multiset(ts)| == |multiset(s)|;
    var late := MaxLateness(Schedule(now, gap, last, p));
    MaxLatenessIsLeast(Schedule(now, gap, last, p), late);
    SortedIsNoLater(now, gap, last, s, p, late);
    MaxLatenessIsLeast(Schedule(now, gap, last, s), late);
  }

  ghost predicate NoneMissed(slots: seq<Slot>) {
    forall i :: 0 <= i < |slots| ==> slots[i].risk != WillMiss
  }

  lemma NoneMissedIsOnTime(now: int, gap: nat, last: int, ts: seq<Task>)
    ensures NoneMissed(Schedule(now, gap, last, ts)) <==> LateByAtMost(Schedule(now, gap, last, ts), 0)
  {
    forall i | 0 <= i < |ts|
      ensures var s := Schedule(now, gap, last, ts)[i]; s.risk != WillMiss <==> s.finish - s.task.deadline <= 0
    {
      ScheduleAt(now, gap, last, ts, i);
    }
  }

  /** If any order of the tasks labels none `WillMiss`, the deadline order labels none. */
  lemma EdfMissesNoneIfPossible(now: int, gap: nat, last: int, ts: seq<Task>, p: seq<Task>)
    requires multiset(p) == multiset(ts)
    requires NoneMissed(Schedule(now, gap, last, p))
    ensures NoneMissed(Schedule(now, gap, last, Sort(DeadlineOf, ts)))
  {
    SortSorted(DeadlineOf, ts);
    SortPermutes(DeadlineOf, ts);
    NoneMissedIsOnTime(now, gap, last, p);
    SortedIsNoLater(now, gap, last, Sort(DeadlineOf, ts), p, 0);
    NoneMissedIsOnTime(now, gap, last, Sort(DeadlineOf, ts));
  }

  // ----- what one more task does to the schedule

  /** The same tasks in the same order, each slot `shift` later. */
  ghost predicate DelayedBy(before: seq<Slot>, after: seq<Slot>, shift: int) {
    && |after| == |before|
    && forall i :: 0 <= i < |before| ==>
         && after[i].task == before[i].task
         && after[i].start == before[i].start + shift
         && after[i].finish == before[i].finish + shift
  }

  lemma DelayedCons(s: Slot, s': Slot, before: seq<Slot>, after: seq<Slot>, shift: int)
    requires s'.task == s.task && s'.start == s.start + shift && s'.finish == s.finish + shift
    requires DelayedBy(before, after, shift)
    ensures DelayedBy([s] + before, [s'] + after, shift)
  {
  }

  lemma {:induction false} DelayedSchedule(now: int, gap: nat, last: int, last': int, shift: nat, ts: seq<Task>)
    requires Max(now, last' + gap) == Max(now, last + gap) + shift
    ensures DelayedBy(Schedule(now, gap, last, ts), Schedule(now, gap, last', ts), shift)
    decreases |ts|
  {
    if ts != [] {
      var s, s' := FirstSlot(now, gap, last, ts[0]), FirstSlot(now, gap, last', ts[0]);
      SplitFirst(ts);
      ScheduleCons(now, gap, last, ts[0], ts[1..]);
      ScheduleCons(now, gap, last', ts[0], ts[1..]);
      DelayedSchedule(now, gap, s.finish, s'.finish, shift, ts[1..]);
      DelayedCons(s, s', Schedule(now, gap, s.finish, ts[1..]), Schedule(now, gap, s'.finish, ts[1..]), shift);
    }
  }

  lemma ConsSlices(s: Slot, rest: seq<Slot>, n: nat)
    requires 1 <= n <= |rest| + 1
    ensures ([s] + rest)[..n] == [s] + rest[..n - 1] && ([s] + rest)[n..] == rest[n - 1..]
  {
  }

  /** `after` is `before` with `x` at position `k`, everything behind it `shift` later. */
  ghost predicate Inserted(before: seq<Slot>, after: seq<Slot>, k: nat, x: Task, shift: nat) {
    && k <= |before| && |after| == |before| + 1
    && after[..k] == before[..k] && after[k].task == x && DelayedBy(before[k..], after[k + 1..], shift)
  }

  lemma InsertedBehind(first: Slot, before: seq<Slot>, after: seq<Slot>, k: nat, x: Task, shift: nat)
    requires Inserted(before, after, k, x, shift)
    ensures Inserted([first] + before, [first] + after, k + 1, x, shift)
  {
    ConsSlices(first, before, k + 1);
    ConsSlices(first, after, k + 1);
    ConsSlices(first, after, k + 2);
  }

  lemma InsertedFirst(now: int, gap: nat, last: int, x: Task, b: seq<Task>)
    ensures Inserted(Schedule(now, gap, last, b), Schedule(now, gap, last, [x] + b), 0, x, x.duration + gap)
  {
    var finish := FirstSlot(now, gap, last, x).finish;
    var before, after := Schedule(now, gap, last, b), Schedule(now, gap, finish, b);
    ScheduleCons(now, gap, last, x, b);
    DelayedSchedule(now, gap, last, finish, x.duration + gap, b);
    assert before[0..] == before && ([FirstSlot(now, gap, last, x)] + after)[1..] == after;
  }

  lemma {:induction false} ScheduleInserted(now: int, gap: nat, last: int, a: seq<Task>, x: Task, b: seq<Task>)
    ensures Inserted(Schedule(now, gap, last, a + b), Schedule(now, gap, last, a + ([x] + b)), |a|, x, x.duration + gap)
    decreases |a|
  {
    if a == [] {
      assert a + b == b && a + ([x] + b) == [x] + b;
      InsertedFirst(now, gap, last, x, b);
    } else {
      var t, rest, first := a[0], a[1..], FirstSlot(now, gap, last, a[0]);
      assert a + b == [t] + (rest + b) && a + ([x] + b) == [t] + (rest + ([x] + b));
      ScheduleCons(now, gap, last, t, rest + b);
      ScheduleCons(now, gap, last, t, rest + ([x] + b));
      ScheduleInserted(now, gap, first.finish, rest, x, b);
      InsertedBehind(first, Schedule(now, gap, first.finish, rest + b),
                     Schedule(now, gap, first.finish, rest + ([x] + b)), |rest|, x, x.duration + gap);
    }
  }

  /**
   Adding `x` to sorted pending tasks: the `k` tasks with a deadline not later than its own
   keep their slots, `x` comes right behind them, and every later task starts and finishes
   exactly `x.duration + gap` later.
  */
  lemma InsertionEffect(now: int, gap: nat, last: int, ts: seq<Task>, x: Task) returns (k: nat)
    requires Sorted(DeadlineOf, ts)
    ensures k <= |ts| && forall i :: 0 <= i < |ts| ==> (i < k <==> ts[i].deadline <= x.deadline)
    ensures Inserted(Schedule(now, gap, last, ts), Schedule(now, gap, last, Sort(DeadlineOf, ts + [x])),
                     k, x, x.duration + gap)
  {
    k := InsertPosition(ts, x);
    ScheduleInserted(now, gap, last, ts[..k], x, ts[k..]);
    assert ts == ts[..k] + ts[k..];
  }

  lemma InsertPosition(ts: seq<Task>, x: Task) returns (k: nat)
    requires Sorted(DeadlineOf, ts)
    ensures k <= |ts| && forall i :: 0 <= i < |ts| ==> (i < k <==> ts[i].deadline <= x.deadline)
    ensures Sort(DeadlineOf, ts + [x]) == ts[..k] + ([x] + ts[k..])
  {
    SortOfSorted(DeadlineOf, ts);
    SortAppend(DeadlineOf, ts, x);
    k := InsertShape(DeadlineOf, ts, x);
    forall i | 0 <= i < |ts| ensures i < k <==> ts[i].deadline <= x.deadline {
      assert i < k <==> DeadlineOf(ts[i]) <= DeadlineOf(x);
    }
  }
}
