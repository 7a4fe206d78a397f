/**
 The money of one sniper: an append-only ledger whose balances are folds over its entries.
 Cents are integers; amounts are checked to be non-negative safe integers.
*/
module Ledger {
  import opened Wrappers

  datatype Kind = TransferIn | TransferOut | Commit | Release | Spend

  /** What a ledger entry says about money. */
  datatype Posting = Posting(taskId: TaskId, kind: Kind, cents: int)

  datatype BudgetError = InvalidMoney | BudgetExceeded

  const MAX_SAFE := 9007199254740991

  /** Ids are numbered here: 0 is the empty string, which stands for all tasks, and 1 is "pool". */
  type TaskId = int

  const ALL: TaskId := 0
  const POOL: TaskId := 1

  predicate IsMoney(cents: int) {
    0 <= cents <= MAX_SAFE
  }

  predicate Covers(taskId: TaskId, p: Posting) {
    taskId == ALL || p.taskId == taskId
  }

  function TransferOf(p: Posting): int {
    match p.kind
    case TransferIn => p.cents
    case TransferOut => -p.cents
    case _ => 0
  }

  function CommitmentOf(p: Posting): int {
    match p.kind
    case Commit => p.cents
    case Release => -p.cents
    case Spend => -p.cents
    case _ => 0
  }

  function SpendingOf(p: Posting): int {
    if p.kind.Spend? then p.cents else 0
  }

  // The folds over the first `n` entries, and over all of them.

  function TotalUpTo(ps: seq<Posting>, n: nat): int
    requires n <= |ps|
  {
    if n == 0 then 0 else TotalUpTo(ps, n - 1) + TransferOf(ps[n - 1])
  }

  function SpentUpTo(ps: seq<Posting>, taskId: TaskId, n: nat): int
    requires n <= |ps|
  {
    if n == 0 then 0
    else SpentUpTo(ps, taskId, n - 1) + if Covers(taskId, ps[n - 1]) then SpendingOf(ps[n - 1]) else 0
  }

  function CommittedUpTo(ps: seq<Posting>, taskId: TaskId, n: nat): int
    requires n <= |ps|
  {
    if n == 0 then 0
    else CommittedUpTo(ps, taskId, n - 1) + if Covers(taskId, ps[n - 1]) then CommitmentOf(ps[n - 1]) else 0
  }

  function Total(ps: seq<Posting>): int { TotalUpTo(ps, |ps|) }

  function Spent(ps: seq<Posting>, taskId: TaskId): int { SpentUpTo(ps, taskId, |ps|) }

  function Committed(ps: seq<Posting>, taskId: TaskId): int { CommittedUpTo(ps, taskId, |ps|) }

  function Available(ps: seq<Posting>): int {
    Total(ps) - Committed(ps, ALL) - Spent(ps, ALL)
  }

  // ----- the public operations, and the entry each would append

  datatype Op =
    | SetTotal(cents: int)
    | CommitOp(taskId: TaskId, cents: int)
    | ReleaseOp(taskId: TaskId, cents: int)
    | SpendOp(taskId: TaskId, cents: int)

  function Decide(ps: seq<Posting>, op: Op): Result<Option<Posting>, BudgetError> {
    if !IsMoney(op.cents) then Err(InvalidMoney)
    else
      match op
      case SetTotal(cents) =>
        var current := Total(ps);
        var delta := if cents > current then cents - current else current - cents;
        if cents == current then Ok(None)
        else if !IsMoney(delta) then Err(InvalidMoney)
        else Ok(Some(Posting(POOL, if cents > current then TransferIn else TransferOut, delta)))
      case CommitOp(t, cents) =>
        if Available(ps) < cents then Err(BudgetExceeded) else Ok(Some(Posting(t, Commit, cents)))
      case ReleaseOp(t, cents) =>
        if Committed(ps, t) < cents then Err(BudgetExceeded) else Ok(Some(Posting(t, Release, cents)))
      case SpendOp(t, cents) =>
        if Committed(ps, t) < cents then Err(BudgetExceeded) else Ok(Some(Posting(t, Spend, cents)))
  }

  function Apply(ps: seq<Posting>, op: Op): seq<Posting> {
    var d := Decide(ps, op);
    if d.Ok? && d.value.Some? then ps + [d.value.value] else ps
  }

  function RunOps(ops: seq<Op>): seq<Posting> {
    if ops == [] then [] else Apply(RunOps(ops[..|ops| - 1]), ops[|ops| - 1])
  }

  lemma {:induction false} SamePrefix(ps: seq<Posting>, p: Posting, t: TaskId, n: nat)
    requires n <= |ps|
    ensures TotalUpTo(ps + [p], n) == TotalUpTo(ps, n)
    ensures SpentUpTo(ps + [p], t, n) == SpentUpTo(ps, t, n) && CommittedUpTo(ps + [p], t, n) == CommittedUpTo(ps, t, n)
  {
    if n > 0 { SamePrefix(ps, p, t, n - 1); }
  }

  /** What one more entry does to the balances. */
  lemma Appended(ps: seq<Posting>, p: Posting, t: TaskId)
    ensures Total(ps + [p]) == Total(ps) + TransferOf(p)
    ensures Spent(ps + [p], t) == Spent(ps, t) + if Covers(t, p) then SpendingOf(p) else 0
    ensures Committed(ps + [p], t) == Committed(ps, t) + if Covers(t, p) then CommitmentOf(p) else 0
  {
    SamePrefix(ps, p, t, |ps|);
  }

  /** Exactly which operations are accepted, and with which error the others are refused. */
  lemma AcceptedExactly(ps: seq<Posting>, op: Op)
    ensures var d := Decide(ps, op);
            var within := 0 <= op.cents <= 9007199254740991;
            match op
            case SetTotal(c) =>
              && (d.Ok? <==> within && -9007199254740991 <= c - Total(ps) <= 9007199254740991)
              && (d.Err? ==> d.error == InvalidMoney)
            case CommitOp(_, c) =>
              && (d.Ok? <==> within && c <= Available(ps))
              && (d.Err? ==> d.error == if within then BudgetExceeded else InvalidMoney)
            case _ =>
              && (d.Ok? <==> within && op.cents <= Committed(ps, op.taskId))
              && (d.Err? ==> d.error == if within then BudgetExceeded else InvalidMoney)
  {
  }

  /** What an accepted operation does to the balances. */
  lemma OpEffect(ps: seq<Posting>, op: Op)
    requires Decide(ps, op).Ok?
    ensures !op.SetTotal? ==> Total(Apply(ps, op)) == Total(ps)
    ensures var qs := Apply(ps, op);
            match op
            case SetTotal(c) =>
              Total(qs) == c && Committed(qs, ALL) == Committed(ps, ALL) && Spent(qs, ALL) == Spent(ps, ALL)
            case CommitOp(t, c) => Available(qs) == Available(ps) - c >= 0 && Committed(qs, t) == Committed(ps, t) + c
            case ReleaseOp(t, c) => Available(qs) == Available(ps) + c && Committed(qs, t) == Committed(ps, t) - c >= 0
            case SpendOp(t, c) =>
              && Available(qs) == Available(ps)
              && Committed(qs, t) == Committed(ps, t) - c >= 0 && Spent(qs, t) == Spent(ps, t) + c
  {
    var d := Decide(ps, op);
    if d.value.Some? {
      Appended(ps, d.value.value, ALL);
      if !op.SetTotal? { Appended(ps, d.value.value, op.taskId); }
    }
  }

  // ----- per-task balances

  predicate Named(op: Op) {
    op.SetTotal? || op.taskId != ALL
  }

  /** The tasks of `ids` taken together. */
  function CommittedTo(ps: seq<Posting>, ids: seq<TaskId>): int {
    if ids == [] then 0 else Committed(ps, ids[0]) + CommittedTo(ps, ids[1..])
  }

  function SpentOn(ps: seq<Posting>, ids: seq<TaskId>): int {
    if ids == [] then 0 else Spent(ps, ids[0]) + SpentOn(ps, ids[1..])
  }

  ghost predicate Distinct(ids: seq<TaskId>) {
    forall i, j :: 0 <= i < j < |ids| ==> ids[i] != ids[j]
  }

  /** `ids` names every task of the ledger. */
  ghost predicate NamesAll(ids: seq<TaskId>, ps: seq<Posting>) {
    && Distinct(ids) && ALL !in ids
    && forall i :: 0 <= i < |ps| ==> ps[i].taskId in ids
  }

  lemma {:induction false} SumAppended(ps: seq<Posting>, p: Posting, ids: seq<TaskId>)
    requires Distinct(ids) && ALL !in ids
    ensures CommittedTo(ps + [p], ids) == CommittedTo(ps, ids) + if p.taskId in ids then CommitmentOf(p) else 0
    ensures SpentOn(ps + [p], ids) == SpentOn(ps, ids) + if p.taskId in ids then SpendingOf(p) else 0
  {
    if ids != [] {
      assert Distinct(ids[1..]) by {
        forall i, j | 0 <= i < j < |ids[1..]| ensures ids[1..][i] != ids[1..][j] {
          assert ids[i + 1] != ids[j + 1];
        }
      }
      SumAppended(ps, p, ids[1..]);
      Appended(ps, p, ids[0]);
      assert ids[0] != ALL;
      assert ids[0] !in ids[1..];
    }
  }

  lemma {:induction false} SumsAgree(ps: seq<Posting>, ids: seq<TaskId>)
    requires NamesAll(ids, ps)
    ensures CommittedTo(ps, ids) == Committed(ps, ALL) && SpentOn(ps, ids) == Spent(ps, ALL)
  {
    if ps == [] {
      SumsOfNothing(ids);
    } else {
      var init, p := ps[..|ps| - 1], ps[|ps| - 1];
      assert ps == init + [p];
      SumsAgree(init, ids);
      SumAppended(init, p, ids);
      Appended(init, p, ALL);
    }
  }

  lemma {:induction false} SumsOfNothing(ids: seq<TaskId>)
    ensures CommittedTo([], ids) == 0 && SpentOn([], ids) == 0
  {
    if ids != [] { SumsOfNothing(ids[1..]); }
  }

  ghost predicate Sound(ps: seq<Posting>) {
    && (forall t :: t != ALL ==> Committed(ps, t) >= 0)
    && (forall t :: Spent(ps, t) >= 0)
    && Committed(ps, ALL) >= 0
    && forall i :: 0 <= i < |ps| ==> ps[i].taskId != ALL && IsMoney(ps[i].cents)
  }

  lemma SoundApply(ps: seq<Posting>, op: Op)
    requires Sound(ps) && Named(op)
    ensures forall t :: t != ALL ==> Committed(Apply(ps, op), t) >= 0
    ensures forall t :: Spent(Apply(ps, op), t) >= 0
    ensures forall i :: 0 <= i < |Apply(ps, op)| ==> Apply(ps, op)[i].taskId != ALL && IsMoney(Apply(ps, op)[i].cents)
  {
    var d := Decide(ps, op);
    if d.Ok? && d.value.Some? {
      forall t
        ensures Spent(ps + [d.value.value], t) >= 0
        ensures t != ALL ==> Committed(ps + [d.value.value], t) >= 0
      {
        Appended(ps, d.value.value, t);
      }
    }
  }

  /** Sums of non-negative balances are not negative. */
  lemma {:induction false} SumNonNegative(ps: seq<Posting>, ids: seq<TaskId>)
    requires ALL !in ids && forall t :: t != ALL ==> Committed(ps, t) >= 0
    ensures CommittedTo(ps, ids) >= 0
  {
    if ids != [] {
      assert ids[0] != ALL;
      SumNonNegative(ps, ids[1..]);
    }
  }

  lemma {:induction false} SomeNames(ps: seq<Posting>) returns (ids: seq<TaskId>)
    requires forall i :: 0 <= i < |ps| ==> ps[i].taskId != ALL
    ensures NamesAll(ids, ps)
  {
    ids := [];
    if ps != [] {
      ids := SomeNames(ps[..|ps| - 1]);
      if ps[|ps| - 1].taskId !in ids {
        ids := ids + [ps[|ps| - 1].taskId];
      }
    }
  }

  lemma SoundStep(ps: seq<Posting>, op: Op)
    requires Sound(ps) && Named(op)
    ensures Sound(Apply(ps, op))
  {
    SoundApply(ps, op);
    var ids := SomeNames(Apply(ps, op));
    SumsAgree(Apply(ps, op), ids);
    SumNonNegative(Apply(ps, op), ids);
  }

  /**
   Over any run of operations that name their tasks, no task's commitment is negative, and for
   any list of all tasks the per-task commitments and spendings add up to the global ones.
  */
  lemma {:induction false} BalancesAgree(ops: seq<Op>)
    requires forall i :: 0 <= i < |ops| ==> Named(ops[i])
    ensures Sound(RunOps(ops))
    ensures forall ids :: NamesAll(ids, RunOps(ops)) ==>
              && CommittedTo(RunOps(ops), ids) == Committed(RunOps(ops), ALL)
              && SpentOn(RunOps(ops), ids) == Spent(RunOps(ops), ALL)
  {
    var ps := RunOps(ops);
    if ops != [] {
      BalancesAgree(ops[..|ops| - 1]);
      SoundStep(RunOps(ops[..|ops| - 1]), ops[|ops| - 1]);
    }
    forall ids | NamesAll(ids, ps)
      ensures CommittedTo(ps, ids) == Committed(ps, ALL) && SpentOn(ps, ids) == Spent(ps, ALL)
    {
      SumsAgree(ps, ids);
    }
  }

  // ----- exactly when the sums agree

  /** `ids` lists the named tasks of the ledger; entries may also carry the empty id. */
  ghost predicate Lists(ids: seq<TaskId>, ps: seq<Posting>) {
    && Distinct(ids) && ALL !in ids
    && forall i :: 0 <= i < |ps| && ps[i].taskId != ALL ==> ps[i].taskId in ids
  }

  ghost predicate Agree(ps: seq<Posting>, ids: seq<TaskId>) {
    CommittedTo(ps, ids) == Committed(ps, ALL) && SpentOn(ps, ids) == Spent(ps, ALL)
  }

  /** The operation names its task, moves nothing, or is refused. */
  predicate Harmless(ps: seq<Posting>, op: Op) {
    Named(op) || op.cents == 0 || Decide(ps, op).Err?
  }

  /** An operation leaves the per-task balances adding up exactly when it is harmless. */
  lemma AgreeStepExactly(ps: seq<Posting>, op: Op, ids: seq<TaskId>)
    requires Lists(ids, Apply(ps, op)) && Agree(ps, ids)
    ensures Agree(Apply(ps, op), ids) <==> Harmless(ps, op)
  {
    var d := Decide(ps, op);
    if d.Ok? && d.value.Some? {
      AgreeAppended(ps, d.value.value, ids);
    }
  }

  lemma AgreeAppended(ps: seq<Posting>, p: Posting, ids: seq<TaskId>)
    requires Lists(ids, ps + [p]) && Agree(ps, ids)
    ensures Agree(ps + [p], ids) <==> p.taskId != ALL || (CommitmentOf(p) == 0 && SpendingOf(p) == 0)
  {
    assert (ps + [p])[|ps|] == p;
    SumAppended(ps, p, ids);
    Appended(ps, p, ALL);
  }

  lemma ListsBefore(ids: seq<TaskId>, ps: seq<Posting>, op: Op)
    requires Lists(ids, Apply(ps, op))
    ensures Lists(ids, ps)
  {
    forall i | 0 <= i < |ps| && ps[i].taskId != ALL ensures ps[i].taskId in ids {
      assert Apply(ps, op)[i] == ps[i];
    }
  }

  ghost predicate AlwaysAgree(ops: seq<Op>, ids: seq<TaskId>) {
    forall n :: 0 <= n <= |ops| ==> Agree(RunOps(ops[..n]), ids)
  }

  ghost predicate AllHarmless(ops: seq<Op>) {
    forall i :: 0 <= i < |ops| ==> Harmless(RunOps(ops[..i]), ops[i])
  }

  /**
   Over any run the per-task balances add up to the global ones after every operation exactly
   when each operation that is accepted and moves money names its task.
  */
  lemma {:induction false} SumsAgreeExactly(ops: seq<Op>, ids: seq<TaskId>)
    requires Lists(ids, RunOps(ops))
    ensures AlwaysAgree(ops, ids) <==> AllHarmless(ops)
  {
    if ops == [] {
      SumsOfNothing(ids);
      assert ops[..0] == [];
    } else {
      var before, op := ops[..|ops| - 1], ops[|ops| - 1];
      ListsBefore(ids, RunOps(before), op);
      SumsAgreeExactly(before, ids);
      Prefixes(ops, ids);
      if Agree(RunOps(before), ids) { AgreeStepExactly(RunOps(before), op, ids); }
    }
  }

  /** Both sides say of a run what they say of all but its last operation, and of that one. */
  lemma Prefixes(ops: seq<Op>, ids: seq<TaskId>)
    requires ops != []
    ensures var before, op := ops[..|ops| - 1], ops[|ops| - 1];
            && (AlwaysAgree(ops, ids) <==> AlwaysAgree(before, ids) && Agree(RunOps(ops), ids))
            && (AlwaysAgree(before, ids) ==> Agree(RunOps(before), ids))
            && (AllHarmless(ops) <==> AllHarmless(before) && Harmless(RunOps(before), op))
  {
    var before := ops[..|ops| - 1];
    assert forall n :: 0 <= n <= |before| ==> before[..n] == ops[..n];
    assert ops[..|ops|] == ops && before[..|before|] == before;
    assert forall i :: 0 <= i < |before| ==> before[i] == ops[i];
  }

  lemma RunOne(ops: seq<Op>, op: Op)
    ensures RunOps(ops + [op]) == Apply(RunOps(ops), op)
  {
    assert (ops + [op])[..|ops|] == ops;
  }

  /** The balances behind one more entry, all at once. */
  lemma AppendedFor(ps: seq<Posting>, p: Posting, t: TaskId)
    ensures Total(ps + [p]) == Total(ps) + TransferOf(p) && Available(ps + [p]) == Available(ps) + TransferOf(p)
              - (CommitmentOf(p) + SpendingOf(p))
    ensures Committed(ps + [p], ALL) == Committed(ps, ALL) + CommitmentOf(p)
    ensures Committed(ps + [p], t) == Committed(ps, t) + if Covers(t, p) then CommitmentOf(p) else 0
  {
    Appended(ps, p, ALL);
    Appended(ps, p, t);
  }

  /**
   The sums do break: committing five of ten cents to a task and releasing five under the empty
   id makes all ten available while the task still holds five.
  */
  lemma EmptyTaskIdBreaksSums(t: TaskId)
    requires t != ALL && t != POOL
    ensures var ps := RunOps([SetTotal(10)] + [CommitOp(t, 5)] + [ReleaseOp(ALL, 5)]);
            && Lists([POOL, t], ps) && !Agree(ps, [POOL, t])
            && Available(ps) == 10 && Committed(ps, t) == 5 && Committed(ps, ALL) == 0
  {
    var p, q, r := Posting(POOL, TransferIn, 10), Posting(t, Commit, 5), Posting(ALL, Release, 5);
    var first := [SetTotal(10)];
    RunOne([], SetTotal(10));
    assert [] + first == first;
    assert RunOps(first) == [p];
    RunOne(first, CommitOp(t, 5));
    OneEach(t, p);
    assert RunOps(first + [CommitOp(t, 5)]) == [p] + [q];
    RunOne(first + [CommitOp(t, 5)], ReleaseOp(ALL, 5));
    AppendedFor([p], q, t);
    AppendedFor([p], q, POOL);
    assert RunOps(first + [CommitOp(t, 5)] + [ReleaseOp(ALL, 5)]) == [p] + [q] + [r];
    AppendedFor([p] + [q], r, t);
    AppendedFor([p] + [q], r, POOL);
    TwoNames([p] + [q] + [r], t);
  }

  lemma OneEach(t: TaskId, p: Posting)
    requires t != ALL && t != POOL && p == Posting(POOL, TransferIn, 10)
    ensures Total([p]) == 10 && Available([p]) == 10 && Committed([p], ALL) == 0
    ensures Committed([p], t) == 0 && Committed([p], POOL) == 0
  {
    AppendedFor([], p, t);
    AppendedFor([], p, POOL);
    assert [] + [p] == [p];
  }

  lemma TwoNames(ps: seq<Posting>, t: TaskId)
    ensures CommittedTo(ps, [POOL, t]) == Committed(ps, POOL) + Committed(ps, t)
  {
    assert [POOL, t][1..] == [t] && [t][1..] == [];
    assert CommittedTo(ps, [t]) == Committed(ps, t);
  }
}
