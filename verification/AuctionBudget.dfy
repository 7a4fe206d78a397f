/**
 The money of the auction service: adding an item commits its budget and expands the total
 when that is needed, removing it releases what is committed, and paying for a won item spends
 the price and releases the rest. The clock and the adapter's deadlines do not matter here.
*/
module AuctionBudget {
  import opened Wrappers
  import opened Ledger
  import IM = ItemMachine
  import BE = BudgetEngines

  datatype Item = Item(state: IM.State, budgetCents: int, bids: seq<int>, winPrice: Option<int>)

  /** `issued` holds the item ids given out so far; new ids are fresh. */
  datatype Shop = Shop(items: map<TaskId, Item>, ledger: seq<Posting>, issued: set<TaskId>)

  datatype BidResult = HighBidder | OutbidNow | BidRejected

  datatype Event =
    | AddItem(id: TaskId, budget: int)
    | RemoveItem(id: TaskId)
    | ArmItem(id: TaskId)
    | DisarmItem(id: TaskId)
    | BidBegins(id: TaskId)
    | BidEnds(id: TaskId, cents: int, result: BidResult)
    | MarkWon(id: TaskId, price: Option<int>)
    | MarkPaid(id: TaskId)
    | MarkOverdue(id: TaskId)

  function Sent(s: Shop, id: TaskId, e: IM.Event): Shop
    requires id in s.items
  {
    s.(items := s.items[id := s.items[id].(state := IM.Next(s.items[id].state, e))])
  }

  /** The ledger after the item's allocation; an error in between ends it. */
  function Allocated(ps: seq<Posting>, id: TaskId, budget: int): Result<seq<Posting>, BudgetError> {
    var op := SetTotal(Total(ps) + (budget - Available(ps)));
    if Available(ps) < budget && Decide(ps, op).Err? then Err(Decide(ps, op).error)
    else
      var expanded := if Available(ps) < budget then Apply(ps, op) else ps;
      var d := Decide(expanded, CommitOp(id, budget));
      if d.Err? then Err(d.error) else Ok(Apply(expanded, CommitOp(id, budget)))
  }

  /** An allocation that fails after expanding keeps the expansion. */
  function LedgerAfterAdd(ps: seq<Posting>, id: TaskId, budget: int): seq<Posting> {
    var a := Allocated(ps, id, budget);
    if a.Ok? then a.value
    else if Available(ps) < budget then Apply(ps, SetTotal(Total(ps) + (budget - Available(ps))))
    else ps
  }

  function AfterAdd(s: Shop, id: TaskId, budget: int): Shop {
    s.(items := s.items[id := Item(IM.Watching, budget, [], None)], issued := s.issued + {id},
       ledger := LedgerAfterAdd(s.ledger, id, budget))
  }

  function AfterRemove(s: Shop, id: TaskId): Shop
    requires id in s.items
  {
    var s1 := Sent(s, id, IM.OnCancel);
    var committed := Committed(s.ledger, id);
    var op := ReleaseOp(id, committed);
    if committed > 0 && Decide(s.ledger, op).Err? then s1
    else s1.(ledger := ReleaseSome(s.ledger, id, committed), items := s1.items - {id})
  }

  function LastBid(bids: seq<int>): int {
    if bids == [] then 0 else bids[|bids| - 1]
  }

  function AfterWon(s: Shop, id: TaskId, price: Option<int>): Shop
    requires id in s.items
  {
    var final := if price.Some? then price.value else LastBid(s.items[id].bids);
    var s1 := Sent(s, id, IM.OnMarkWon);
    if !s1.items[id].state.Won? then s1
    else
      var s2 := Sent(s1, id, IM.OnPromoteToPendingPayment);
      s2.(items := s2.items[id := s2.items[id].(winPrice := Some(final))])
  }

  function SpendSome(ps: seq<Posting>, id: TaskId, cents: int): seq<Posting> {
    if cents > 0 then Apply(ps, SpendOp(id, cents)) else ps
  }

  function ReleaseSome(ps: seq<Posting>, id: TaskId, cents: int): seq<Posting> {
    if cents > 0 then Apply(ps, ReleaseOp(id, cents)) else ps
  }

  /** What paying does to the ledger: a refused spending ends it, a refused release comes after the spending. */
  function Settled(ps: seq<Posting>, id: TaskId, winPrice: Option<int>): seq<Posting> {
    var committed := Committed(ps, id);
    if committed <= 0 then ps
    else
      var spend := Min(if winPrice.Some? then winPrice.value else committed, committed);
      if spend > 0 && Decide(ps, SpendOp(id, spend)).Err? then ps
      else ReleaseSome(SpendSome(ps, id, spend), id, committed - spend)
  }

  function BidEvent(r: BidResult): IM.Event {
    match r
    case HighBidder => IM.OnBidWinning
    case OutbidNow => IM.OnBidOutbid
    case BidRejected => IM.OnBidFailed
  }

  function Step(s: Shop, e: Event): Shop {
    match e
    case AddItem(id, budget) => if id == ALL || id in s.issued then s else AfterAdd(s, id, budget)
    case RemoveItem(id) => if id in s.items then AfterRemove(s, id) else s
    case ArmItem(id) => if id in s.items then Sent(s, id, IM.OnArm) else s
    case DisarmItem(id) => if id in s.items then Sent(s, id, IM.OnDisarm) else s
    case BidBegins(id) => if id in s.items then Sent(s, id, IM.OnExecuteBid) else s
    case BidEnds(id, cents, result) =>
      if id !in s.items then s
      else Sent(s.(items := s.items[id := s.items[id].(bids := s.items[id].bids + [cents])]), id, BidEvent(result))
    case MarkWon(id, price) => if id in s.items then AfterWon(s, id, price) else s
    case MarkPaid(id) =>
      if id in s.items && s.items[id].state.PendingUserPayment? then
        Sent(s, id, IM.OnUserMarkPaid).(ledger := Settled(s.ledger, id, s.items[id].winPrice))
      else s
    case MarkOverdue(id) =>
      if id in s.items && s.items[id].state.PendingUserPayment? then Sent(s, id, IM.OnPaymentDeadlineHit) else s
  }

  function Run(es: seq<Event>): Shop {
    if es == [] then Shop(map[], [], {}) else Step(Run(es[..|es| - 1]), es[|es| - 1])
  }

  /** Money committed or spent. */
  function Used(ps: seq<Posting>): int {
    Committed(ps, ALL) + Spent(ps, ALL)
  }

  /** The most that was ever committed or spent at once. */
  function Peak(es: seq<Event>): int {
    if es == [] then 0 else Max(Peak(es[..|es| - 1]), Used(Run(es).ledger))
  }

  /** The item an event adds, if its budget is allocated. */
  function FundedBy(s: Shop, e: Event): set<TaskId> {
    if e.AddItem? && e.id != ALL && e.id !in s.issued && Allocated(s.ledger, e.id, e.budget).Ok? then {e.id} else {}
  }

  /** The items whose budget was allocated in the run. */
  function Funded(es: seq<Event>): set<TaskId> {
    if es == [] then {}
    else Funded(es[..|es| - 1]) + FundedBy(Run(es[..|es| - 1]), es[|es| - 1])
  }

  /** What an item holds, and what it has cost. */
  datatype Share = Share(held: int, cost: int)

  /**
   An item whose budget was allocated holds all of it until it is paid for at a price that is
   not negative; from then on it has cost the price, up to the budget, and holds nothing.
  */
  function ShareOf(item: Item, funded: bool): Share {
    if !funded then Share(0, 0)
    else if item.state.Paid? && item.winPrice.Some? && item.winPrice.value >= 0 then
      Share(0, Min(item.winPrice.value, item.budgetCents))
    else Share(item.budgetCents, 0)
  }

  ghost predicate ItemOk(ps: seq<Posting>, id: TaskId, item: Item, funded: bool) {
    && Share(Committed(ps, id), Spent(ps, id)) == ShareOf(item, funded)
    && (funded ==> IsMoney(item.budgetCents))
    && (item.state.PendingUserPayment? || item.state.Paid? ==> item.winPrice.Some?)
    && !item.state.Won?
  }

  ghost predicate Accounts(s: Shop, funded: set<TaskId>) {
    && ALL !in s.issued && s.items.Keys <= s.issued && funded <= s.issued
    && (forall id :: id in s.items ==> ItemOk(s.ledger, id, s.items[id], id in funded))
    && (forall t :: t != ALL && t !in s.items ==> Committed(s.ledger, t) == 0)
    && (forall t :: t != ALL && t !in s.issued ==> Spent(s.ledger, t) == 0)
  }

  ghost predicate Inv(s: Shop, peak: int, funded: set<TaskId>) {
    && Sound(s.ledger) && Accounts(s, funded)
    && Total(s.ledger) == peak && Used(s.ledger) <= peak <= MAX_SAFE
  }

  lemma AppliedTo(ps: seq<Posting>, op: Op, t: TaskId)
    requires !op.SetTotal? && t != ALL && op.taskId != ALL && t != op.taskId
    ensures Committed(Apply(ps, op), t) == Committed(ps, t) && Spent(Apply(ps, op), t) == Spent(ps, t)
  {
    var d := Decide(ps, op);
    if d.Ok? && d.value.Some? { Appended(ps, d.value.value, t); }
  }

  lemma TotalSetFor(ps: seq<Posting>, cents: int, t: TaskId)
    ensures Committed(Apply(ps, SetTotal(cents)), t) == Committed(ps, t)
    ensures Spent(Apply(ps, SetTotal(cents)), t) == Spent(ps, t)
  {
    var d := Decide(ps, SetTotal(cents));
    if d.Ok? && d.value.Some? { Appended(ps, d.value.value, t); }
  }

  /**
   The commitment inside an allocation never fails for lack of budget: the allocation fails
   exactly when the budget is no amount of money or the expanded total would not be one. When
   it succeeds, the total becomes the larger of itself and the money then in use.
  */
  lemma AllocationExactly(ps: seq<Posting>, id: TaskId, budget: int)
    requires id != ALL && 0 <= Used(ps) <= Total(ps) <= MAX_SAFE
    ensures var a := Allocated(ps, id, budget);
            && (a.Err? <==> budget < 0 || Used(ps) + budget > 9007199254740991)
            && (a.Err? ==> a.error == InvalidMoney)
            && (a.Err? && Available(ps) < budget ==> Apply(ps, SetTotal(Used(ps) + budget)) == ps)
            && (a.Ok? ==>
                  && Used(a.value) == Used(ps) + budget
                  && Total(a.value) == Max(Total(ps), Used(ps) + budget)
                  && Committed(a.value, id) == Committed(ps, id) + budget
                  && Spent(a.value, id) == Spent(ps, id))
  {
    var op := SetTotal(Total(ps) + (budget - Available(ps)));
    assert op.cents == Used(ps) + budget;
    Expanding(ps, budget, id);
    if Available(ps) >= budget {
      CommittingTo(ps, id, budget);
    } else if Decide(ps, op).Ok? {
      CommittingTo(Apply(ps, op), id, budget);
    }
  }

  lemma AllocationKeepsOthers(ps: seq<Posting>, id: TaskId, budget: int)
    requires id != ALL && Allocated(ps, id, budget).Ok?
    ensures OthersKept(ps, Allocated(ps, id, budget).value, id)
  {
    var op := SetTotal(Total(ps) + (budget - Available(ps)));
    var expanded := if Available(ps) < budget then Apply(ps, op) else ps;
    forall t | t != ALL && t != id
      ensures Committed(Apply(expanded, CommitOp(id, budget)), t) == Committed(ps, t)
      ensures Spent(Apply(expanded, CommitOp(id, budget)), t) == Spent(ps, t)
    {
      TotalSetFor(ps, op.cents, t);
      AppliedTo(expanded, CommitOp(id, budget), t);
    }
  }

  /** Expanding the total makes it exactly what committing `budget` needs, and moves no other balance. */
  lemma Expanding(ps: seq<Posting>, budget: int, id: TaskId)
    requires 0 <= Used(ps) <= Total(ps) <= MAX_SAFE
    ensures var op := SetTotal(Used(ps) + budget);
            Available(ps) < budget && Decide(ps, op).Ok? ==>
              var qs := Apply(ps, op);
              Total(qs) == Used(ps) + budget && Used(qs) == Used(ps) && Available(qs) == budget
    ensures var qs := Apply(ps, SetTotal(Used(ps) + budget));
            Committed(qs, id) == Committed(ps, id) && Spent(qs, id) == Spent(ps, id)
  {
    var op := SetTotal(Used(ps) + budget);
    if Decide(ps, op).Ok? { OpEffect(ps, op); }
    TotalSetFor(ps, op.cents, id);
  }

  lemma CommittingTo(ps: seq<Posting>, id: TaskId, budget: int)
    requires id != ALL && budget <= Available(ps)
    ensures Decide(ps, CommitOp(id, budget)).Ok? <==> IsMoney(budget)
    ensures var qs := Apply(ps, CommitOp(id, budget));
            IsMoney(budget) ==>
              && Total(qs) == Total(ps) && Used(qs) == Used(ps) + budget
              && Committed(qs, id) == Committed(ps, id) + budget && Spent(qs, id) == Spent(ps, id)
  {
    var p := Posting(id, Commit, budget);
    Appended(ps, p, id);
    Appended(ps, p, ALL);
  }

  lemma UsedIsNotNegative(ps: seq<Posting>)
    requires Sound(ps)
    ensures Used(ps) >= 0
  {
  }

  lemma SoundAllocated(ps: seq<Posting>, id: TaskId, budget: int)
    requires Sound(ps) && id != ALL
    ensures Allocated(ps, id, budget).Ok? ==> Sound(Allocated(ps, id, budget).value)
  {
    var op := SetTotal(Total(ps) + (budget - Available(ps)));
    SoundStep(ps, op);
    SoundStep(if Available(ps) < budget then Apply(ps, op) else ps, CommitOp(id, budget));
  }

  /** The balances of every task but `id` are as before. */
  ghost predicate OthersKept(ps: seq<Posting>, qs: seq<Posting>, id: TaskId) {
    forall t :: t != ALL && t != id ==> Committed(qs, t) == Committed(ps, t) && Spent(qs, t) == Spent(ps, t)
  }

  lemma AccountsOfOne(s: Shop, s': Shop, id: TaskId, funded: set<TaskId>, funded': set<TaskId>)
    requires Accounts(s, funded) && OthersKept(s.ledger, s'.ledger, id) && id != ALL
    requires s'.issued == s.issued + {id} && funded <= funded' <= funded + {id}
    requires forall t :: t != id ==> (t in s'.items <==> t in s.items) && (t in s.items ==> s'.items[t] == s.items[t])
    requires id in s'.items ==> ItemOk(s'.ledger, id, s'.items[id], id in funded')
    requires id !in s'.items ==> Committed(s'.ledger, id) == 0
    ensures Accounts(s', funded')
  {
    forall t | t in s'.items ensures ItemOk(s'.ledger, t, s'.items[t], t in funded') {
      if t != id {
        assert ItemOk(s.ledger, t, s.items[t], t in funded) && t != ALL;
      }
    }
  }

  lemma InvAdd(s: Shop, peak: int, funded: set<TaskId>, id: TaskId, budget: int)
    requires Inv(s, peak, funded) && id != ALL && id !in s.issued
    ensures var s' := AfterAdd(s, id, budget);
            Inv(s', Max(peak, Used(s'.ledger)), funded + FundedBy(s, AddItem(id, budget)))
  {
    var s' := AfterAdd(s, id, budget);
    UsedIsNotNegative(s.ledger);
    AllocationExactly(s.ledger, id, budget);
    SoundAllocated(s.ledger, id, budget);
    assert Total(s.ledger) + (budget - Available(s.ledger)) == Used(s.ledger) + budget;
    assert Committed(s.ledger, id) == 0 && Spent(s.ledger, id) == 0;
    if Allocated(s.ledger, id, budget).Ok? {
      AllocationKeepsOthers(s.ledger, id, budget);
    } else {
      assert s'.ledger == s.ledger;
    }
    AccountsOfOne(s, s', id, funded, funded + FundedBy(s, AddItem(id, budget)));
  }

  lemma OneEntry(ps: seq<Posting>, op: Op, p: Posting, id: TaskId)
    requires id != ALL && p.taskId == id && !op.SetTotal? && op.taskId == id && Decide(ps, op) == Ok(Some(p))
    ensures var qs := Apply(ps, op);
            && OthersKept(ps, qs, id) && Total(qs) == Total(ps) + TransferOf(p)
            && Committed(qs, id) == Committed(ps, id) + CommitmentOf(p)
            && Spent(qs, id) == Spent(ps, id) + SpendingOf(p)
            && Committed(qs, ALL) == Committed(ps, ALL) + CommitmentOf(p)
            && Spent(qs, ALL) == Spent(ps, ALL) + SpendingOf(p)
  {
    Appended(ps, p, id);
    Appended(ps, p, ALL);
    forall t | t != ALL && t != id
      ensures Committed(Apply(ps, op), t) == Committed(ps, t) && Spent(Apply(ps, op), t) == Spent(ps, t)
    {
      AppliedTo(ps, op, t);
    }
  }

  lemma Releasing(ps: seq<Posting>, id: TaskId, cents: int)
    requires Sound(ps) && id != ALL && 0 <= cents <= Committed(ps, id) && IsMoney(cents)
    ensures Decide(ps, ReleaseOp(id, cents)).Ok?
    ensures Sound(ReleaseSome(ps, id, cents)) && OthersKept(ps, ReleaseSome(ps, id, cents), id)
    ensures var qs := ReleaseSome(ps, id, cents);
            && Total(qs) == Total(ps) && Committed(qs, id) == Committed(ps, id) - cents
            && Spent(qs, id) == Spent(ps, id)
            && Committed(qs, ALL) == Committed(ps, ALL) - cents && Spent(qs, ALL) == Spent(ps, ALL)
  {
    if cents > 0 {
      var op, p := ReleaseOp(id, cents), Posting(id, Release, cents);
      SoundStep(ps, op);
      OneEntry(ps, op, p, id);
    }
  }

  lemma Spending(ps: seq<Posting>, id: TaskId, cents: int)
    requires Sound(ps) && id != ALL && 0 <= cents <= Committed(ps, id) && IsMoney(cents)
    ensures Decide(ps, SpendOp(id, cents)).Ok?
    ensures Sound(SpendSome(ps, id, cents)) && OthersKept(ps, SpendSome(ps, id, cents), id)
    ensures var qs := SpendSome(ps, id, cents);
            && Total(qs) == Total(ps) && Committed(qs, id) == Committed(ps, id) - cents
            && Spent(qs, id) == Spent(ps, id) + cents
            && Spent(qs, ALL) == Spent(ps, ALL) + cents && Used(qs) == Used(ps)
  {
    if cents > 0 {
      var op, p := SpendOp(id, cents), Posting(id, Spend, cents);
      SoundStep(ps, op);
      OneEntry(ps, op, p, id);
    }
  }

  lemma InvRemove(s: Shop, peak: int, funded: set<TaskId>, id: TaskId)
    requires Inv(s, peak, funded) && id in s.items
    ensures var s' := AfterRemove(s, id); Inv(s', Max(peak, Used(s'.ledger)), funded) && id !in s'.items
  {
    var committed := Committed(s.ledger, id);
    assert ItemOk(s.ledger, id, s.items[id], id in funded) && id != ALL;
    Releasing(s.ledger, id, committed);
    AccountsOfOne(s, AfterRemove(s, id), id, funded, funded);
  }

  /**
   Paying for a won item at a price that is not negative leaves nothing committed to it, spends
   the price up to what was committed, and releases the rest. At a negative price the release
   is refused and the ledger stays as it is.
  */
  lemma SettledExactly(ps: seq<Posting>, id: TaskId, price: int)
    requires Sound(ps) && id != ALL && IsMoney(Committed(ps, id))
    ensures var qs := Settled(ps, id, Some(price));
            var c := Committed(ps, id);
            && Sound(qs) && Total(qs) == Total(ps) && OthersKept(ps, qs, id)
            && (price < 0 ==> qs == ps)
            && (price >= 0 ==>
                  && Committed(qs, id) == 0
                  && Spent(qs, id) == Spent(ps, id) + Min(price, c)
                  && Used(qs) == Used(ps) - (c - Min(price, c)))
  {
    var c := Committed(ps, id);
    if c > 0 && price >= 0 {
      var spend := Min(price, c);
      var spent := SpendSome(ps, id, spend);
      Spending(ps, id, spend);
      Releasing(spent, id, c - spend);
      OthersKeptTwice(ps, spent, ReleaseSome(spent, id, c - spend), id);
    }
  }

  lemma OthersKeptTwice(ps: seq<Posting>, qs: seq<Posting>, rs: seq<Posting>, id: TaskId)
    requires OthersKept(ps, qs, id) && OthersKept(qs, rs, id)
    ensures OthersKept(ps, rs, id)
  {
    forall t | t != ALL && t != id ensures Committed(rs, t) == Committed(ps, t) && Spent(rs, t) == Spent(ps, t) {
      assert Committed(qs, t) == Committed(ps, t) && Committed(rs, t) == Committed(qs, t);
    }
  }

  lemma InvPaid(s: Shop, peak: int, funded: set<TaskId>, id: TaskId)
    requires Inv(s, peak, funded) && id in s.items && s.items[id].state.PendingUserPayment?
    ensures var s' := Step(s, MarkPaid(id)); Inv(s', Max(peak, Used(s'.ledger)), funded)
  {
    var item := s.items[id];
    assert ItemOk(s.ledger, id, item, id in funded) && id != ALL;
    var qs := Settled(s.ledger, id, item.winPrice);
    SettledExactly(s.ledger, id, item.winPrice.value);
    PaidAccounts(s, funded, id, qs);
  }

  lemma PaidAccounts(s: Shop, funded: set<TaskId>, id: TaskId, qs: seq<Posting>)
    requires Accounts(s, funded) && id in s.items && id != ALL
    requires s.items[id].state.PendingUserPayment? && s.items[id].winPrice.Some?
    requires OthersKept(s.ledger, qs, id)
    requires s.items[id].winPrice.value < 0 ==> qs == s.ledger
    requires var c, price := Committed(s.ledger, id), s.items[id].winPrice.value;
             price >= 0 ==> Committed(qs, id) == 0 && Spent(qs, id) == Spent(s.ledger, id) + Min(price, c)
    ensures Accounts(Sent(s, id, IM.OnUserMarkPaid).(ledger := qs), funded)
  {
    assert ItemOk(s.ledger, id, s.items[id], id in funded);
    AccountsOfOne(s, Sent(s, id, IM.OnUserMarkPaid).(ledger := qs), id, funded, funded);
  }

  lemma ItemMoves(s: IM.State, e: IM.Event)
    ensures !e.OnUserMarkPaid? && !e.OnAdapterDetectPaid? ==> (IM.Next(s, e).Paid? <==> s.Paid?)
    ensures !e.OnPromoteToPendingPayment? ==> IM.Next(s, e).PendingUserPayment? ==> s.PendingUserPayment?
    ensures !e.OnMarkWon? && !s.Won? ==> !IM.Next(s, e).Won?
  {
  }

  /** Events that touch no money keep the accounts. */
  lemma InvSent(s: Shop, peak: int, funded: set<TaskId>, id: TaskId, e: IM.Event)
    requires Inv(s, peak, funded) && id in s.items
    requires !e.OnUserMarkPaid? && !e.OnAdapterDetectPaid? && !e.OnPromoteToPendingPayment? && !e.OnMarkWon?
    ensures Inv(Sent(s, id, e), peak, funded)
  {
    ItemMoves(s.items[id].state, e);
    assert ItemOk(s.ledger, id, s.items[id], id in funded);
  }

  lemma InvBid(s: Shop, peak: int, funded: set<TaskId>, id: TaskId, cents: int)
    requires Inv(s, peak, funded) && id in s.items
    ensures Inv(s.(items := s.items[id := s.items[id].(bids := s.items[id].bids + [cents])]), peak, funded)
  {
    assert ItemOk(s.ledger, id, s.items[id], id in funded);
  }

  /** What winning does to the item: nothing, or it waits for payment at some price. */
  lemma WonIs(s: Shop, id: TaskId, price: Option<int>, item: Item)
    requires id in s.items && item == s.items[id] && !item.state.Won?
    ensures var s' := AfterWon(s, id, price);
            && s' == s.(items := s.items[id := s'.items[id]])
            && (s'.items[id] != item ==>
                  && item.state.Winning? && s'.items[id].winPrice.Some?
                  && s'.items[id] == item.(state := IM.PendingUserPayment, winPrice := s'.items[id].winPrice))
  {
  }

  lemma InvWon(s: Shop, peak: int, funded: set<TaskId>, id: TaskId, price: Option<int>)
    requires Inv(s, peak, funded) && id in s.items
    ensures Inv(AfterWon(s, id, price), peak, funded)
  {
    assert ItemOk(s.ledger, id, s.items[id], id in funded);
    WonIs(s, id, price, s.items[id]);
  }

  lemma InvStep(s: Shop, peak: int, funded: set<TaskId>, e: Event)
    requires Inv(s, peak, funded)
    ensures Inv(Step(s, e), Max(peak, Used(Step(s, e).ledger)), funded + FundedBy(s, e))
  {
    assert !e.AddItem? ==> funded + FundedBy(s, e) == funded;
    match e
    case AddItem(id, budget) => if id != ALL && id !in s.issued { InvAdd(s, peak, funded, id, budget); }
    case RemoveItem(id) => if id in s.items { InvRemove(s, peak, funded, id); }
    case ArmItem(id) => if id in s.items { InvSent(s, peak, funded, id, IM.OnArm); }
    case DisarmItem(id) => if id in s.items { InvSent(s, peak, funded, id, IM.OnDisarm); }
    case BidBegins(id) => if id in s.items { InvSent(s, peak, funded, id, IM.OnExecuteBid); }
    case BidEnds(id, cents, result) =>
      if id in s.items {
        InvBid(s, peak, funded, id, cents);
        var bid := s.(items := s.items[id := s.items[id].(bids := s.items[id].bids + [cents])]);
        InvSent(bid, peak, funded, id, BidEvent(result));
      }
    case MarkWon(id, price) => if id in s.items { InvWon(s, peak, funded, id, price); }
    case MarkPaid(id) => if id in s.items && s.items[id].state.PendingUserPayment? { InvPaid(s, peak, funded, id); }
    case MarkOverdue(id) => if id in s.items { InvSent(s, peak, funded, id, IM.OnPaymentDeadlineHit); }
  }

  /**
   Over any run the total budget is the high-water mark of the money in use, so the available
   budget is never negative; and nothing stays committed to an item that is gone.
  */
  lemma {:induction false} HighWaterMark(es: seq<Event>)
    ensures Inv(Run(es), Peak(es), Funded(es))
    ensures Total(Run(es).ledger) == Peak(es) && Available(Run(es).ledger) >= 0
    ensures forall t :: t != ALL && t !in Run(es).items ==> Committed(Run(es).ledger, t) == 0
  {
    if es != [] {
      HighWaterMark(es[..|es| - 1]);
      InvStep(Run(es[..|es| - 1]), Peak(es[..|es| - 1]), Funded(es[..|es| - 1]), es[|es| - 1]);
    }
  }

  /**
   In every reachable state an item holds its budget and has cost nothing, or was paid for at a
   price that is not negative, holds nothing, and has cost the smaller of price and budget; an
   item whose budget could not be allocated holds nothing and costs nothing.
  */
  lemma ItemCosts(es: seq<Event>, id: TaskId)
    requires id in Run(es).items
    ensures var s := Run(es);
            && Share(Committed(s.ledger, id), Spent(s.ledger, id)) == ShareOf(s.items[id], id in Funded(es))
            && (s.items[id].state.Paid? ==> s.items[id].winPrice.Some?)
  {
    HighWaterMark(es);
    assert ItemOk(Run(es).ledger, id, Run(es).items[id], id in Funded(es));
  }

  /**
   Removing an item, in whatever reachable state, makes available what the item holds and
   spends nothing; so it leaves the available money as it is exactly when the item holds none.
  */
  lemma RemovalRefunds(es: seq<Event>, id: TaskId)
    requires id in Run(es).items
    ensures var s, s' := Run(es), Step(Run(es), RemoveItem(id));
            && id !in s'.items && OthersKept(s.ledger, s'.ledger, id)
            && Available(s'.ledger) == Available(s.ledger) + Committed(s.ledger, id)
            && Total(s'.ledger) == Total(s.ledger)
            && Spent(s'.ledger, ALL) == Spent(s.ledger, ALL) && Spent(s'.ledger, id) == Spent(s.ledger, id)
            && (Available(s'.ledger) == Available(s.ledger) <==> Committed(s.ledger, id) == 0)
  {
    HighWaterMark(es);
    Removal(Run(es), Peak(es), Funded(es), id);
  }

  lemma Removal(s: Shop, peak: int, funded: set<TaskId>, id: TaskId)
    requires Inv(s, peak, funded) && id in s.items
    ensures var s' := AfterRemove(s, id);
            && id !in s'.items && OthersKept(s.ledger, s'.ledger, id)
            && Available(s'.ledger) == Available(s.ledger) + Committed(s.ledger, id)
            && Total(s'.ledger) == Total(s.ledger)
            && Spent(s'.ledger, ALL) == Spent(s.ledger, ALL) && Spent(s'.ledger, id) == Spent(s.ledger, id)
  {
    assert ItemOk(s.ledger, id, s.items[id], id in funded) && id != ALL;
    Releasing(s.ledger, id, Committed(s.ledger, id));
  }

  lemma RunAppend(es: seq<Event>, e: Event)
    ensures Run(es + [e]) == Step(Run(es), e)
  {
    assert (es + [e])[..|es|] == es;
  }

  /** The shop with one item and the ledger of its allocation. */
  function OneItem(id: TaskId, budget: int, state: IM.State, bids: seq<int>, winPrice: Option<int>): Shop {
    Shop(map[id := Item(state, budget, bids, winPrice)], LedgerAfterAdd([], id, budget), {id})
  }

  lemma OneIsAdded(id: TaskId, budget: int)
    requires id != ALL
    ensures Step(Run([]), AddItem(id, budget)) == OneItem(id, budget, IM.Watching, [], None)
  {
  }

  lemma OneIsSent(id: TaskId, budget: int, state: IM.State, bids: seq<int>, winPrice: Option<int>, e: IM.Event)
    ensures Sent(OneItem(id, budget, state, bids, winPrice), id, e)
            == OneItem(id, budget, IM.Next(state, e), bids, winPrice)
  {
    var item := Item(state, budget, bids, winPrice);
    assert map[id := item][id := item.(state := IM.Next(state, e))] == map[id := item.(state := IM.Next(state, e))];
  }

  lemma OneBids(id: TaskId, budget: int, cents: int)
    ensures Step(OneItem(id, budget, IM.Bidding, [], None), BidEnds(id, cents, HighBidder))
            == OneItem(id, budget, IM.Winning, [cents], None)
  {
    var bid := Item(IM.Bidding, budget, [cents], None);
    assert [] + [cents] == [cents];
    assert map[id := Item(IM.Bidding, budget, [], None)][id := bid] == map[id := bid];
    OneIsSent(id, budget, IM.Bidding, [cents], None, IM.OnBidWinning);
  }

  lemma OneIsWon(id: TaskId, budget: int, cents: int)
    ensures Step(OneItem(id, budget, IM.Winning, [cents], None), MarkWon(id, None))
            == OneItem(id, budget, IM.PendingUserPayment, [cents], Some(cents))
  {
    OneIsSent(id, budget, IM.Winning, [cents], None, IM.OnMarkWon);
    OneIsSent(id, budget, IM.Won, [cents], None, IM.OnPromoteToPendingPayment);
    var item := Item(IM.PendingUserPayment, budget, [cents], None);
    assert map[id := item][id := item.(winPrice := Some(cents))] == map[id := item.(winPrice := Some(cents))];
  }

  lemma RunTo(es: seq<Event>, e: Event, s: Shop, s': Shop)
    requires Run(es) == s && Step(s, e) == s'
    ensures Run(es + [e]) == s'
  {
    RunAppend(es, e);
  }

  /** An auction won at `price`, not yet paid for. */
  lemma WonRun(id: TaskId, budget: int, price: int) returns (es: seq<Event>)
    requires id != ALL
    ensures Run(es) == OneItem(id, budget, IM.PendingUserPayment, [price], Some(price))
  {
    var watching, armed := OneItem(id, budget, IM.Watching, [], None), OneItem(id, budget, IM.Armed, [], None);
    var bidding := OneItem(id, budget, IM.Bidding, [], None);
    var winning := OneItem(id, budget, IM.Winning, [price], None);
    OneIsAdded(id, budget);
    OneIsSent(id, budget, IM.Watching, [], None, IM.OnArm);
    OneIsSent(id, budget, IM.Armed, [], None, IM.OnExecuteBid);
    OneBids(id, budget, price);
    OneIsWon(id, budget, price);
    es := RunFive(id, budget, price, Run([]), watching, armed, bidding, winning,
                  OneItem(id, budget, IM.PendingUserPayment, [price], Some(price)));
  }

  lemma RunFive(id: TaskId, budget: int, price: int, s0: Shop, s1: Shop, s2: Shop, s3: Shop, s4: Shop, s5: Shop)
    returns (es: seq<Event>)
    requires s0 == Run([]) && s1 == Step(s0, AddItem(id, budget)) && s2 == Step(s1, ArmItem(id))
    requires s3 == Step(s2, BidBegins(id)) && s4 == Step(s3, BidEnds(id, price, HighBidder))
    requires s5 == Step(s4, MarkWon(id, None))
    ensures Run(es) == s5
  {
    es := [];
    RunTo(es, AddItem(id, budget), s0, s1);
    es := es + [AddItem(id, budget)];
    RunTo(es, ArmItem(id), s1, s2);
    es := es + [ArmItem(id)];
    RunTo(es, BidBegins(id), s2, s3);
    es := es + [BidBegins(id)];
    RunTo(es, BidEnds(id, price, HighBidder), s3, s4);
    es := es + [BidEnds(id, price, HighBidder)];
    RunTo(es, MarkWon(id, None), s4, s5);
    es := es + [MarkWon(id, None)];
  }

  /** An item that is won and waits for payment is refunded like any other: all its budget is available again. */
  lemma WonItemIsRefunded(id: TaskId, budget: int, price: int) returns (es: seq<Event>)
    requires id != ALL && 0 < budget <= MAX_SAFE
    ensures id in Run(es).items && Run(es).items[id].state.PendingUserPayment?
    ensures Available(Run(es).ledger) == 0 && Available(Step(Run(es), RemoveItem(id)).ledger) == budget
  {
    es := WonRun(id, budget, price);
    AllocationExactly([], id, budget);
    RemovalRefunds(es, id);
  }

  // ----- the implementation

  /** Paying meets no refusal. */
  predicate SettlesFully(ps: seq<Posting>, id: TaskId, winPrice: Option<int>) {
    var committed := Committed(ps, id);
    committed <= 0 ||
    var spend := Min(if winPrice.Some? then winPrice.value else committed, committed);
    && (spend <= 0 || Decide(ps, SpendOp(id, spend)).Ok?)
    && (committed - spend <= 0 || Decide(SpendSome(ps, id, spend), ReleaseOp(id, committed - spend)).Ok?)
  }

  /** In every reachable state it meets one exactly when the price is negative and the item holds money. */
  lemma SettlesFullyExactly(es: seq<Event>, id: TaskId, price: int)
    requires id in Run(es).items
    ensures SettlesFully(Run(es).ledger, id, Some(price)) <==> price >= 0 || Committed(Run(es).ledger, id) == 0
  {
    HighWaterMark(es);
    var ps, c := Run(es).ledger, Committed(Run(es).ledger, id);
    assert ItemOk(ps, id, Run(es).items[id], id in Funded(es));
    if price >= 0 {
      Spending(ps, id, Min(price, c));
      Releasing(SpendSome(ps, id, Min(price, c)), id, c - Min(price, c));
    }
  }

  /** Paying in the two steps the service takes; `ok` says whether the spending was accepted. */
  lemma SettledInSteps(ps: seq<Posting>, qs: seq<Posting>, id: TaskId, winPrice: Option<int>, spend: int, ok: bool)
    requires Committed(ps, id) > 0 && (ok <==> spend <= 0 || Decide(ps, SpendOp(id, spend)).Ok?)
    requires spend == Min(if winPrice.Some? then winPrice.value else Committed(ps, id), Committed(ps, id))
    requires qs == SpendSome(ps, id, spend)
    ensures Settled(ps, id, winPrice) == if ok then ReleaseSome(qs, id, Committed(ps, id) - spend) else qs
  {
  }

  lemma ExpansionRefused(ps: seq<Posting>, id: TaskId, budget: int)
    requires Available(ps) < budget && Decide(ps, SetTotal(Total(ps) + (budget - Available(ps)))).Err?
    ensures LedgerAfterAdd(ps, id, budget) == ps
    ensures AsResult(Allocated(ps, id, budget))
            == AsResult(Decide(ps, SetTotal(Total(ps) + (budget - Available(ps)))))
  {
  }

  lemma AllocatedInSteps(ps: seq<Posting>, qs: seq<Posting>, rs: seq<Posting>, id: TaskId, budget: int)
    requires var op := SetTotal(Total(ps) + (budget - Available(ps)));
             && (Available(ps) < budget ==> Decide(ps, op).Ok?)
             && qs == if Available(ps) < budget then Apply(ps, op) else ps
    requires rs == Apply(qs, CommitOp(id, budget))
    ensures LedgerAfterAdd(ps, id, budget) == rs
    ensures AsResult(Allocated(ps, id, budget)) == AsResult(Decide(qs, CommitOp(id, budget)))
  {
  }

  datatype ServiceError = Budget(error: BudgetError) | WrongState

  /** The outcome as the service's caller sees it. */
  function AsResult<T>(r: Result<T, BudgetError>): Result<(), ServiceError> {
    if r.Ok? then Ok(()) else Err(Budget(r.error))
  }

  class Sniper1Service {
    var items: map<TaskId, Item>
    const budget: BE.BudgetEngine
    ghost var issued: set<TaskId>

    ghost function State(): Shop
      reads this, budget
    {
      Shop(items, budget.postings, issued)
    }

    constructor (hash: BE.HashInput -> BE.Digest)
      ensures fresh(budget) && budget.Valid() && State() == Run([])
    {
      items, issued := map[], {};
      budget := new BE.BudgetEngine("sniper1", "local-user", hash);
    }

    method Send(id: TaskId, e: IM.Event)
      requires id in items
      modifies this`items
      ensures State() == Sent(old(State()), id, e)
    {
      items := items[id := items[id].(state := IM.Next(items[id].state, e))];
    }

    method AddWatchedItem(id: TaskId, budgetCents: int, at: int) returns (r: Result<(), ServiceError>)
      requires budget.Valid() && id != ALL && id !in issued
      modifies this, budget
      ensures budget.Valid() && State() == Step(old(State()), AddItem(id, budgetCents))
      ensures r == AsResult(Allocated(old(State()).ledger, id, budgetCents))
    {
      items := items[id := Item(IM.Watching, budgetCents, [], None)];
      issued := issued + {id};
      r := Allocate(id, budgetCents, at);
    }

    /** The budget part of `AddWatchedItem`. */
    method Allocate(id: TaskId, budgetCents: int, at: int) returns (r: Result<(), ServiceError>)
      requires budget.Valid()
      modifies budget
      ensures budget.Valid()
      ensures budget.postings == LedgerAfterAdd(old(budget.postings), id, budgetCents)
      ensures r == AsResult(Allocated(old(budget.postings), id, budgetCents))
    {
      ghost var ps := budget.postings;
      ghost var op := SetTotal(Total(ps) + (budgetCents - Available(ps)));
      if budget.AvailableCents() < budgetCents {
        var shortfall := budgetCents - budget.AvailableCents();
        var expanded := budget.SetTotalBudget(budget.TotalCents() + shortfall, "auto-expand", at);
        if expanded.Err? {
          ExpansionRefused(ps, id, budgetCents);
          return Err(Budget(expanded.error));
        }
        assert Decide(ps, op).Ok? && budget.postings == Apply(ps, op);
      }
      ghost var qs := budget.postings;
      assert Available(ps) < budgetCents ==> Decide(ps, op).Ok?;
      assert qs == if Available(ps) < budgetCents then Apply(ps, op) else ps;
      var committed := budget.Commit(id, budgetCents, "watch item allocation", at);
      AllocatedInSteps(ps, qs, budget.postings, id, budgetCents);
      r := if committed.Err? then Err(Budget(committed.error)) else Ok(());
    }

    method RemoveWatchedItem(id: TaskId, refundPolicy: string, at: int) returns (r: Result<(), ServiceError>)
      requires budget.Valid() && id in items
      modifies this`items, budget
      ensures budget.Valid() && State() == Step(old(State()), RemoveItem(id))
      ensures r.Ok? <==> id !in items
    {
      Send(id, IM.OnCancel);
      var committed := budget.CommittedCents(id);
      r := ReleasePart(id, committed, refundPolicy, at);
      if r.Ok? {
        items := items - {id};
      }
    }

    method HandleBidOutcome(id: TaskId, cents: int, result: BidResult)
      requires id in items
      modifies this`items
      ensures State() == Step(old(State()), BidEnds(id, cents, result))
    {
      items := items[id := items[id].(bids := items[id].bids + [cents])];
      Send(id, BidEvent(result));
    }

    method MarkItemWon(id: TaskId, price: Option<int>) returns (r: Result<int, ServiceError>)
      requires id in items
      modifies this`items
      ensures State() == Step(old(State()), MarkWon(id, price))
      ensures r.Ok? <==> old(items)[id].state.Winning? || old(items)[id].state.Won?
      ensures r.Ok? ==> items[id].winPrice == Some(r.value) && items[id].state.PendingUserPayment?
      ensures r.Err? ==> r.error == WrongState && items == old(items)
    {
      var final := if price.Some? then price.value else LastBid(items[id].bids);
      Send(id, IM.OnMarkWon);
      if !items[id].state.Won? {
        return Err(WrongState);
      }
      Send(id, IM.OnPromoteToPendingPayment);
      items := items[id := items[id].(winPrice := Some(final))];
      r := Ok(final);
    }

    method MarkPaymentCompleted(id: TaskId, at: int) returns (r: Result<(), ServiceError>)
      requires budget.Valid() && id in items
      modifies this`items, budget
      ensures budget.Valid() && State() == Step(old(State()), MarkPaid(id))
      ensures r == Err(WrongState) <==> !old(items)[id].state.PendingUserPayment?
      ensures r.Ok? <==> old(items)[id].state.PendingUserPayment?
                         && SettlesFully(old(State()).ledger, id, old(items)[id].winPrice)
    {
      if !items[id].state.PendingUserPayment? {
        return Err(WrongState);
      }
      Send(id, IM.OnUserMarkPaid);
      r := Settle(id, items[id].winPrice, at);
    }

    /** The budget part of `MarkPaymentCompleted`. */
    method Settle(id: TaskId, winPrice: Option<int>, at: int) returns (r: Result<(), ServiceError>)
      requires budget.Valid()
      modifies budget
      ensures budget.Valid()
      ensures budget.postings == Settled(old(budget.postings), id, winPrice)
      ensures r.Ok? <==> SettlesFully(old(budget.postings), id, winPrice)
      ensures r.Err? ==> r.error.Budget?
    {
      var committed := budget.CommittedCents(id);
      if committed <= 0 {
        return Ok(());
      }
      var spendAmount := Min(if winPrice.Some? then winPrice.value else committed, committed);
      r := SpendPart(id, spendAmount, at);
      SettledInSteps(old(budget.postings), budget.postings, id, winPrice, spendAmount, r.Ok?);
      if r.Ok? {
        r := ReleasePart(id, committed - spendAmount, "leftover after settled win", at);
      }
    }

    method SpendPart(id: TaskId, cents: int, at: int) returns (r: Result<(), ServiceError>)
      requires budget.Valid()
      modifies budget
      ensures budget.Valid() && budget.postings == SpendSome(old(budget.postings), id, cents)
      ensures r.Ok? <==> cents <= 0 || Decide(old(budget.postings), SpendOp(id, cents)).Ok?
      ensures r.Err? ==> r.error.Budget?
    {
      r := Ok(());
      if cents > 0 {
        var spent := budget.Spend(id, cents, "user marked paid", at);
        r := if spent.Err? then Err(Budget(spent.error)) else Ok(());
      }
    }

    method ReleasePart(id: TaskId, cents: int, reason: string, at: int) returns (r: Result<(), ServiceError>)
      requires budget.Valid()
      modifies budget
      ensures budget.Valid() && budget.postings == ReleaseSome(old(budget.postings), id, cents)
      ensures r.Ok? <==> cents <= 0 || Decide(old(budget.postings), ReleaseOp(id, cents)).Ok?
      ensures r.Err? ==> r.error.Budget?
    {
      r := Ok(());
      if cents > 0 {
        var released := budget.Release(id, cents, reason, at);
        r := if released.Err? then Err(Budget(released.error)) else Ok(());
      }
    }

    method MarkPaymentOverdue(id: TaskId)
      requires id in items
      modifies this`items
      ensures State() == Step(old(State()), MarkOverdue(id))
    {
      if items[id].state.PendingUserPayment? {
        Send(id, IM.OnPaymentDeadlineHit);
      }
    }
  }
}
