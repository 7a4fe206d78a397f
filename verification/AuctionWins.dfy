/** From a win to its payment: which price counts, and where the money of the item goes. */
module AuctionWins {
  import opened Wrappers
  import opened Ledger
  import opened AuctionBudget
  import IM = ItemMachine

  /** The bids placed on an item in a run, since it was added. */
  function BidsOf(es: seq<Event>, id: TaskId): seq<int> {
    if es == [] then []
    else
      var before := es[..|es| - 1];
      match es[|es| - 1]
      case AddItem(i, _) => if i == id && id !in Run(before).issued then [] else BidsOf(before, id)
      case BidEnds(i, cents, _) => if i == id then BidsOf(before, id) + [cents] else BidsOf(before, id)
      case _ => BidsOf(before, id)
  }

  lemma BidsStep(s: Shop, e: Event, s': Shop, id: TaskId)
    requires s' == Step(s, e) && id in s'.items && s.items.Keys <= s.issued
    ensures e.AddItem? && e.id == id && id !in s.issued ==> s'.items[id].bids == []
    ensures !(e.AddItem? && e.id == id && id !in s.issued) ==>
              && id in s.items
              && s'.items[id].bids == s.items[id].bids + if e.BidEnds? && e.id == id then [e.cents] else []
  {
  }

  /** In every reachable state an item's history is exactly the bids placed on it. */
  lemma {:induction false} BidsAreKept(es: seq<Event>, id: TaskId)
    requires id in Run(es).items
    ensures Run(es).items[id].bids == BidsOf(es, id)
  {
    var before, e := es[..|es| - 1], es[|es| - 1];
    HighWaterMark(before);
    BidsStep(Run(before), e, Run(es), id);
    if !(e.AddItem? && e.id == id && id !in Run(before).issued) {
      BidsAreKept(before, id);
      assert Run(before).items[id].bids + [] == Run(before).items[id].bids;
    }
  }

  /** The price that counts: the one reported, else the last bid, else nothing. */
  function PriceOf(reported: Option<int>, bids: seq<int>): int {
    if reported.Some? then reported.value else if bids == [] then 0 else bids[|bids| - 1]
  }

  /** A winning item waits for payment at the price that counts; any other item, and the ledger, stay as they are. */
  lemma WonAtPrice(s: Shop, id: TaskId, reported: Option<int>)
    requires id in s.items
    ensures var s' := Step(s, MarkWon(id, reported));
            && s'.ledger == s.ledger && s'.issued == s.issued && s'.items.Keys == s.items.Keys
            && (forall t :: t in s.items && t != id ==> s'.items[t] == s.items[t])
            && if s.items[id].state.Winning? then
                 s'.items[id] == s.items[id].(state := IM.PendingUserPayment,
                                              winPrice := Some(PriceOf(reported, s.items[id].bids)))
               else !s.items[id].state.Won? ==> s'.items[id] == s.items[id]
  {
  }

  /**
   A funded item that wins and is paid for costs the price that counts, up to its budget, and
   what is left of its budget is available again.
  */
  lemma PaidAtPrice(es: seq<Event>, id: TaskId, reported: Option<int>, s: Shop, s': Shop)
    requires s == Run(es) && id in s.items && s.items[id].state.Winning? && id in Funded(es)
    requires s' == Step(Step(s, MarkWon(id, reported)), MarkPaid(id)) && PriceOf(reported, BidsOf(es, id)) >= 0
    ensures var cost := Min(PriceOf(reported, BidsOf(es, id)), s.items[id].budgetCents);
            && id in s'.items && s'.items[id].state.Paid?
            && Spent(s'.ledger, id) == cost && Committed(s'.ledger, id) == 0
            && Spent(s'.ledger, ALL) == Spent(s.ledger, ALL) + cost
            && Available(s'.ledger) == Available(s.ledger) + (s.items[id].budgetCents - cost)
            && Total(s'.ledger) == Total(s.ledger)
  {
    var price, s1 := PriceOf(reported, s.items[id].bids), Step(s, MarkWon(id, reported));
    BidsAreKept(es, id);
    FundedHolds(es, id, s);
    WonAtPrice(s, id, reported);
    PaidStep(s1, id, price, s');
    PaidMoney(s.ledger, id, price, s.items[id].budgetCents);
  }

  lemma FundedHolds(es: seq<Event>, id: TaskId, s: Shop)
    requires s == Run(es) && id in s.items && s.items[id].state.Winning? && id in Funded(es)
    ensures id != ALL && Sound(s.ledger) && IsMoney(s.items[id].budgetCents)
    ensures Committed(s.ledger, id) == s.items[id].budgetCents && Spent(s.ledger, id) == 0
  {
    HighWaterMark(es);
    assert ItemOk(s.ledger, id, s.items[id], id in Funded(es));
  }

  lemma PaidStep(s: Shop, id: TaskId, price: int, s': Shop)
    requires id in s.items && s.items[id].state.PendingUserPayment? && s.items[id].winPrice == Some(price)
    requires s' == Step(s, MarkPaid(id))
    ensures s'.ledger == Settled(s.ledger, id, Some(price)) && id in s'.items && s'.items[id].state.Paid?
  {
  }

  lemma PaidMoney(ps: seq<Posting>, id: TaskId, price: int, budget: int)
    requires Sound(ps) && id != ALL && price >= 0 && IsMoney(budget)
    requires Committed(ps, id) == budget && Spent(ps, id) == 0
    ensures var qs, cost := Settled(ps, id, Some(price)), Min(price, budget);
            && Spent(qs, id) == cost && Committed(qs, id) == 0 && Total(qs) == Total(ps)
            && Spent(qs, ALL) == Spent(ps, ALL) + cost && Available(qs) == Available(ps) + (budget - cost)
  {
    var cost := Min(price, budget);
    Spending(ps, id, cost);
    Releasing(SpendSome(ps, id, cost), id, budget - cost);
  }

  /** An item overdue keeps what it holds until it is removed; nothing is spent. */
  lemma OverdueKeepsMoney(s: Shop, id: TaskId)
    requires id in s.items
    ensures var s' := Step(s, MarkOverdue(id));
            && s'.ledger == s.ledger && id in s'.items
            && (s.items[id].state.PendingUserPayment? <==> s'.items[id].state.PaymentOverdue? && s'.items != s.items)
            && s'.items[id] == s.items[id].(state := s'.items[id].state)
  {
  }

  /** Where a bid leaves an item that was bidding, by what the site answers; the bid itself is kept in any state. */
  lemma BidDecides(s: Shop, id: TaskId, cents: int, result: BidResult)
    requires id in s.items
    ensures var item, item' := s.items[id], Step(s, BidEnds(id, cents, result)).items[id];
            && item'.bids == item.bids + [cents] && item'.budgetCents == item.budgetCents
            && (item.state.Bidding? ==>
                  && (item'.state.Winning? <==> result.HighBidder?)
                  && (item'.state.Outbid? <==> result.OutbidNow?)
                  && (item'.state.BidFailed? <==> result.BidRejected?))
            && (!item.state.Bidding? ==> item'.state == item.state)
  {
  }

  /** Arming and disarming: a watched item is armed and back, and an armed one, or one outbid or refused, bids again. */
  lemma ArmAndBid(s: Shop, id: TaskId)
    requires id in s.items
    ensures var state := s.items[id].state;
            && (state.Watching? ==> Step(s, ArmItem(id)).items[id].state.Armed?)
            && (state.Armed? ==> Step(s, DisarmItem(id)).items[id].state.Watching?)
            && (state.Armed? || state.Outbid? || state.BidFailed? ==> Step(s, BidBegins(id)).items[id].state.Bidding?)
  {
  }
}
