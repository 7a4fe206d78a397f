/**
 The four transition tables, one module each, and the machine that runs on such a table. An
 event a row does not mention leaves the state as it is, and so does any event in a terminal
 state; `OnOther` stands for the events no row mentions.
*/
module StateMachines {

  /** A machine with its context; a patch is merged whether or not the event moves the state. */
  class SimpleMachine<S(==), E, V> {
    const next: (S, E) -> S
    var state: S
    var context: map<string, V>

    constructor (next: (S, E) -> S, state: S, context: map<string, V>)
      ensures this.next == next && this.state == state && this.context == context
    {
      this.next, this.state, this.context := next, state, context;
    }

    /** `moved` says whether the transition callback runs. */
    method Send(e: E, patch: map<string, V>) returns (moved: bool)
      modifies this
      ensures state == next(old(state), e)
      ensures context == old(context) + patch
      ensures moved <==> state != old(state)
    {
      var from := state;
      context := context + patch;
      state := next(from, e);
      moved := from != state;
    }
  }

  function After<S, E>(next: (S, E) -> S, s: S, es: seq<E>): S
    decreases |es|
  {
    if es == [] then s else After(next, next(s, es[0]), es[1..])
  }

  /** A state that every event leaves as it is, is never left. */
  lemma {:induction false} StuckStays<S(!new), E(!new)>(next: (S, E) -> S, s: S, es: seq<E>)
    requires forall e :: next(s, e) == s
    ensures After(next, s, es) == s
    decreases |es|
  {
    if es != [] { StuckStays(next, s, es[1..]); }
  }

  lemma AfterTwo<S, E>(next: (S, E) -> S, s: S, e: E, f: E)
    ensures After(next, s, [e, f]) == next(next(s, e), f)
  {
    assert [e, f][1..] == [f] && [f][1..] == [];
    assert After(next, next(s, e), [f]) == After(next, next(next(s, e), f), []);
  }
}

/** The life of an auction item. */
module ItemMachine {
  import opened StateMachines

  datatype State =
    | Draft | Watching | Armed | Bidding | Winning | Outbid | BidFailed | Won | PendingUserPayment | Cancelled
    | Expired | Lost | Paid | PaymentOverdue

  datatype Event =
    | OnArm | OnCancel | OnMarkExpired | OnExecuteBid | OnDisarm | OnBidWinning | OnBidOutbid | OnBidFailed
    | OnTickOutbid | OnMarkWon | OnMarkLost | OnPromoteToPendingPayment | OnUserMarkPaid | OnAdapterDetectPaid
    | OnPaymentDeadlineHit | OnOther

  predicate Terminal(s: State) {
    s.Lost? || s.Cancelled? || s.Expired? || s.Paid? || s.PaymentOverdue?
  }

  function Next(s: State, e: Event): State {
    match s
    case Draft =>
      (match e case OnArm => Watching case OnCancel => Cancelled case _ => s)
    case Watching =>
      (match e case OnArm => Armed case OnCancel => Cancelled case OnMarkExpired => Expired case _ => s)
    case Armed =>
      (match e case OnExecuteBid => Bidding case OnDisarm => Watching case OnCancel => Cancelled case _ => s)
    case Bidding =>
      (match e case OnBidWinning => Winning case OnBidOutbid => Outbid case OnBidFailed => BidFailed case _ => s)
    case Winning =>
      (match e case OnTickOutbid => Outbid case OnMarkWon => Won case OnMarkLost => Lost case _ => s)
    case Outbid =>
      (match e case OnExecuteBid => Bidding case OnMarkLost => Lost case _ => s)
    case BidFailed =>
      (match e case OnExecuteBid => Bidding case OnMarkLost => Lost case _ => s)
    case Won =>
      (match e case OnPromoteToPendingPayment => PendingUserPayment case OnCancel => Cancelled case _ => s)
    case PendingUserPayment =>
      (match e
       case OnUserMarkPaid => Paid
       case OnAdapterDetectPaid => Paid
       case OnPaymentDeadlineHit => PaymentOverdue
       case OnCancel => Cancelled
       case _ => s)
    case _ => s
  }

  /** An event that leads to a terminal state, or to a state from which it leads to one. */
  function Exit(s: State): Event {
    match s
    case Bidding => OnBidFailed
    case Winning => OnMarkLost
    case Outbid => OnMarkLost
    case BidFailed => OnMarkLost
    case _ => OnCancel
  }

  /** From every state some events lead to a terminal state, and no events lead out of one. */
  lemma Finishes(s: State)
    ensures exists es :: Terminal(After(Next, s, es))
    ensures Terminal(s) ==> forall es :: After(Next, s, es) == s
  {
    AfterTwo(Next, s, Exit(s), Exit(Next(s, Exit(s))));
    assert Terminal(After(Next, s, [Exit(s), Exit(Next(s, Exit(s)))]));
    if Terminal(s) {
      forall es ensures After(Next, s, es) == s { StuckStays(Next, s, es); }
    }
  }

  /** The states and events that lead into state `t`. */
  predicate LeadsInto(s: State, e: Event, t: State) {
    match t
    case Draft => false
    case Watching => (s.Draft? && e.OnArm?) || (s.Armed? && e.OnDisarm?)
    case Armed => s.Watching? && e.OnArm?
    case Bidding => (s.Armed? || s.Outbid? || s.BidFailed?) && e.OnExecuteBid?
    case Winning => s.Bidding? && e.OnBidWinning?
    case Outbid => (s.Bidding? && e.OnBidOutbid?) || (s.Winning? && e.OnTickOutbid?)
    case BidFailed => s.Bidding? && e.OnBidFailed?
    case Won => s.Winning? && e.OnMarkWon?
    case Lost => (s.Winning? || s.Outbid? || s.BidFailed?) && e.OnMarkLost?
    case PendingUserPayment => s.Won? && e.OnPromoteToPendingPayment?
    case Paid => s.PendingUserPayment? && (e.OnUserMarkPaid? || e.OnAdapterDetectPaid?)
    case PaymentOverdue => s.PendingUserPayment? && e.OnPaymentDeadlineHit?
    case Expired => s.Watching? && e.OnMarkExpired?
    case Cancelled =>
      (s.Draft? || s.Watching? || s.Armed? || s.Won? || s.PendingUserPayment?) && e.OnCancel?
  }

  /** Nothing else leads into it. */
  lemma EnteredExactly(s: State, e: Event, t: State)
    requires s != t
    ensures Next(s, e) == t <==> LeadsInto(s, e, t)
  {
  }

  /** Before anything is won. */
  predicate BeforeWin(s: State) {
    !s.Won? && !s.PendingUserPayment? && !s.Paid? && !s.PaymentOverdue?
  }

  /** Nobody pays for an item that was not won: on the way to payment it was winning when it was marked won. */
  lemma {:induction false} PaidWasWon(s: State, es: seq<Event>) returns (i: nat)
    requires BeforeWin(s) && !BeforeWin(After(Next, s, es))
    ensures i < |es| && es[i].OnMarkWon? && After(Next, s, es[..i]).Winning?
    decreases |es|
  {
    if s.Winning? && es[0].OnMarkWon? {
      i := 0;
    } else {
      var j := PaidWasWon(Next(s, es[0]), es[1..]);
      i := j + 1;
      assert es[..i][1..] == es[1..][..j];
    }
  }
}

/** The life of a scheduled order. */
module TaskMachine {
  import opened StateMachines

  datatype State =
    | Draft | Configured | Prewarming | Armed | Striking | Acquiring | Acquired | QueuedForPayment | Paying
    | PaymentFailed | Cancelled | Missed | AcquireFailed | AcquireExpired | Succeeded | PaymentTimeout

  datatype Event =
    | OnConfigure | OnCancel | OnPrewarm | OnStrike | OnPrewarmDone | OnPrewarmFailed | OnAcquire | OnMarkMissed
    | OnAcquireFailed | OnAcquired | OnQueued | OnAcquireExpired | OnPaymentStart | OnPaymentSucceeded
    | OnPaymentFailed | OnPaymentTimeout | OnOther

  predicate Terminal(s: State) {
    s.Cancelled? || s.Missed? || s.Succeeded? || s.PaymentTimeout? || s.AcquireExpired?
  }

  function Next(s: State, e: Event): State {
    match s
    case Draft =>
      (match e case OnConfigure => Configured case OnCancel => Cancelled case _ => s)
    case Configured =>
      (match e case OnPrewarm => Prewarming case OnStrike => Striking case OnCancel => Cancelled case _ => s)
    case Prewarming =>
      (match e case OnPrewarmDone => Armed case OnPrewarmFailed => Missed case OnCancel => Cancelled case _ => s)
    case Armed =>
      (match e case OnStrike => Striking case OnCancel => Cancelled case _ => s)
    case Striking =>
      (match e case OnAcquire => Acquiring case OnMarkMissed => Missed case OnCancel => Cancelled case _ => s)
    case Acquiring =>
      (match e
       case OnAcquireFailed => AcquireFailed
       case OnAcquired => Acquired
       case OnCancel => Cancelled
       case _ => s)
    case Acquired =>
      (match e case OnQueued => QueuedForPayment case OnAcquireExpired => AcquireExpired case _ => s)
    case QueuedForPayment =>
      (match e case OnPaymentStart => Paying case OnAcquireExpired => AcquireExpired case _ => s)
    case Paying =>
      (match e
       case OnPaymentSucceeded => Succeeded
       case OnPaymentFailed => PaymentFailed
       case OnPaymentTimeout => PaymentTimeout
       case _ => s)
    case PaymentFailed =>
      (match e case OnPaymentStart => Paying case OnCancel => Cancelled case _ => s)
    case _ => s
  }

  /** An event that leads to a terminal state, or to a state from which it leads to one. */
  function Exit(s: State): Event {
    match s
    case Acquired => OnAcquireExpired
    case QueuedForPayment => OnAcquireExpired
    case Paying => OnPaymentTimeout
    case _ => OnCancel
  }

  /**
   Some events lead to a terminal state exactly from the states other than `acquire_failed`,
   which no events leave, and no events lead out of a terminal state.
  */
  lemma FinishesExactly(s: State)
    ensures (exists es :: Terminal(After(Next, s, es))) <==> s != AcquireFailed
    ensures Terminal(s) || s == AcquireFailed ==> forall es :: After(Next, s, es) == s
  {
    if Terminal(s) || s == AcquireFailed {
      forall es ensures After(Next, s, es) == s { StuckStays(Next, s, es); }
    }
    if s != AcquireFailed {
      AfterTwo(Next, s, Exit(s), Exit(Next(s, Exit(s))));
      assert Terminal(After(Next, s, [Exit(s), Exit(Next(s, Exit(s)))]));
    }
  }

  /** The states and events that lead into state `t`. */
  predicate LeadsInto(s: State, e: Event, t: State) {
    match t
    case Draft => false
    case Configured => s.Draft? && e.OnConfigure?
    case Prewarming => s.Configured? && e.OnPrewarm?
    case Armed => s.Prewarming? && e.OnPrewarmDone?
    case Striking => (s.Configured? || s.Armed?) && e.OnStrike?
    case Acquiring => s.Striking? && e.OnAcquire?
    case Acquired => s.Acquiring? && e.OnAcquired?
    case AcquireFailed => s.Acquiring? && e.OnAcquireFailed?
    case QueuedForPayment => s.Acquired? && e.OnQueued?
    case AcquireExpired => (s.Acquired? || s.QueuedForPayment?) && e.OnAcquireExpired?
    case Paying => (s.QueuedForPayment? || s.PaymentFailed?) && e.OnPaymentStart?
    case Succeeded => s.Paying? && e.OnPaymentSucceeded?
    case PaymentFailed => s.Paying? && e.OnPaymentFailed?
    case PaymentTimeout => s.Paying? && e.OnPaymentTimeout?
    case Missed => (s.Prewarming? && e.OnPrewarmFailed?) || (s.Striking? && e.OnMarkMissed?)
    case Cancelled =>
      && (s.Draft? || s.Configured? || s.Prewarming? || s.Armed? || s.Striking? || s.Acquiring?
          || s.PaymentFailed?)
      && e.OnCancel?
  }

  /** Nothing else leads into it. */
  lemma EnteredExactly(s: State, e: Event, t: State)
    requires s != t
    ensures Next(s, e) == t <==> LeadsInto(s, e, t)
  {
  }
}

/** The life of a restock watch. */
module WatchMachine {
  import opened StateMachines

  datatype State =
    | Draft | Configured | Monitoring | Suspended | Triggered | Confirming | Executing | Succeeded | Failed
    | Continued | Cancelled | Expired | Exhausted

  datatype Event =
    | OnConfigure | OnCancel | OnResume | OnSignal | OnPause | OnMarkExpired | OnConfirm | OnExecute
    | OnConfirmFromUser | OnTimeout | OnSucceeded | OnFailed | OnContinue | OnExhaust | OnOther

  predicate Terminal(s: State) {
    s.Cancelled? || s.Expired? || s.Exhausted?
  }

  function Next(s: State, e: Event): State {
    match s
    case Draft =>
      (match e case OnConfigure => Configured case OnCancel => Cancelled case _ => s)
    case Configured =>
      (match e case OnResume => Monitoring case OnSignal => Triggered case OnCancel => Cancelled case _ => s)
    case Monitoring =>
      (match e
       case OnPause => Suspended
       case OnSignal => Triggered
       case OnMarkExpired => Expired
       case OnCancel => Cancelled
       case _ => s)
    case Suspended =>
      (match e case OnResume => Monitoring case OnCancel => Cancelled case _ => s)
    case Triggered =>
      (match e case OnConfirm => Confirming case OnExecute => Executing case OnCancel => Cancelled case _ => s)
    case Confirming =>
      (match e
       case OnConfirmFromUser => Executing
       case OnTimeout => Monitoring
       case OnCancel => Cancelled
       case _ => s)
    case Executing =>
      (match e case OnSucceeded => Succeeded case OnFailed => Failed case OnCancel => Cancelled case _ => s)
    case Succeeded =>
      (match e case OnContinue => Continued case OnExhaust => Exhausted case _ => s)
    case Failed =>
      (match e case OnContinue => Continued case OnExhaust => Exhausted case _ => s)
    case Continued =>
      (match e case OnResume => Monitoring case OnCancel => Cancelled case _ => s)
    case _ => s
  }

  /** An event that leads to a terminal state, or to a state from which it leads to one. */
  function Exit(s: State): Event {
    match s
    case Succeeded => OnExhaust
    case Failed => OnExhaust
    case _ => OnCancel
  }

  /** From every state some events lead to a terminal state, and no events lead out of one. */
  lemma Finishes(s: State)
    ensures exists es :: Terminal(After(Next, s, es))
    ensures Terminal(s) ==> forall es :: After(Next, s, es) == s
  {
    AfterTwo(Next, s, Exit(s), Exit(Next(s, Exit(s))));
    assert Terminal(After(Next, s, [Exit(s), Exit(Next(s, Exit(s)))]));
    if Terminal(s) {
      forall es ensures After(Next, s, es) == s { StuckStays(Next, s, es); }
    }
  }

  /** The states and events that lead into state `t`. */
  predicate LeadsInto(s: State, e: Event, t: State) {
    match t
    case Draft => false
    case Configured => s.Draft? && e.OnConfigure?
    case Monitoring =>
      || ((s.Configured? || s.Suspended? || s.Continued?) && e.OnResume?)
      || (s.Confirming? && e.OnTimeout?)
    case Suspended => s.Monitoring? && e.OnPause?
    case Triggered => (s.Configured? || s.Monitoring?) && e.OnSignal?
    case Confirming => s.Triggered? && e.OnConfirm?
    case Executing => (s.Triggered? && e.OnExecute?) || (s.Confirming? && e.OnConfirmFromUser?)
    case Succeeded => s.Executing? && e.OnSucceeded?
    case Failed => s.Executing? && e.OnFailed?
    case Continued => (s.Succeeded? || s.Failed?) && e.OnContinue?
    case Exhausted => (s.Succeeded? || s.Failed?) && e.OnExhaust?
    case Expired => s.Monitoring? && e.OnMarkExpired?
    case Cancelled => !Terminal(s) && !s.Succeeded? && !s.Failed? && e.OnCancel?
  }

  /** Nothing else leads into it. */
  lemma EnteredExactly(s: State, e: Event, t: State)
    requires s != t
    ensures Next(s, e) == t <==> LeadsInto(s, e, t)
  {
  }
}

/** The life of one acquire-and-settle execution. */
module ExecutionMachine {
  import opened StateMachines

  datatype State =
    | Acquiring | Acquired | QueuedForPayment | Paying | PaymentFailed | AcquireFailed | AcquireExpired
    | Succeeded | PaymentTimeout

  datatype Event =
    | OnAcquireFailed | OnAcquired | OnQueued | OnAcquireExpired | OnPaymentStart | OnPaymentSucceeded
    | OnPaymentFailed | OnPaymentTimeout | OnRetry | OnOther

  predicate Terminal(s: State) {
    s.Succeeded? || s.PaymentTimeout? || s.AcquireExpired?
  }

  function Next(s: State, e: Event): State {
    match s
    case Acquiring =>
      (match e case OnAcquireFailed => AcquireFailed case OnAcquired => Acquired case _ => s)
    case Acquired =>
      (match e case OnQueued => QueuedForPayment case OnAcquireExpired => AcquireExpired case _ => s)
    case QueuedForPayment =>
      (match e case OnPaymentStart => Paying case OnAcquireExpired => AcquireExpired case _ => s)
    case Paying =>
      (match e
       case OnPaymentSucceeded => Succeeded
       case OnPaymentFailed => PaymentFailed
       case OnPaymentTimeout => PaymentTimeout
       case _ => s)
    case PaymentFailed =>
      (match e case OnRetry => Paying case _ => s)
    case _ => s
  }

  /** An event that leads to a terminal state, or to a state from which it leads to one. */
  function Exit(s: State): Event {
    match s
    case Acquiring => OnAcquired
    case Acquired => OnAcquireExpired
    case QueuedForPayment => OnAcquireExpired
    case Paying => OnPaymentTimeout
    case _ => OnRetry
  }

  /**
   Some events lead to a terminal state exactly from the states other than `acquire_failed`,
   which no events leave, and no events lead out of a terminal state.
  */
  lemma FinishesExactly(s: State)
    ensures (exists es :: Terminal(After(Next, s, es))) <==> s != AcquireFailed
    ensures Terminal(s) || s == AcquireFailed ==> forall es :: After(Next, s, es) == s
  {
    if Terminal(s) || s == AcquireFailed {
      forall es ensures After(Next, s, es) == s { StuckStays(Next, s, es); }
    }
    if s != AcquireFailed {
      AfterTwo(Next, s, Exit(s), Exit(Next(s, Exit(s))));
      assert Terminal(After(Next, s, [Exit(s), Exit(Next(s, Exit(s)))]));
    }
  }

  /** The states and events that lead into state `t`. */
  predicate LeadsInto(s: State, e: Event, t: State) {
    match t
    case Acquiring => false
    case Acquired => s.Acquiring? && e.OnAcquired?
    case AcquireFailed => s.Acquiring? && e.OnAcquireFailed?
    case QueuedForPayment => s.Acquired? && e.OnQueued?
    case AcquireExpired => (s.Acquired? || s.QueuedForPayment?) && e.OnAcquireExpired?
    case Paying => (s.QueuedForPayment? && e.OnPaymentStart?) || (s.PaymentFailed? && e.OnRetry?)
    case Succeeded => s.Paying? && e.OnPaymentSucceeded?
    case PaymentFailed => s.Paying? && e.OnPaymentFailed?
    case PaymentTimeout => s.Paying? && e.OnPaymentTimeout?
  }

  /** Nothing else leads into it. */
  lemma EnteredExactly(s: State, e: Event, t: State)
    requires s != t
    ensures Next(s, e) == t <==> LeadsInto(s, e, t)
  {
  }
}
