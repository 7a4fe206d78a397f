/**
 Whole runs of an acquire pool: any sequence of arrivals, releases, timeouts and limit
 changes. The log keeps every arrival that has not timed out, in order, and every grant.
*/
module PoolRuns {
  import opened Wrappers
  import opened StableSort
  import opened AcquirePools

  datatype Log = Log(live: seq<Request>, grants: seq<Grant>)

  predicate Waits(ticket: nat, queue: seq<Request>) {
    exists i :: 0 <= i < |queue| && queue[i].ticket == ticket
  }

  function Note(l: Log, p: Pool, e: Event): Log {
    match e
    case Acquire(site, taskRef) => Log(l.live + [Request(p.nextTicket, site, taskRef)], l.grants + Step(p, e).1)
    case Timeout(ticket) => if Waits(ticket, p.queue) then l.(live := Filter(NotTicket(ticket), l.live)) else l
    case _ => l.(grants := l.grants + Step(p, e).1)
  }

  function Run(globalMax: int, perSite: int, es: seq<Event>): (Pool, Log) {
    if es == [] then (Fresh(globalMax, perSite), Log([], []))
    else
      var (p, l) := Run(globalMax, perSite, es[..|es| - 1]);
      (Step(p, es[|es| - 1]).0, Note(l, p, es[|es| - 1]))
  }

  /** Per site, the grants so far and then the queue are the arrivals in order. */
  ghost predicate InArrivalOrder(p: Pool, l: Log) {
    forall s :: OnSite(s, l.live) == OnSite(s, Requests(l.grants)) + OnSite(s, p.queue)
  }

  ghost predicate Fair(p: Pool, l: Log) {
    && WellFormed(p) && Settled(p) && InArrivalOrder(p, l)
    && Ascending(l.live) && (forall i :: 0 <= i < |l.live| ==> l.live[i].ticket < p.nextTicket)
    && forall i :: 0 <= i < |l.grants| ==> Justified(l.grants[i])
  }

  lemma {:induction false} OnSiteMembers(site: string, rs: seq<Request>)
    ensures forall r :: r in OnSite(site, rs) <==> r in rs && r.site == site
  {
    if rs != [] {
      OnSiteMembers(site, rs[1..]);
      SplitFirst(rs);
    }
  }

  lemma {:induction false} OnSiteAscending(site: string, rs: seq<Request>)
    requires Ascending(rs)
    ensures Ascending(OnSite(site, rs))
  {
    if rs != [] {
      OnSiteAscending(site, rs[1..]);
      OnSiteMembers(site, rs[1..]);
    }
  }

  lemma {:induction false} OnSiteFilter(site: string, ticket: nat, rs: seq<Request>)
    ensures OnSite(site, Filter(NotTicket(ticket), rs)) == Filter(NotTicket(ticket), OnSite(site, rs))
  {
    if rs != [] {
      OnSiteFilter(site, ticket, rs[1..]);
      if rs[0].site == site {
        assert OnSite(site, rs)[1..] == OnSite(site, rs[1..]);
      }
      if rs[0].ticket != ticket {
        assert Filter(NotTicket(ticket), rs)[1..] == Filter(NotTicket(ticket), rs[1..]);
      }
    }
  }

  /** A waiting request has not been granted. */
  lemma WaitingIsNotGranted(p: Pool, l: Log, q: Request, r: Request)
    requires InArrivalOrder(p, l) && Ascending(l.live)
    requires q in p.queue && r in Requests(l.grants)
    ensures r.ticket != q.ticket
  {
    var mine, theirs := OnSite(q.site, l.live), OnSite(r.site, l.live);
    assert mine == OnSite(q.site, Requests(l.grants)) + OnSite(q.site, p.queue);
    assert theirs == OnSite(r.site, Requests(l.grants)) + OnSite(r.site, p.queue);
    OnSiteMembers(q.site, p.queue);
    OnSiteMembers(r.site, Requests(l.grants));
    OnSiteMembers(q.site, l.live);
    OnSiteMembers(r.site, l.live);
    assert q in l.live && r in l.live;
    if r.ticket == q.ticket {
      SameTicket(l.live, q, r);
      OnSiteAscending(q.site, l.live);
      Distinct(OnSite(q.site, Requests(l.grants)), OnSite(q.site, p.queue), q);
    }
  }

  lemma SameTicket(rs: seq<Request>, q: Request, r: Request)
    requires Ascending(rs) && q in rs && r in rs && q.ticket == r.ticket
    ensures q == r
  {
  }

  lemma Distinct(a: seq<Request>, b: seq<Request>, r: Request)
    requires Ascending(a + b) && r in a
    ensures r !in b
  {
    forall i, j | 0 <= i < |a| && 0 <= j < |b| ensures a[i].ticket < b[j].ticket {
      assert (a + b)[i] == a[i] && (a + b)[|a| + j] == b[j];
    }
  }

  lemma AcquireKeepsOrder(p: Pool, l: Log, site: string, taskRef: string, s: string)
    requires Fair(p, l)
    ensures var (p', l') := (Step(p, Acquire(site, taskRef)).0, Note(l, p, Acquire(site, taskRef)));
            OnSite(s, l'.live) == OnSite(s, Requests(l'.grants)) + OnSite(s, p'.queue)
  {
    var r := Request(p.nextTicket, site, taskRef);
    var gs := Step(p, Acquire(site, taskRef)).1;
    assert OnSite(s, l.live) == OnSite(s, Requests(l.grants)) + OnSite(s, p.queue);
    RequestsConcat(l.grants, gs);
    OnSiteConcat(s, l.live, [r]);
    if CanAcquire(p, site) {
      assert Requests(gs) == [r];
      OnSiteConcat(s, Requests(l.grants), [r]);
      if s == site {
        OnSiteNone(s, p.queue);
      }
    } else {
      assert l.grants + gs == l.grants;
      OnSiteConcat(s, p.queue, [r]);
    }
    Associates(OnSite(s, Requests(l.grants)), OnSite(s, p.queue), OnSite(s, [r]));
    if CanAcquire(p, site) {
      assert OnSite(s, p.queue) == [] || OnSite(s, [r]) == [];
      Exchange(OnSite(s, Requests(l.grants)), OnSite(s, p.queue), OnSite(s, [r]));
    }
  }

  lemma Exchange(a: seq<Request>, b: seq<Request>, c: seq<Request>)
    requires b == [] || c == []
    ensures a + b + c == a + c + b
  {
  }

  lemma AcquireStaysSettled(p: Pool, site: string, taskRef: string)
    requires WellFormed(p) && Settled(p)
    ensures var (p', gs) := Step(p, Acquire(site, taskRef));
            && WellFormed(p') && Settled(p')
            && (gs != [] ==> Justified(gs[0]))
  {
    var p' := Step(p, Acquire(site, taskRef)).0;
    if CanAcquire(p, site) {
      forall s ensures |ActiveAt(p'.active, s)| >= |ActiveAt(p.active, s)| && |p'.active| == |p.active| + 1 {
        ActiveAfterTake(p, site, s);
      }
      ActiveAfterTake(p, site, site);
    }
  }

  lemma FairAcquire(p: Pool, l: Log, site: string, taskRef: string)
    requires Fair(p, l)
    ensures Fair(Step(p, Acquire(site, taskRef)).0, Note(l, p, Acquire(site, taskRef)))
  {
    var p', l' := Step(p, Acquire(site, taskRef)).0, Note(l, p, Acquire(site, taskRef));
    forall s ensures OnSite(s, l'.live) == OnSite(s, Requests(l'.grants)) + OnSite(s, p'.queue) {
      AcquireKeepsOrder(p, l, site, taskRef, s);
    }
    AcquireStaysSettled(p, site, taskRef);
    var gs := Step(p, Acquire(site, taskRef)).1;
    forall i | 0 <= i < |l.grants + gs| ensures Justified((l.grants + gs)[i]) {
      assert (l.grants + gs)[i] == if i < |l.grants| then l.grants[i] else gs[0];
    }
  }

  lemma TimeoutStaysSettled(p: Pool, ticket: nat)
    requires WellFormed(p) && Settled(p)
    ensures var p' := Step(p, Timeout(ticket)).0; WellFormed(p') && Settled(p')
  {
    var left := Filter(NotTicket(ticket), p.queue);
    FilterAscending(ticket, p.queue);
    forall i | 0 <= i < |left| ensures left[i].ticket < p.nextTicket && !CanAcquire(p, left[i].site) {
      assert left[i] in p.queue;
    }
  }

  lemma FairTimeout(p: Pool, l: Log, ticket: nat)
    requires Fair(p, l)
    ensures Fair(Step(p, Timeout(ticket)).0, Note(l, p, Timeout(ticket)))
  {
    TimeoutStaysSettled(p, ticket);
    if Waits(ticket, p.queue) {
      var w :| 0 <= w < |p.queue| && p.queue[w].ticket == ticket;
      var left := Filter(NotTicket(ticket), l.live);
      FilterAscending(ticket, l.live);
      forall i | 0 <= i < |left| ensures left[i].ticket < p.nextTicket {
        assert left[i] in l.live;
      }
      forall s
        ensures OnSite(s, Filter(NotTicket(ticket), l.live))
             == OnSite(s, Requests(l.grants)) + OnSite(s, Filter(NotTicket(ticket), p.queue))
      {
        var granted := OnSite(s, Requests(l.grants));
        assert OnSite(s, l.live) == granted + OnSite(s, p.queue);
        OnSiteFilter(s, ticket, l.live);
        OnSiteFilter(s, ticket, p.queue);
        FilterConcat(NotTicket(ticket), granted, OnSite(s, p.queue));
        OnSiteMembers(s, Requests(l.grants));
        forall i | 0 <= i < |granted| ensures granted[i].ticket != ticket {
          WaitingIsNotGranted(p, l, p.queue[w], granted[i]);
        }
        FilterOther(ticket, granted);
      }
    } else {
      FilterOther(ticket, p.queue);
    }
  }

  lemma FairDrain(p: Pool, l: Log, p0: Pool)
    requires Fair(p, l) && WellFormed(p0) && p0.queue == p.queue && p0.nextTicket == p.nextTicket
    ensures var (p', gs) := Drained(p0, p0.queue); Fair(p', l.(grants := l.grants + gs))
  {
    var (p', gs) := Drained(p0, p0.queue);
    DrainAll(p0);
    forall s ensures OnSite(s, l.live) == OnSite(s, Requests(l.grants + gs)) + OnSite(s, p'.queue) {
      DrainKeepsOrder(p, l, p0, s);
    }
    forall i | 0 <= i < |l.grants + gs| ensures Justified((l.grants + gs)[i]) {
      assert (l.grants + gs)[i] == if i < |l.grants| then l.grants[i] else gs[i - |l.grants|];
    }
  }

  lemma DrainKeepsOrder(p: Pool, l: Log, p0: Pool, s: string)
    requires InArrivalOrder(p, l) && WellFormed(p0) && p0.queue == p.queue
    ensures var (p', gs) := Drained(p0, p0.queue);
            OnSite(s, l.live) == OnSite(s, Requests(l.grants + gs)) + OnSite(s, p'.queue)
  {
    var (p', gs) := Drained(p0, p0.queue);
    assert OnSite(s, p0.queue) == OnSite(s, Requests(gs)) + OnSite(s, p'.queue) by { DrainAll(p0); }
    assert OnSite(s, l.live) == OnSite(s, Requests(l.grants)) + OnSite(s, p.queue);
    RequestsConcat(l.grants, gs);
    OnSiteConcat(s, Requests(l.grants), Requests(gs));
    Associates(OnSite(s, Requests(l.grants)), OnSite(s, Requests(gs)), OnSite(s, p'.queue));
  }

  lemma DrainCounts(p: Pool, s: string)
    requires WellFormed(p)
    ensures var p' := Drained(p, p.queue).0;
            && p'.globalMax == p.globalMax && SiteLimit(p', s) == SiteLimit(p, s)
            && |p'.active| <= Max(|p.active|, p.globalMax)
            && |ActiveAt(p'.active, s)| <= Max(|ActiveAt(p.active, s)|, SiteLimit(p, s))
  {
    DrainAll(p);
  }

  lemma DrainAll(p: Pool)
    requires WellFormed(p)
    ensures var (p', gs) := Drained(p, p.queue); DrainOk(p, p', gs)
  {
    assert p.queue == [] + p.queue;
    DrainSettles(p, [], p.queue);
  }

  lemma FairStep(p: Pool, l: Log, e: Event)
    requires Fair(p, l)
    ensures Fair(Step(p, e).0, Note(l, p, e))
  {
    match e
    case Acquire(site, taskRef) => FairAcquire(p, l, site, taskRef);
    case Timeout(ticket) => FairTimeout(p, l, ticket);
    case Release(slot) => FairDrain(p, l, p.(active := p.active - {slot}));
    case SetSiteLimit(site, n) => FairDrain(p, l, p.(perSite := p.perSite[site := n]));
    case SetGlobalLimit(n) => FairDrain(p, l, p.(globalMax := n));
  }

  /**
   After any run no waiting request could be granted; at every site the requests were granted
   in order of arrival, the rest are still waiting in that order, and none is lost or granted
   twice; and whenever a request was granted past an older one, the site of the older one was
   at its limit.
  */
  lemma {:induction false} RunIsFair(globalMax: int, perSite: int, es: seq<Event>)
    ensures var (p, l) := Run(globalMax, perSite, es); Fair(p, l)
  {
    if es != [] {
      RunIsFair(globalMax, perSite, es[..|es| - 1]);
      var (p, l) := Run(globalMax, perSite, es[..|es| - 1]);
      FairStep(p, l, es[|es| - 1]);
    } else {
      assert OnSite("", []) == [];
    }
  }

  // ----- limits

  ghost predicate WithinLimits(p: Pool) {
    && |p.active| <= Max(0, p.globalMax)
    && forall s :: |ActiveAt(p.active, s)| <= Max(0, SiteLimit(p, s))
  }

  /** No operation opens slots beyond the limits in force after it. */
  lemma StepStaysWithin(p: Pool, l: Log, e: Event, s: string)
    requires Fair(p, l)
    ensures var p' := Step(p, e).0;
            && |p'.active| <= Max(|p.active|, p'.globalMax)
            && |ActiveAt(p'.active, s)| <= Max(|ActiveAt(p.active, s)|, SiteLimit(p', s))
  {
    match e
    case Acquire(site, _) => ActiveAfterTake(p, site, s);
    case Timeout(_) =>
    case Release(slot) =>
      var p0 := p.(active := p.active - {slot});
      ActiveAfterRelease(p, slot, s);
      DrainCounts(p0, s);
    case SetSiteLimit(site, n) =>
      var p0 := p.(perSite := p.perSite[site := n]);
      DrainCounts(p0, s);
    case SetGlobalLimit(n) =>
      var p0 := p.(globalMax := n);
      DrainCounts(p0, s);
  }

  lemma StepKeepsLimits(p: Pool, e: Event)
    requires WellFormed(p) && !e.SetSiteLimit? && !e.SetGlobalLimit?
    ensures var p' := Step(p, e).0;
            p'.globalMax == p.globalMax && p'.defaultPerSite == p.defaultPerSite && p'.perSite == p.perSite
  {
    if e.Release? { DrainAll(p.(active := p.active - {e.slot})); }
  }

  /** As long as no limit changes, both limits hold at every moment. */
  lemma {:induction false} LimitsHold(globalMax: int, perSite: int, es: seq<Event>)
    requires forall i :: 0 <= i < |es| ==> !es[i].SetSiteLimit? && !es[i].SetGlobalLimit?
    ensures var p := Run(globalMax, perSite, es).0;
            WithinLimits(p) && p.globalMax == globalMax && p.defaultPerSite == perSite && p.perSite == map[]
  {
    if es == [] {
      assert forall s :: ActiveAt({}, s) == {};
    } else {
      LimitsHold(globalMax, perSite, es[..|es| - 1]);
      RunIsFair(globalMax, perSite, es[..|es| - 1]);
      var (p, l) := Run(globalMax, perSite, es[..|es| - 1]);
      WithinStep(p, l, es[|es| - 1]);
    }
  }

  lemma WithinStep(p: Pool, l: Log, e: Event)
    requires Fair(p, l) && WithinLimits(p) && !e.SetSiteLimit? && !e.SetGlobalLimit?
    ensures var p' := Step(p, e).0;
            && WithinLimits(p')
            && p'.globalMax == p.globalMax && p'.defaultPerSite == p.defaultPerSite && p'.perSite == p.perSite
  {
    StepKeepsLimits(p, e);
    forall s ensures |ActiveAt(Step(p, e).0.active, s)| <= Max(|ActiveAt(p.active, s)|, SiteLimit(p, s)) {
      StepStaysWithin(p, l, e, s);
    }
    StepStaysWithin(p, l, e, "");
  }
}
