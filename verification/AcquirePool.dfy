/**
 The acquire pool: a counting semaphore with one global and one per-site limit, and one wait
 queue from which a request is granted as soon as both limits allow it, even past older
 requests of other sites. Promises are grants; tickets number the requests in order of
 arrival, and slot ids are fresh numbers in place of random strings.
*/
module AcquirePools {
  import opened Wrappers
  import opened StableSort

  datatype Request = Request(ticket: nat, site: string, taskRef: string)

  datatype Slot = Slot(id: nat, site: string)

  datatype Pool = Pool(
    globalMax: int,
    defaultPerSite: int,
    perSite: map<string, int>,
    active: set<Slot>,
    queue: seq<Request>,
    nextSlot: nat,
    nextTicket: nat)

  /** A resolved promise, with the pool as it was just before. */
  datatype Grant = Grant(request: Request, slot: Slot, before: Pool)

  datatype Event =
    | Acquire(site: string, taskRef: string)
    | Release(slot: Slot)
    | Timeout(ticket: nat)
    | SetSiteLimit(site: string, n: int)
    | SetGlobalLimit(n: int)

  function ActiveAt(active: set<Slot>, site: string): set<Slot> {
    set s | s in active && s.site == site
  }

  function SiteLimit(p: Pool, site: string): int {
    if site in p.perSite then p.perSite[site] else p.defaultPerSite
  }

  predicate SiteFull(p: Pool, site: string) {
    |ActiveAt(p.active, site)| >= SiteLimit(p, site)
  }

  predicate CanAcquire(p: Pool, site: string) {
    |p.active| < p.globalMax && !SiteFull(p, site)
  }

  function TakeSlot(p: Pool, site: string): Pool {
    p.(active := p.active + {Slot(p.nextSlot, site)}, nextSlot := p.nextSlot + 1)
  }

  function NotTicket(ticket: nat): Request -> bool { (r: Request) => r.ticket != ticket }

  /** `r` leaves the queue and takes a slot. */
  function Granted(p: Pool, r: Request): Pool {
    TakeSlot(p.(queue := Filter(NotTicket(r.ticket), p.queue)), r.site)
  }

  /** Grants what can be granted among `todo`, in order. */
  function Drained(p: Pool, todo: seq<Request>): (Pool, seq<Grant>)
    decreases |todo|
  {
    if todo == [] then (p, [])
    else if CanAcquire(p, todo[0].site) then
      var rest := Drained(Granted(p, todo[0]), todo[1..]);
      (rest.0, [Grant(todo[0], Slot(p.nextSlot, todo[0].site), p)] + rest.1)
    else Drained(p, todo[1..])
  }

  function Step(p: Pool, e: Event): (Pool, seq<Grant>) {
    match e
    case Acquire(site, taskRef) =>
      var r := Request(p.nextTicket, site, taskRef);
      var p' := p.(nextTicket := p.nextTicket + 1);
      if CanAcquire(p, site) then (TakeSlot(p', site), [Grant(r, Slot(p.nextSlot, site), p)])
      else (p'.(queue := p.queue + [r]), [])
    case Release(slot) => Drained(p.(active := p.active - {slot}), p.queue)
    case Timeout(ticket) => (p.(queue := Filter(NotTicket(ticket), p.queue)), [])
    case SetSiteLimit(site, n) => Drained(p.(perSite := p.perSite[site := n]), p.queue)
    case SetGlobalLimit(n) => Drained(p.(globalMax := n), p.queue)
  }

  function Fresh(globalMax: int, defaultPerSite: int): Pool {
    Pool(globalMax, defaultPerSite, map[], {}, [], 0, 0)
  }

  // ----- the implementation

  class AcquirePool {
    var globalMaxConcurrent: int
    const defaultPerSiteMaxConcurrent: int
    var perSiteLimits: map<string, int>
    var active: set<Slot>
    var queue: seq<Request>
    var nextSlot: nat
    var nextTicket: nat

    function State(): Pool
      reads this
    {
      Pool(globalMaxConcurrent, defaultPerSiteMaxConcurrent, perSiteLimits, active, queue, nextSlot, nextTicket)
    }

    constructor (globalMax: int, defaultPerSite: int)
      ensures State() == Fresh(globalMax, defaultPerSite)
    {
      globalMaxConcurrent, defaultPerSiteMaxConcurrent := globalMax, defaultPerSite;
      perSiteLimits, active, queue, nextSlot, nextTicket := map[], {}, [], 0, 0;
    }

    method SetMaxConcurrentPerSite(site: string, n: int) returns (grants: seq<Grant>)
      modifies this
      ensures (State(), grants) == Step(old(State()), SetSiteLimit(site, n))
    {
      perSiteLimits := perSiteLimits[site := n];
      grants := Drain();
    }

    method SetGlobalMaxConcurrent(n: int) returns (grants: seq<Grant>)
      modifies this
      ensures (State(), grants) == Step(old(State()), SetGlobalLimit(n))
    {
      globalMaxConcurrent := n;
      grants := Drain();
    }

    /** A grant at once, or a place in the queue. */
    method Acquire(site: string, taskRef: string) returns (grants: seq<Grant>)
      modifies this
      ensures (State(), grants) == Step(old(State()), Event.Acquire(site, taskRef))
    {
      var request := Request(nextTicket, site, taskRef);
      nextTicket := nextTicket + 1;
      if CanAcquire(State(), site) {
        var before := State().(nextTicket := request.ticket);
        var slot := OpenSlot(site);
        return [Grant(request, slot, before)];
      }
      queue := queue + [request];
      grants := [];
    }

    /** What the timer of a queued request does when it fires. */
    method TimeOut(ticket: nat)
      modifies this`queue
      ensures (State(), []) == Step(old(State()), Timeout(ticket))
    {
      queue := Filter(NotTicket(ticket), queue);
    }

    method Release(slot: Slot) returns (grants: seq<Grant>)
      modifies this
      ensures (State(), grants) == Step(old(State()), Event.Release(slot))
    {
      active := active - {slot};
      grants := Drain();
    }

    method OpenSlot(site: string) returns (slot: Slot)
      modifies this`active, this`nextSlot
      ensures State() == TakeSlot(old(State()), site) && slot == Slot(old(nextSlot), site)
    {
      slot := Slot(nextSlot, site);
      nextSlot := nextSlot + 1;
      active := active + {slot};
    }

    method Drain() returns (grants: seq<Grant>)
      modifies this`active, this`nextSlot, this`queue
      ensures (State(), grants) == Drained(old(State()), old(queue))
    {
      var waiting := queue;
      grants := [];
      ghost var goal := Drained(State(), waiting);
      assert waiting[0..] == waiting;
      for i := 0 to |waiting|
        invariant Drained(State(), waiting[i..]).0 == goal.0
        invariant grants + Drained(State(), waiting[i..]).1 == goal.1
      {
        var request := waiting[i];
        DrainedUnrolls(State(), waiting, i);
        if CanAcquire(State(), request.site) {
          var before := State();
          queue := Filter(NotTicket(request.ticket), queue);
          var slot := OpenSlot(request.site);
          Associates(grants, [Grant(request, slot, before)], Drained(State(), waiting[i + 1..]).1);
          grants := grants + [Grant(request, slot, before)];
        }
      }
      assert waiting[|waiting|..] == [] && grants + [] == grants;
    }
  }

  lemma DrainedUnrolls(p: Pool, waiting: seq<Request>, i: nat)
    requires i < |waiting|
    ensures var r := waiting[i];
            var (p', gs) := Drained(p, waiting[i..]);
            if CanAcquire(p, r.site) then
              && p' == Drained(Granted(p, r), waiting[i + 1..]).0
              && gs == [Grant(r, Slot(p.nextSlot, r.site), p)] + Drained(Granted(p, r), waiting[i + 1..]).1
            else (p', gs) == Drained(p, waiting[i + 1..])
  {
    assert waiting[i..][0] == waiting[i] && waiting[i..][1..] == waiting[i + 1..];
  }

  // ----- counting slots

  lemma ActiveAfterTake(p: Pool, site: string, other: string)
    requires forall s :: s in p.active ==> s.id < p.nextSlot
    ensures var p' := TakeSlot(p, site);
            && |p'.active| == |p.active| + 1
            && |ActiveAt(p'.active, other)| == |ActiveAt(p.active, other)| + (if other == site then 1 else 0)
            && forall s :: s in p'.active ==> s.id < p'.nextSlot
  {
    var slot := Slot(p.nextSlot, site);
    var p' := TakeSlot(p, site);
    if other == site {
      assert ActiveAt(p'.active, other) == ActiveAt(p.active, other) + {slot};
    } else {
      assert ActiveAt(p'.active, other) == ActiveAt(p.active, other);
    }
  }

  lemma ActiveAfterRelease(p: Pool, slot: Slot, site: string)
    ensures |p.active - {slot}| <= |p.active|
    ensures |ActiveAt(p.active - {slot}, site)| <= |ActiveAt(p.active, site)|
  {
    Fewer(p.active - {slot}, p.active);
    Fewer(ActiveAt(p.active - {slot}, site), ActiveAt(p.active, site));
  }

  lemma Fewer(a: set<Slot>, b: set<Slot>)
    requires a <= b
    ensures |a| <= |b|
  {
    assert b == a + (b - a);
  }

  // ----- what holds in every reachable pool

  /** Arrival order: tickets in a queue increase. */
  ghost predicate Ascending(rs: seq<Request>) {
    forall i, j :: 0 <= i < j < |rs| ==> rs[i].ticket < rs[j].ticket
  }

  ghost predicate WellFormed(p: Pool) {
    && (forall s :: s in p.active ==> s.id < p.nextSlot)
    && Ascending(p.queue)
    && forall i :: 0 <= i < |p.queue| ==> p.queue[i].ticket < p.nextTicket
  }

  /** No waiting request could be granted. */
  ghost predicate Settled(p: Pool) {
    forall i :: 0 <= i < |p.queue| ==> !CanAcquire(p, p.queue[i].site)
  }

  function OnSite(site: string, rs: seq<Request>): seq<Request> {
    if rs == [] then [] else if rs[0].site == site then [rs[0]] + OnSite(site, rs[1..]) else OnSite(site, rs[1..])
  }

  function Requests(gs: seq<Grant>): (rs: seq<Request>)
    ensures |rs| == |gs|
  {
    if gs == [] then [] else [gs[0].request] + Requests(gs[1..])
  }

  /** The request was within both limits, and any older one it passed was held by its own site. */
  ghost predicate Justified(g: Grant) {
    && CanAcquire(g.before, g.request.site)
    && forall i :: 0 <= i < |g.before.queue| && g.before.queue[i].ticket < g.request.ticket
         ==> g.before.queue[i].site != g.request.site && SiteFull(g.before, g.before.queue[i].site)
  }

  lemma {:induction false} OnSiteConcat(site: string, a: seq<Request>, b: seq<Request>)
    ensures OnSite(site, a + b) == OnSite(site, a) + OnSite(site, b)
  {
    if a == [] {
      assert a + b == b;
    } else {
      assert (a + b)[1..] == a[1..] + b;
      OnSiteConcat(site, a[1..], b);
    }
  }

  lemma {:induction false} OnSiteNone(site: string, rs: seq<Request>)
    requires forall i :: 0 <= i < |rs| ==> rs[i].site != site
    ensures OnSite(site, rs) == []
  {
    if rs != [] {
      OnSiteNone(site, rs[1..]);
    }
  }

  lemma {:induction false} RequestsConcat(a: seq<Grant>, b: seq<Grant>)
    ensures Requests(a + b) == Requests(a) + Requests(b)
  {
    if a == [] {
      assert a + b == b;
    } else {
      assert (a + b)[1..] == a[1..] + b;
      RequestsConcat(a[1..], b);
    }
  }

  lemma {:induction false} FilterOther(ticket: nat, rs: seq<Request>)
    requires forall i :: 0 <= i < |rs| ==> rs[i].ticket != ticket
    ensures Filter(NotTicket(ticket), rs) == rs
  {
    FilterAll(NotTicket(ticket), rs);
  }

  lemma AscendingCons(r: Request, rs: seq<Request>)
    ensures Ascending([r] + rs) <==> Ascending(rs) && forall i :: 0 <= i < |rs| ==> r.ticket < rs[i].ticket
  {
    var all := [r] + rs;
    if Ascending(all) {
      forall i | 0 <= i < |rs| ensures r.ticket < rs[i].ticket { assert all[0] == r && all[i + 1] == rs[i]; }
      forall i, j | 0 <= i < j < |rs| ensures rs[i].ticket < rs[j].ticket {
        assert all[i + 1] == rs[i] && all[j + 1] == rs[j];
      }
    }
  }

  lemma {:induction false} FilterAscending(ticket: nat, rs: seq<Request>)
    requires Ascending(rs)
    ensures Ascending(Filter(NotTicket(ticket), rs))
    ensures forall r :: r in Filter(NotTicket(ticket), rs) ==> r in rs
  {
    FilterMembers(NotTicket(ticket), rs);
    if rs != [] {
      var rest := Filter(NotTicket(ticket), rs[1..]);
      SplitFirst(rs);
      AscendingCons(rs[0], rs[1..]);
      FilterAscending(ticket, rs[1..]);
      forall i | 0 <= i < |rest| ensures rs[0].ticket < rest[i].ticket {
        assert rest[i] in rs[1..];
      }
      AscendingCons(rs[0], rest);
    }
  }

  /** Granting the first of `todo` out of `skipped + todo` leaves `skipped + todo[1..]`. */
  lemma RemoveFromQueue(skipped: seq<Request>, todo: seq<Request>)
    requires todo != [] && Ascending(skipped + todo)
    ensures Filter(NotTicket(todo[0].ticket), skipped + todo) == skipped + todo[1..]
    ensures Ascending(skipped + todo[1..])
  {
    var q, r := skipped + todo, todo[0];
    SplitFirst(todo);
    FilterConcat(NotTicket(r.ticket), skipped, todo);
    forall i | 0 <= i < |skipped| ensures skipped[i].ticket != r.ticket {
      assert q[i] == skipped[i] && q[|skipped|] == r;
    }
    forall i | 0 <= i < |todo[1..]| ensures todo[1..][i].ticket != r.ticket {
      assert q[|skipped| + i + 1] == todo[1..][i] && q[|skipped|] == r;
    }
    FilterOther(r.ticket, skipped);
    FilterOther(r.ticket, todo[1..]);
    AscendingWithout(skipped, todo);
  }

  lemma AscendingWithout(skipped: seq<Request>, todo: seq<Request>)
    requires todo != [] && Ascending(skipped + todo)
    ensures Ascending(skipped + todo[1..])
  {
    var q, u := skipped + todo, skipped + todo[1..];
    forall i, j | 0 <= i < j < |u| ensures u[i].ticket < u[j].ticket {
      assert u[i] == q[if i < |skipped| then i else i + 1] && u[j] == q[if j < |skipped| then j else j + 1];
    }
  }

  function SlotsOf(gs: seq<Grant>): set<Slot> {
    set i | 0 <= i < |gs| :: gs[i].slot
  }

  /** Per site, the grants and then the new queue are the old queue in order. */
  ghost predicate KeepsOrder(q: seq<Request>, gs: seq<Grant>, q': seq<Request>) {
    forall s :: OnSite(s, q) == OnSite(s, Requests(gs)) + OnSite(s, q')
  }

  ghost predicate AllJustified(gs: seq<Grant>) {
    forall i :: 0 <= i < |gs| ==> Justified(gs[i])
  }

  /** No more slots are active than were or than the limits allow. */
  ghost predicate StaysWithin(p: Pool, p': Pool) {
    && |p'.active| <= Max(|p.active|, p.globalMax)
    && forall s :: |ActiveAt(p'.active, s)| <= Max(|ActiveAt(p.active, s)|, SiteLimit(p, s))
  }

  ghost predicate SameLimits(p: Pool, p': Pool) {
    && p'.globalMax == p.globalMax && p'.defaultPerSite == p.defaultPerSite && p'.perSite == p.perSite
    && p'.nextTicket == p.nextTicket
  }

  /** What one pass over the queue achieves, whatever made it necessary. */
  ghost predicate DrainOk(p: Pool, p': Pool, gs: seq<Grant>) {
    && WellFormed(p') && Settled(p') && SameLimits(p, p')
    && KeepsOrder(p.queue, gs, p'.queue) && AllJustified(gs) && StaysWithin(p, p')
    && p'.active == p.active + SlotsOf(gs)
  }

  lemma GrantedQueue(p: Pool, skipped: seq<Request>, todo: seq<Request>)
    requires WellFormed(p) && p.queue == skipped + todo && todo != []
    ensures var p1 := Granted(p, todo[0]); WellFormed(p1) && p1.queue == skipped + todo[1..]
  {
    RemoveFromQueue(skipped, todo);
    forall i | 0 <= i < |skipped + todo[1..]| ensures (skipped + todo[1..])[i].ticket < p.nextTicket {
      assert (skipped + todo[1..])[i] == p.queue[if i < |skipped| then i else i + 1];
    }
  }

  lemma GrantedCounts(p: Pool, r: Request, skipped: seq<Request>)
    requires WellFormed(p) && CanAcquire(p, r.site)
    requires forall i :: 0 <= i < |skipped| ==> !CanAcquire(p, skipped[i].site)
    ensures var p1 := Granted(p, r);
            && (forall i :: 0 <= i < |skipped| ==> !CanAcquire(p1, skipped[i].site))
            && |p1.active| <= p1.globalMax
            && (forall s :: |ActiveAt(p1.active, s)| <= Max(|ActiveAt(p.active, s)|, SiteLimit(p, s)))
  {
    forall s
      ensures var p1 := Granted(p, r);
              && |p1.active| == |p.active| + 1 && SiteLimit(p1, s) == SiteLimit(p, s)
              && |ActiveAt(p1.active, s)| == |ActiveAt(p.active, s)| + (if s == r.site then 1 else 0)
    {
      ActiveAfterTake(p, r.site, s);
    }
  }

  lemma PassedAreFull(p: Pool, skipped: seq<Request>, todo: seq<Request>)
    requires WellFormed(p) && p.queue == skipped + todo && todo != [] && CanAcquire(p, todo[0].site)
    requires forall i :: 0 <= i < |skipped| ==> !CanAcquire(p, skipped[i].site)
    ensures Justified(Grant(todo[0], Slot(p.nextSlot, todo[0].site), p))
    ensures forall i :: 0 <= i < |skipped| ==> skipped[i].site != todo[0].site
  {
    assert p.queue[|skipped|] == todo[0];
    forall i | 0 <= i < |p.queue| && p.queue[i].ticket < todo[0].ticket
      ensures p.queue[i].site != todo[0].site && SiteFull(p, p.queue[i].site)
    {
      assert i < |skipped| && p.queue[i] == skipped[i];
    }
  }

  lemma SkipAhead(s: string, skipped: seq<Request>, todo: seq<Request>)
    requires todo != [] && forall i :: 0 <= i < |skipped| ==> skipped[i].site != todo[0].site
    ensures OnSite(s, skipped + todo) == OnSite(s, [todo[0]]) + OnSite(s, skipped + todo[1..])
  {
    OnSiteConcat(s, skipped, todo);
    OnSiteConcat(s, skipped, todo[1..]);
    if s == todo[0].site {
      OnSiteNone(s, skipped);
    }
  }

  lemma {:induction false} DrainSettles(p: Pool, skipped: seq<Request>, todo: seq<Request>)
    requires WellFormed(p) && p.queue == skipped + todo
    requires forall i :: 0 <= i < |skipped| ==> !CanAcquire(p, skipped[i].site)
    ensures var (p', gs) := Drained(p, todo); DrainOk(p, p', gs)
    decreases |todo|
  {
    if todo == [] {
      assert skipped + todo == skipped;
    } else if CanAcquire(p, todo[0].site) {
      var p1 := Granted(p, todo[0]);
      var g := Grant(todo[0], Slot(p.nextSlot, todo[0].site), p);
      GrantedQueue(p, skipped, todo);
      GrantedCounts(p, todo[0], skipped);
      PassedAreFull(p, skipped, todo);
      DrainSettles(p1, skipped, todo[1..]);
      forall s ensures OnSite(s, p.queue) == OnSite(s, [todo[0]]) + OnSite(s, p1.queue) {
        SkipAhead(s, skipped, todo);
      }
      var (p', gs) := Drained(p1, todo[1..]);
      DrainCombines(p, p1, p', g, gs);
    } else {
      assert skipped + todo == (skipped + [todo[0]]) + todo[1..];
      DrainSettles(p, skipped + [todo[0]], todo[1..]);
    }
  }

  lemma SlotsCons(g: Grant, gs: seq<Grant>)
    ensures SlotsOf([g] + gs) == {g.slot} + SlotsOf(gs)
  {
    var all := [g] + gs;
    assert all[0] == g && forall i :: 0 <= i < |gs| ==> all[i + 1] == gs[i];
    forall x | x in SlotsOf(gs) ensures x in SlotsOf(all) {
      var i :| 0 <= i < |gs| && gs[i].slot == x;
      assert all[i + 1].slot == x;
    }
    assert all[0].slot in SlotsOf(all);
  }

  lemma OrderCons(q0: seq<Request>, q1: seq<Request>, q': seq<Request>, g: Grant, gs: seq<Grant>)
    requires forall s :: OnSite(s, q0) == OnSite(s, [g.request]) + OnSite(s, q1)
    requires KeepsOrder(q1, gs, q')
    ensures KeepsOrder(q0, [g] + gs, q')
  {
    assert ([g] + gs)[1..] == gs;
    forall s ensures OnSite(s, q0) == OnSite(s, Requests([g] + gs)) + OnSite(s, q') {
      OnSiteConcat(s, [g.request], Requests(gs));
      Associates(OnSite(s, [g.request]), OnSite(s, Requests(gs)), OnSite(s, q'));
    }
  }

  lemma JustifiedCons(g: Grant, gs: seq<Grant>)
    requires Justified(g) && AllJustified(gs)
    ensures AllJustified([g] + gs)
  {
  }

  lemma WithinTwice(p: Pool, p1: Pool, p': Pool)
    requires SameLimits(p, p1) && |p1.active| <= p1.globalMax && StaysWithin(p1, p')
    requires forall s :: |ActiveAt(p1.active, s)| <= Max(|ActiveAt(p.active, s)|, SiteLimit(p, s))
    ensures StaysWithin(p, p')
  {
    forall s ensures |ActiveAt(p'.active, s)| <= Max(|ActiveAt(p.active, s)|, SiteLimit(p, s)) {
      assert SiteLimit(p1, s) == SiteLimit(p, s);
    }
  }

  lemma DrainCombines(p: Pool, p1: Pool, p': Pool, g: Grant, gs: seq<Grant>)
    requires DrainOk(p1, p', gs) && Justified(g) && SameLimits(p, p1)
    requires p1.active == p.active + {g.slot} && |p1.active| <= p1.globalMax
    requires forall s :: OnSite(s, p.queue) == OnSite(s, [g.request]) + OnSite(s, p1.queue)
    requires forall s :: |ActiveAt(p1.active, s)| <= Max(|ActiveAt(p.active, s)|, SiteLimit(p, s))
    ensures DrainOk(p, p', [g] + gs)
  {
    OrderCons(p.queue, p1.queue, p'.queue, g, gs);
    JustifiedCons(g, gs);
    WithinTwice(p, p1, p');
    SlotsCons(g, gs);
  }
}
