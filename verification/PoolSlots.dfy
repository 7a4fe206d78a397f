/**
 The slots of an acquire pool over whole runs. A `History` is what an observer sees of a run:
 the operations, and the grants each of them resolved. Which slots are held, and which limits
 are in force, is read off it alone.
*/
module PoolSlots {
  import opened Wrappers
  import opened StableSort
  import opened AcquirePools
  import opened PoolRuns

  datatype Entry = Entry(event: Event, grants: seq<Grant>)

  function History(globalMax: int, perSite: int, es: seq<Event>): seq<Entry> {
    if es == [] then []
    else
      var before, e := es[..|es| - 1], es[|es| - 1];
      History(globalMax, perSite, before) + [Entry(e, Step(Run(globalMax, perSite, before).0, e).1)]
  }

  function Released(e: Event): set<Slot> {
    if e.Release? then {e.slot} else {}
  }

  /** The slots granted and not released since. */
  function Held(h: seq<Entry>): set<Slot> {
    if h == [] then {}
    else Held(h[..|h| - 1]) - Released(h[|h| - 1].event) + SlotsOf(h[|h| - 1].grants)
  }

  /** The limit last set for all sites together. */
  function GlobalLimit(globalMax: int, h: seq<Entry>): int {
    if h == [] then globalMax
    else
      match h[|h| - 1].event
      case SetGlobalLimit(n) => n
      case _ => GlobalLimit(globalMax, h[..|h| - 1])
  }

  /** The limit last set for a site, or the default. */
  function LimitOf(perSite: int, h: seq<Entry>, site: string): int {
    if h == [] then perSite
    else
      match h[|h| - 1].event
      case SetSiteLimit(s, n) => if s == site then n else LimitOf(perSite, h[..|h| - 1], site)
      case _ => LimitOf(perSite, h[..|h| - 1], site)
  }

  /** The pool has exactly the slots and the limits that can be read off the history. */
  ghost predicate Shows(globalMax: int, perSite: int, p: Pool, h: seq<Entry>) {
    && p.active == Held(h)
    && p.globalMax == GlobalLimit(globalMax, h)
    && forall s :: SiteLimit(p, s) == LimitOf(perSite, h, s)
  }

  lemma ShowsDrain(p: Pool, p0: Pool)
    requires WellFormed(p0)
    ensures var (p', gs) := Drained(p0, p0.queue);
            && p'.active == p0.active + SlotsOf(gs) && p'.globalMax == p0.globalMax
            && forall s :: SiteLimit(p', s) == SiteLimit(p0, s)
  {
    DrainAll(p0);
  }

  lemma StepShows(p: Pool, e: Event, p': Pool, gs: seq<Grant>)
    requires WellFormed(p) && (p', gs) == Step(p, e)
    ensures p'.active == p.active - Released(e) + SlotsOf(gs)
    ensures p'.globalMax == if e.SetGlobalLimit? then e.n else p.globalMax
    ensures forall s :: SiteLimit(p', s) == if e.SetSiteLimit? && e.site == s then e.n else SiteLimit(p, s)
  {
    match e
    case Acquire(site, _) =>
      if CanAcquire(p, site) { SlotsOfOne(gs[0]); }
    case Release(slot) => ShowsDrain(p, p.(active := p.active - {slot}));
    case Timeout(_) =>
    case SetSiteLimit(site, n) => ShowsDrain(p, p.(perSite := p.perSite[site := n]));
    case SetGlobalLimit(n) => ShowsDrain(p, p.(globalMax := n));
  }

  lemma SlotsOfOne(g: Grant)
    ensures SlotsOf([g]) == {g.slot}
  {
    assert [g][0].slot in SlotsOf([g]);
  }

  /**
   Slots are conserved over every run: the active slots are exactly those granted and not
   released since; and the limits in force are exactly those last set.
  */
  lemma {:induction false} SlotsAreConserved(globalMax: int, perSite: int, es: seq<Event>)
    ensures Shows(globalMax, perSite, Run(globalMax, perSite, es).0, History(globalMax, perSite, es))
  {
    if es != [] {
      var before, e := es[..|es| - 1], es[|es| - 1];
      var (p, l) := Run(globalMax, perSite, before);
      var h := History(globalMax, perSite, before);
      var (p', gs) := Step(p, e);
      SlotsAreConserved(globalMax, perSite, before);
      RunIsFair(globalMax, perSite, before);
      StepShows(p, e, p', gs);
      ShowsNext(globalMax, perSite, p, h, e, p', gs);
    }
  }

  lemma ShowsNext(globalMax: int, perSite: int, p: Pool, h: seq<Entry>, e: Event, p': Pool, gs: seq<Grant>)
    requires Shows(globalMax, perSite, p, h)
    requires p'.active == p.active - Released(e) + SlotsOf(gs)
    requires p'.globalMax == if e.SetGlobalLimit? then e.n else p.globalMax
    requires forall s :: SiteLimit(p', s) == if e.SetSiteLimit? && e.site == s then e.n else SiteLimit(p, s)
    ensures Shows(globalMax, perSite, p', h + [Entry(e, gs)])
  {
    var h' := h + [Entry(e, gs)];
    assert h'[..|h|] == h && h'[|h|] == Entry(e, gs);
    forall s ensures SiteLimit(p', s) == LimitOf(perSite, h', s) {
      assert SiteLimit(p, s) == LimitOf(perSite, h, s);
    }
  }

  /** Every slot granted is new: no earlier grant and no active slot has its id. */
  lemma SlotsAreFresh(p: Pool, e: Event, i: nat)
    requires WellFormed(p) && i < |Step(p, e).1|
    ensures Step(p, e).1[i].slot !in p.active && Step(p, e).1[i].slot.id >= p.nextSlot
    ensures Step(p, e).1[i].slot.site == Step(p, e).1[i].request.site
  {
    match e
    case Acquire(site, _) =>
    case Release(slot) => FreshInDrain(p.(active := p.active - {slot}), p.queue, i);
    case SetSiteLimit(site, n) => FreshInDrain(p.(perSite := p.perSite[site := n]), p.queue, i);
    case SetGlobalLimit(n) => FreshInDrain(p.(globalMax := n), p.queue, i);
  }

  lemma {:induction false} FreshInDrain(p: Pool, todo: seq<Request>, i: nat)
    requires i < |Drained(p, todo).1|
    ensures Drained(p, todo).1[i].slot.id >= p.nextSlot
    ensures Drained(p, todo).1[i].slot.site == Drained(p, todo).1[i].request.site
    decreases |todo|
  {
    if CanAcquire(p, todo[0].site) {
      if i > 0 { FreshInDrain(Granted(p, todo[0]), todo[1..], i - 1); }
    } else {
      FreshInDrain(p, todo[1..], i);
    }
  }

  // ----- releasing

  /** A request fits once `slot` is released. */
  predicate Fits(p: Pool, slot: Slot, r: Request) {
    && |p.active| - 1 < p.globalMax
    && |ActiveAt(p.active, r.site)| - (if r.site == slot.site then 1 else 0) < SiteLimit(p, r.site)
  }

  /** Request `k` is the oldest waiting one that fits. */
  ghost predicate FirstThatFits(p: Pool, slot: Slot, k: nat) {
    && k < |p.queue| && Fits(p, slot, p.queue[k])
    && forall i :: 0 <= i < k ==> !Fits(p, slot, p.queue[i])
  }

  lemma FreedCounts(p: Pool, slot: Slot, site: string)
    requires slot in p.active
    ensures |p.active - {slot}| == |p.active| - 1
    ensures |ActiveAt(p.active - {slot}, site)| == |ActiveAt(p.active, site)| - (if site == slot.site then 1 else 0)
  {
    if site == slot.site {
      assert ActiveAt(p.active - {slot}, site) == ActiveAt(p.active, site) - {slot};
      assert slot in ActiveAt(p.active, site);
    } else {
      assert ActiveAt(p.active - {slot}, site) == ActiveAt(p.active, site);
    }
  }

  lemma FitsIsCan(p: Pool, slot: Slot, r: Request)
    requires slot in p.active
    ensures Fits(p, slot, r) <==> CanAcquire(p.(active := p.active - {slot}), r.site)
  {
    FreedCounts(p, slot, r.site);
  }

  /** A pass that finds nothing to grant changes nothing. */
  lemma {:induction false} DrainNothing(p: Pool, todo: seq<Request>)
    requires forall i :: 0 <= i < |todo| ==> !CanAcquire(p, todo[i].site)
    ensures Drained(p, todo) == (p, [])
    decreases |todo|
  {
    if todo != [] { DrainNothing(p, todo[1..]); }
  }

  lemma {:induction false} DrainSkips(p: Pool, todo: seq<Request>, k: nat)
    requires k <= |todo| && forall i :: 0 <= i < k ==> !CanAcquire(p, todo[i].site)
    ensures Drained(p, todo) == Drained(p, todo[k..])
    decreases k
  {
    if k > 0 {
      DrainSkips(p, todo[1..], k - 1);
      assert todo[1..][k - 1..] == todo[k..];
    } else {
      assert todo[0..] == todo;
    }
  }

  /** Once the freed room is taken again, no other waiting request fits. */
  lemma RoomIsTaken(p: Pool, slot: Slot, r: Request, q: Request)
    requires WellFormed(p) && slot in p.active && Fits(p, slot, r)
    requires !CanAcquire(p, r.site) && !CanAcquire(p, q.site)
    ensures var p0 := p.(active := p.active - {slot}); !CanAcquire(Granted(p0, r), q.site)
  {
    var p0 := p.(active := p.active - {slot});
    FreedCounts(p, slot, q.site);
    FreedCounts(p, slot, r.site);
    ActiveAfterTake(p0, r.site, q.site);
    assert SiteLimit(Granted(p0, r), q.site) == SiteLimit(p, q.site);
  }

  /**
   Releasing an active slot frees room for exactly one: the counts fall by one, and the oldest
   waiting request that then fits is granted a new slot, if there is one; nothing else changes.
  */
  lemma ReleaseGrantsNext(p: Pool, slot: Slot, k: nat)
    requires WellFormed(p) && Settled(p) && slot in p.active && FirstThatFits(p, slot, k)
    ensures var (p', gs) := Step(p, Release(slot));
            && |gs| == 1 && gs[0].request == p.queue[k]
            && p'.active == p.active - {slot} + {gs[0].slot} && gs[0].slot !in p.active
            && p'.queue == Filter(NotTicket(p.queue[k].ticket), p.queue)
  {
    var p0, r := p.(active := p.active - {slot}), p.queue[k];
    var rest := p.queue[k + 1..];
    forall i | 0 <= i < k ensures !CanAcquire(p0, p.queue[i].site) {
      FitsIsCan(p, slot, p.queue[i]);
    }
    FitsIsCan(p, slot, r);
    DrainSkips(p0, p.queue, k);
    assert p.queue[k..][0] == r && p.queue[k..][1..] == rest;
    forall i | 0 <= i < |rest| ensures !CanAcquire(Granted(p0, r), rest[i].site) {
      assert rest[i] == p.queue[k + 1 + i];
      RoomIsTaken(p, slot, r, rest[i]);
    }
    DrainNothing(Granted(p0, r), rest);
  }

  /** If nobody fits, releasing an active slot only frees it. */
  lemma ReleaseFrees(p: Pool, slot: Slot)
    requires WellFormed(p) && slot in p.active && forall i :: 0 <= i < |p.queue| ==> !Fits(p, slot, p.queue[i])
    ensures Step(p, Release(slot)) == (p.(active := p.active - {slot}), [])
    ensures |Step(p, Release(slot)).0.active| == |p.active| - 1
  {
    forall i | 0 <= i < |p.queue| ensures !CanAcquire(p.(active := p.active - {slot}), p.queue[i].site) {
      FitsIsCan(p, slot, p.queue[i]);
    }
    DrainNothing(p.(active := p.active - {slot}), p.queue);
    FreedCounts(p, slot, slot.site);
  }

  /** Releasing a slot that is not active, or no longer, changes nothing. */
  lemma ReleaseTwice(p: Pool, slot: Slot)
    requires Settled(p) && slot !in p.active
    ensures Step(p, Release(slot)) == (p, [])
  {
    assert p.active - {slot} == p.active;
    DrainNothing(p, p.queue);
  }

  /** What releasing `slot` is to do: the counts as they were, less the slot, decide who is next. */
  ghost predicate Frees(p: Pool, slot: Slot, p': Pool, gs: seq<Grant>) {
    && (forall k: nat :: FirstThatFits(p, slot, k) ==>
          |gs| == 1 && gs[0].request == p.queue[k] && p'.active == p.active - {slot} + {gs[0].slot})
    && ((forall i :: 0 <= i < |p.queue| ==> !Fits(p, slot, p.queue[i])) ==>
          gs == [] && p' == p.(active := p.active - {slot}))
  }

  lemma ReleaseDoes(p: Pool, slot: Slot, p': Pool, gs: seq<Grant>)
    requires WellFormed(p) && Settled(p) && slot in p.active && (p', gs) == Step(p, Release(slot))
    ensures Frees(p, slot, p', gs)
  {
    forall k: nat | FirstThatFits(p, slot, k)
      ensures |gs| == 1 && gs[0].request == p.queue[k] && p'.active == p.active - {slot} + {gs[0].slot}
    {
      ReleaseGrantsNext(p, slot, k);
    }
    if forall i :: 0 <= i < |p.queue| ==> !Fits(p, slot, p.queue[i]) { ReleaseFrees(p, slot); }
  }

  /**
   In every reachable pool: releasing a slot that is held grants exactly the oldest waiting
   request that then fits, or frees the slot if none does; releasing any other slot does nothing.
  */
  lemma ReleaseExactly(globalMax: int, perSite: int, es: seq<Event>, p: Pool, slot: Slot, p': Pool, gs: seq<Grant>)
    requires p == Run(globalMax, perSite, es).0 && (p', gs) == Step(p, Release(slot))
    ensures slot in Held(History(globalMax, perSite, es)) ==> Frees(p, slot, p', gs)
    ensures slot !in Held(History(globalMax, perSite, es)) ==> p' == p && gs == []
  {
    SlotsAreConserved(globalMax, perSite, es);
    RunIsFair(globalMax, perSite, es);
    if slot in p.active { ReleaseDoes(p, slot, p', gs); } else { ReleaseTwice(p, slot); }
  }
}
