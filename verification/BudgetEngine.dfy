/**
 The budget engine: a ledger of postings in which every entry carries the hash of its own
 contents and of the entry before it. The hash (SHA-256 over the JSON of the hashed fields)
 is any function `h` of those fields.
*/
module BudgetEngines {
  import opened Wrappers
  import opened Ledger
  import opened StableSort

  type Digest = string

  datatype HashInput = HashInput(
    id: nat, tenantId: string, scope: string, posting: Posting, reason: string,
    relatedEntryId: Option<nat>, createdAt: int, prevHash: Option<Digest>)

  datatype Entry = Entry(
    id: nat, tenantId: string, scope: string, posting: Posting, reason: string,
    relatedEntryId: Option<nat>, createdAt: int, prevHash: Option<Digest>, hash: Digest)

  /** The fields of `e` that are hashed, with `prevHash` as the chain has it. */
  function InputOf(e: Entry, prevHash: Option<Digest>): HashInput {
    HashInput(e.id, e.tenantId, e.scope, e.posting, e.reason, e.relatedEntryId, e.createdAt, prevHash)
  }

  function LastHash(es: seq<Entry>): Option<Digest> {
    if es == [] then None else Some(es[|es| - 1].hash)
  }

  /** Entry `i` points to the one before it and carries the hash of its contents. */
  predicate Linked(h: HashInput -> Digest, es: seq<Entry>, i: nat)
    requires i < |es|
  {
    && es[i].prevHash == LastHash(es[..i])
    && es[i].hash == h(InputOf(es[i], es[i].prevHash))
  }

  ghost predicate Chained(h: HashInput -> Digest, es: seq<Entry>) {
    forall i :: 0 <= i < |es| ==> Linked(h, es, i)
  }

  function Postings(es: seq<Entry>): (ps: seq<Posting>)
    ensures |ps| == |es|
    ensures forall i :: 0 <= i < |es| ==> ps[i] == es[i].posting
  {
    if es == [] then [] else Postings(es[..|es| - 1]) + [es[|es| - 1].posting]
  }

  lemma PostingsAppend(es: seq<Entry>, e: Entry)
    ensures Postings(es + [e]) == Postings(es) + [e.posting]
  {
    assert (es + [e])[..|es|] == es;
  }

  ghost predicate Injective(h: HashInput -> Digest) {
    forall x, y :: h(x) == h(y) ==> x == y
  }

  lemma ChainedPrefix(h: HashInput -> Digest, es: seq<Entry>, n: nat)
    requires Chained(h, es) && n <= |es|
    ensures Chained(h, es[..n])
  {
    forall i | 0 <= i < n ensures Linked(h, es[..n], i) {
      assert es[..n][..i] == es[..i];
      assert Linked(h, es, i);
    }
  }

  /** Two different inputs with one hash. */
  ghost predicate Collides(h: HashInput -> Digest, x: HashInput, y: HashInput) {
    x != y && h(x) == h(y)
  }

  /**
   The last hash fixes the whole ledger: two ledgers that verify and end in the same hash are
   equal entry by entry, or the hash collides. So no entry of a verifying ledger can be
   altered, dropped or inserted without changing its last hash or finding a collision.
  */
  lemma {:induction false} LastHashFixesOrCollides(h: HashInput -> Digest, a: seq<Entry>, b: seq<Entry>)
    requires Chained(h, a) && Chained(h, b) && LastHash(a) == LastHash(b)
    ensures a == b || exists x, y :: Collides(h, x, y)
    decreases |a|
  {
    if a != [] {
      SameLastEntry(h, a, b);
      if a[|a| - 1] == b[|b| - 1] {
        ChainedPrefix(h, a, |a| - 1);
        ChainedPrefix(h, b, |b| - 1);
        LastHashFixesOrCollides(h, a[..|a| - 1], b[..|b| - 1]);
        SplitLast(a);
        SplitLast(b);
      }
    }
  }

  lemma SameLastEntry(h: HashInput -> Digest, a: seq<Entry>, b: seq<Entry>)
    requires Chained(h, a) && Chained(h, b) && a != [] && LastHash(a) == LastHash(b)
    ensures b != []
    ensures a[|a| - 1] == b[|b| - 1] || exists x, y :: Collides(h, x, y)
    ensures a[|a| - 1] == b[|b| - 1] ==> LastHash(a[..|a| - 1]) == LastHash(b[..|b| - 1])
  {
    var x, y := a[|a| - 1], b[|b| - 1];
    assert Linked(h, a, |a| - 1) && Linked(h, b, |b| - 1);
    if x != y { assert Collides(h, InputOf(x, x.prevHash), InputOf(y, y.prevHash)); }
  }

  /** With a hash that never collides, the last hash alone decides. */
  lemma LastHashFixesLedger(h: HashInput -> Digest, a: seq<Entry>, b: seq<Entry>)
    requires Injective(h) && Chained(h, a) && Chained(h, b)
    ensures LastHash(a) == LastHash(b) <==> a == b
  {
    if LastHash(a) == LastHash(b) {
      LastHashFixesOrCollides(h, a, b);
      assert forall x, y :: !Collides(h, x, y);
    }
  }

  class BudgetEngine {
    const scope: string
    const tenantId: string
    const hash: HashInput -> Digest
    var entries: seq<Entry>
    var nextId: nat
    /** The money side of `entries`. */
    ghost var postings: seq<Posting>

    ghost predicate Valid()
      reads this
    {
      && Chained(hash, entries)
      && postings == Postings(entries)
      && nextId == |entries| + 1
      && forall i :: 0 <= i < |entries| ==> entries[i].id == i + 1
    }

    constructor (scope: string, tenantId: string, hash: HashInput -> Digest)
      ensures Valid() && entries == [] && postings == []
    {
      this.scope, this.tenantId, this.hash := scope, tenantId, hash;
      entries, nextId, postings := [], 1, [];
    }

    function TotalCents(): (r: int)
      reads this
      requires Valid()
      ensures r == Total(postings)
    {
      Total(Postings(entries))
    }

    function SpentCents(taskId: TaskId): (r: int)
      reads this
      requires Valid()
      ensures r == Spent(postings, taskId)
    {
      Spent(Postings(entries), taskId)
    }

    function CommittedCents(taskId: TaskId): (r: int)
      reads this
      requires Valid()
      ensures r == Committed(postings, taskId)
    {
      Committed(Postings(entries), taskId)
    }

    function AvailableCents(): (r: int)
      reads this
      requires Valid()
      ensures r == Available(postings)
    {
      Available(Postings(entries))
    }

    /** `append` itself checks only the amount. */
    method Append(posting: Posting, reason: string, related: Option<nat>, createdAt: int)
      returns (r: Result<Entry, BudgetError>)
      requires Valid()
      modifies this
      ensures Valid()
      ensures r.Ok? <==> IsMoney(posting.cents)
      ensures r.Ok? ==> entries == old(entries) + [r.value] && r.value.posting == posting && r.value.reason == reason
                        && r.value.relatedEntryId == related && r.value.createdAt == createdAt
                        && r.value.tenantId == tenantId && r.value.scope == scope
      ensures r.Err? ==> r.error == InvalidMoney && entries == old(entries)
      ensures postings == old(postings) + if r.Ok? then [posting] else []
    {
      if !IsMoney(posting.cents) {
        return Err(InvalidMoney);
      }
      var prevHash := LastHash(entries);
      var input := HashInput(nextId, tenantId, scope, posting, reason, related, createdAt, prevHash);
      var entry := Entry(nextId, tenantId, scope, posting, reason, related, createdAt, prevHash, hash(input));
      ChainedAppend(hash, entries, entry);
      PostingsAppend(entries, entry);
      nextId := nextId + 1;
      entries, postings := entries + [entry], postings + [posting];
      r := Ok(entry);
    }

    /** The four checked operations: what they decide is appended, and nothing else changes. */
    method SetTotalBudget(cents: int, reason: string, at: int) returns (r: Result<Option<Entry>, BudgetError>)
      requires Valid()
      modifies this
      ensures Valid() && postings == Apply(old(postings), SetTotal(cents))
      ensures r.Ok? <==> Decide(old(postings), SetTotal(cents)).Ok?
      ensures entries == old(entries) + if r.Ok? && r.value.Some? then [r.value.value] else []
      ensures r.Err? ==> Decide(old(postings), SetTotal(cents)) == Err(r.error)
    {
      if !IsMoney(cents) {
        return Err(InvalidMoney);
      }
      var current := TotalCents();
      if cents == current {
        return Ok(None);
      }
      var kind, delta := TransferIn, cents - current;
      if cents < current {
        kind, delta := TransferOut, current - cents;
      }
      var e := Append(Posting(POOL, kind, delta), reason, None, at);
      r := if e.Ok? then Ok(Some(e.value)) else Err(e.error);
    }

    method Commit(taskId: TaskId, cents: int, reason: string, at: int) returns (r: Result<Entry, BudgetError>)
      requires Valid()
      modifies this
      ensures Valid() && postings == Apply(old(postings), CommitOp(taskId, cents))
      ensures r.Ok? <==> Decide(old(postings), CommitOp(taskId, cents)).Ok?
      ensures entries == old(entries) + if r.Ok? then [r.value] else []
      ensures r.Err? ==> Decide(old(postings), CommitOp(taskId, cents)) == Err(r.error)
    {
      if !IsMoney(cents) {
        return Err(InvalidMoney);
      }
      if AvailableCents() < cents {
        return Err(BudgetExceeded);
      }
      r := Append(Posting(taskId, Kind.Commit, cents), reason, None, at);
    }

    method Release(taskId: TaskId, cents: int, reason: string, at: int) returns (r: Result<Entry, BudgetError>)
      requires Valid()
      modifies this
      ensures Valid() && postings == Apply(old(postings), ReleaseOp(taskId, cents))
      ensures r.Ok? <==> Decide(old(postings), ReleaseOp(taskId, cents)).Ok?
      ensures entries == old(entries) + if r.Ok? then [r.value] else []
      ensures r.Err? ==> Decide(old(postings), ReleaseOp(taskId, cents)) == Err(r.error)
    {
      if !IsMoney(cents) {
        return Err(InvalidMoney);
      }
      if CommittedCents(taskId) < cents {
        return Err(BudgetExceeded);
      }
      r := Append(Posting(taskId, Kind.Release, cents), reason, None, at);
    }

    method Spend(taskId: TaskId, cents: int, reason: string, at: int) returns (r: Result<Entry, BudgetError>)
      requires Valid()
      modifies this
      ensures Valid() && postings == Apply(old(postings), SpendOp(taskId, cents))
      ensures r.Ok? <==> Decide(old(postings), SpendOp(taskId, cents)).Ok?
      ensures entries == old(entries) + if r.Ok? then [r.value] else []
      ensures r.Err? ==> Decide(old(postings), SpendOp(taskId, cents)) == Err(r.error)
    {
      if !IsMoney(cents) {
        return Err(InvalidMoney);
      }
      if CommittedCents(taskId) < cents {
        return Err(BudgetExceeded);
      }
      r := Append(Posting(taskId, Kind.Spend, cents), reason, None, at);
    }

    /** True for every ledger the engine built. */
    method VerifyHashChain() returns (ok: bool)
      ensures ok <==> Chained(hash, entries)
      ensures Valid() ==> ok
    {
      ok := VerifyChain(hash, entries);
    }
  }

  /** The loop of `verifyHashChain`, over any entries. */
  method VerifyChain(h: HashInput -> Digest, entries: seq<Entry>) returns (ok: bool)
    ensures ok <==> Chained(h, entries)
  {
    var prevHash: Option<Digest> := None;
    for i := 0 to |entries|
      invariant prevHash == LastHash(entries[..i])
      invariant forall j :: 0 <= j < i ==> Linked(h, entries, j)
    {
      var expected := h(InputOf(entries[i], prevHash));
      if entries[i].prevHash != prevHash || entries[i].hash != expected {
        assert !Linked(h, entries, i);
        return false;
      }
      prevHash := Some(entries[i].hash);
    }
    ok := true;
  }

  lemma ChainedAppend(h: HashInput -> Digest, es: seq<Entry>, e: Entry)
    requires Chained(h, es) && e.prevHash == LastHash(es) && e.hash == h(InputOf(e, e.prevHash))
    ensures Chained(h, es + [e])
  {
    var all := es + [e];
    forall i | 0 <= i < |all| ensures Linked(h, all, i) {
      assert all[..i] == es[..i];
      assert es[..|es|] == es;
      assert i < |es| ==> Linked(h, es, i);
    }
  }
}
