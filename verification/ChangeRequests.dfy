/**
 The demand-leased cache: an entry lives as long as some watcher holds a lease on it. A lease is given
 back in two steps, the count first and the eviction later under the map's lock, and anything may
 happen in between (`crates/engine/src/change_requests.rs`).
 */
module ChangeRequests {
  import opened Prelude

  datatype CacheKey = CacheKey(checkout: string, branch: string, upstream: string, remote: string)

  type EntryId = nat
  type LeaseId = nat

  datatype Lease = Lease(key: CacheKey, entry: EntryId)

  /**
   `demand` is the atomic counter of each allocated entry, `leases` are the live ones, and `closing`
   are leases whose decrement took the counter to zero and whose eviction has yet to run.
   */
  datatype Cache = Cache(
    entries: map<CacheKey, EntryId>,
    demand: map<EntryId, nat>,
    leases: map<LeaseId, Lease>,
    closing: map<LeaseId, Lease>)

  const EMPTY: Cache := Cache(map[], map[], map[], map[])

  // ── atomic steps ──────────────────────────────────────────────────────────

  datatype Step = Acquire(lease: LeaseId, key: CacheKey, slot: EntryId) | Decrement(lease: LeaseId) | Evict(lease: LeaseId)

  function AcquireStep(c: Cache, lease: LeaseId, key: CacheKey, slot: EntryId): Cache {
    var entry := if key in c.entries then c.entries[key] else slot;
    var was := if key in c.entries && entry in c.demand then c.demand[entry] else 0;
    c.(entries := c.entries[key := entry], demand := c.demand[entry := was + 1], leases := c.leases[lease := Lease(key, entry)])
  }

  /** `fetch_sub(1) != 1` ends the drop here. */
  function DecrementStep(c: Cache, lease: LeaseId): Cache
    requires lease in c.leases && c.leases[lease].entry in c.demand && c.demand[c.leases[lease].entry] > 0
  {
    var l := c.leases[lease];
    var was := c.demand[l.entry];
    var rest := c.(demand := c.demand[l.entry := was - 1], leases := c.leases - {lease});
    if was != 1 then rest else rest.(closing := rest.closing[lease := l])
  }

  /** Under the lock: only the entry that is still mapped, and only if nobody wants it again. */
  function EvictStep(c: Cache, lease: LeaseId): Cache
    requires lease in c.closing
  {
    var l := c.closing[lease];
    var rest := c.(closing := c.closing - {lease});
    if l.key in c.entries && c.entries[l.key] == l.entry && l.entry in c.demand && c.demand[l.entry] == 0
    then rest.(entries := c.entries - {l.key}) else rest
  }

  ghost predicate Enabled(c: Cache, step: Step) {
    match step
    case Acquire(lease, _, slot) => lease !in c.leases && lease !in c.closing && slot !in c.demand
    case Decrement(lease) => lease in c.leases && c.leases[lease].entry in c.demand && c.demand[c.leases[lease].entry] > 0
    case Evict(lease) => lease in c.closing
  }

  ghost function Do(c: Cache, step: Step): Cache {
    if !Enabled(c, step) then c
    else
      match step
      case Acquire(lease, key, slot) => AcquireStep(c, lease, key, slot)
      case Decrement(lease) => DecrementStep(c, lease)
      case Evict(lease) => EvictStep(c, lease)
  }

  ghost function Run(steps: seq<Step>): Cache
    decreases |steps|
  {
    if steps == [] then EMPTY else Do(Run(steps[..|steps| - 1]), steps[|steps| - 1])
  }

  // ── the invariant ─────────────────────────────────────────────────────────

  function Holders(leases: map<LeaseId, Lease>, entry: EntryId): set<LeaseId> {
    set l | l in leases && leases[l].entry == entry :: l
  }

  /** Mapped entries exist and are mapped once; a live lease's entry is the mapped one. */
  ghost predicate MapOk(c: Cache) {
    && (forall k :: k in c.entries ==> c.entries[k] in c.demand)
    && (forall k, j :: k in c.entries && j in c.entries && c.entries[k] == c.entries[j] ==> k == j)
    && (forall l :: l in c.leases ==> l !in c.closing && Get(c.entries, c.leases[l].key) == Some(c.leases[l].entry))
    && (forall l :: l in c.closing ==> c.closing[l].entry in c.demand)
  }

  ghost predicate CountOk(c: Cache) {
    forall e :: e in c.demand ==> c.demand[e] == |Holders(c.leases, e)|
  }

  /** Some half-done drop still has this entry to evict. */
  ghost predicate Closing(c: Cache, k: CacheKey) {
    k in c.entries && exists l :: l in c.closing && c.closing[l] == Lease(k, c.entries[k])
  }

  ghost predicate IdleOk(c: Cache) {
    forall k :: k in c.entries && c.entries[k] in c.demand && c.demand[c.entries[k]] == 0 ==> Closing(c, k)
  }

  ghost predicate Inv(c: Cache) {
    MapOk(c) && CountOk(c) && IdleOk(c)
  }

  lemma HoldersAdd(leases: map<LeaseId, Lease>, lease: LeaseId, l: Lease, e: EntryId)
    requires lease !in leases
    ensures |Holders(leases[lease := l], e)| == |Holders(leases, e)| + if l.entry == e then 1 else 0
  {
    var before, after := Holders(leases, e), Holders(leases[lease := l], e);
    forall x
      ensures x in after <==> x in before || (x == lease && l.entry == e)
    {
      var more := leases[lease := l];
      assert x in more <==> x in leases || x == lease;
      assert x in leases ==> more[x] == leases[x];
    }
    assert after == before + if l.entry == e then {lease} else {};
  }

  lemma HoldersRemove(leases: map<LeaseId, Lease>, lease: LeaseId, e: EntryId)
    requires lease in leases
    ensures |Holders(leases - {lease}, e)| == |Holders(leases, e)| - if leases[lease].entry == e then 1 else 0
  {
    var before, after := Holders(leases, e), Holders(leases - {lease}, e);
    forall x
      ensures x in after <==> x in before && x != lease
    {
      var rest := leases - {lease};
      assert x in rest <==> x in leases && x != lease;
      assert x in rest ==> rest[x] == leases[x];
    }
    assert after == before - {lease};
    assert leases[lease].entry == e <==> lease in before;
  }

  lemma NoHolders(c: Cache, e: EntryId)
    requires MapOk(c) && e !in c.demand
    ensures Holders(c.leases, e) == {}
  {
    forall l | l in c.leases
      ensures c.leases[l].entry != e
    {
      assert Get(c.entries, c.leases[l].key) == Some(c.leases[l].entry);
    }
  }

  lemma AcquireCounts(c: Cache, lease: LeaseId, key: CacheKey, slot: EntryId)
    requires Inv(c) && Enabled(c, Acquire(lease, key, slot))
    ensures CountOk(AcquireStep(c, lease, key, slot))
  {
    var n := AcquireStep(c, lease, key, slot);
    forall e | e in n.demand
      ensures n.demand[e] == |Holders(n.leases, e)|
    {
      HoldersAdd(c.leases, lease, n.leases[lease], e);
      if e !in c.demand {
        NoHolders(c, e);
      }
    }
  }

  lemma AcquireMaps(c: Cache, lease: LeaseId, key: CacheKey, slot: EntryId)
    requires Inv(c) && Enabled(c, Acquire(lease, key, slot))
    ensures MapOk(AcquireStep(c, lease, key, slot))
  {
    var n := AcquireStep(c, lease, key, slot);
    assert forall k :: k in c.entries ==> c.entries[k] != slot;
    assert forall k :: k in c.entries ==> n.entries[k] == c.entries[k];
    forall l | l in n.leases
      ensures l !in n.closing && Get(n.entries, n.leases[l].key) == Some(n.leases[l].entry)
    {
      if l != lease {
        assert Get(c.entries, c.leases[l].key) == Some(c.leases[l].entry);
      }
    }
  }

  lemma AcquireKeeps(c: Cache, lease: LeaseId, key: CacheKey, slot: EntryId)
    requires Inv(c) && Enabled(c, Acquire(lease, key, slot))
    ensures Inv(AcquireStep(c, lease, key, slot))
  {
    var n := AcquireStep(c, lease, key, slot);
    AcquireCounts(c, lease, key, slot);
    AcquireMaps(c, lease, key, slot);
    forall k | k in n.entries && n.entries[k] in n.demand && n.demand[n.entries[k]] == 0
      ensures Closing(n, k)
    {
      assert k != key && n.entries[k] == c.entries[k];
      assert Closing(c, k);
    }
  }

  lemma DecrementCounts(c: Cache, lease: LeaseId)
    requires Inv(c) && Enabled(c, Decrement(lease))
    ensures CountOk(DecrementStep(c, lease))
  {
    var n := DecrementStep(c, lease);
    forall e | e in n.demand
      ensures n.demand[e] == |Holders(n.leases, e)|
    {
      HoldersRemove(c.leases, lease, e);
    }
  }

  lemma DecrementMaps(c: Cache, lease: LeaseId)
    requires Inv(c) && Enabled(c, Decrement(lease))
    ensures MapOk(DecrementStep(c, lease))
  {
    var l := c.leases[lease];
    assert Get(c.entries, l.key) == Some(l.entry) && lease !in c.closing;
  }

  lemma DecrementKeeps(c: Cache, lease: LeaseId)
    requires Inv(c) && Enabled(c, Decrement(lease))
    ensures Inv(DecrementStep(c, lease))
  {
    var n := DecrementStep(c, lease);
    var l := c.leases[lease];
    DecrementCounts(c, lease);
    DecrementMaps(c, lease);
    assert Get(c.entries, l.key) == Some(l.entry);
    forall k | k in n.entries && n.entries[k] in n.demand && n.demand[n.entries[k]] == 0
      ensures Closing(n, k)
    {
      if k == l.key {
        assert n.closing[lease] == Lease(k, n.entries[k]);
      } else {
        assert c.entries[k] != l.entry;
        assert Closing(c, k);
        var d :| d in c.closing && c.closing[d] == Lease(k, c.entries[k]);
        assert n.closing[d] == c.closing[d];
      }
    }
  }

  /** An entry that somebody holds is never the one evicted. */
  lemma EvictSparesHeld(c: Cache, lease: LeaseId, d: LeaseId)
    requires Inv(c) && Enabled(c, Evict(lease)) && d in c.leases
    ensures Get(EvictStep(c, lease).entries, c.leases[d].key) == Some(c.leases[d].entry)
  {
    var held := c.leases[d];
    assert Get(c.entries, held.key) == Some(held.entry);
    assert d in Holders(c.leases, held.entry);
    assert c.demand[held.entry] > 0;
  }

  lemma EvictKeeps(c: Cache, lease: LeaseId)
    requires Inv(c) && Enabled(c, Evict(lease))
    ensures Inv(EvictStep(c, lease))
  {
    var n := EvictStep(c, lease);
    var l := c.closing[lease];
    forall d | d in n.leases
      ensures Get(n.entries, n.leases[d].key) == Some(n.leases[d].entry)
    {
      EvictSparesHeld(c, lease, d);
    }
    forall k | k in n.entries && n.entries[k] in n.demand && n.demand[n.entries[k]] == 0
      ensures Closing(n, k)
    {
      assert Closing(c, k);
      var d :| d in c.closing && c.closing[d] == Lease(k, c.entries[k]);
      assert n.closing[d] == c.closing[d];
    }
  }

  lemma {:induction false} RunsKeepInv(steps: seq<Step>)
    ensures Inv(Run(steps))
    decreases |steps|
  {
    if steps != [] {
      var c, step := Run(steps[..|steps| - 1]), steps[|steps| - 1];
      RunsKeepInv(steps[..|steps| - 1]);
      if Enabled(c, step) {
        match step
        case Acquire(lease, key, slot) => AcquireKeeps(c, lease, key, slot);
        case Decrement(lease) => DecrementKeeps(c, lease);
        case Evict(lease) => EvictKeeps(c, lease);
      }
    }
  }

  // ── what every interleaving guarantees ────────────────────────────────────

  /**
   Under every interleaving a live lease's entry is the one mapped for its key, so a refresh finds it,
   watchers of one key share one entry, and the counter is the number of watchers.
   */
  lemma LiveLeasesAreMapped(steps: seq<Step>, l: LeaseId)
    requires l in Run(steps).leases
    ensures var c := Run(steps);
            && Get(c.entries, c.leases[l].key) == Some(c.leases[l].entry)
            && c.leases[l].entry in c.demand && c.demand[c.leases[l].entry] == |Holders(c.leases, c.leases[l].entry)| > 0
            && forall m :: m in c.leases && c.leases[m].key == c.leases[l].key ==> c.leases[m].entry == c.leases[l].entry
  {
    RunsKeepInv(steps);
    var c := Run(steps);
    assert l in Holders(c.leases, c.leases[l].entry);
    assert Get(c.entries, c.leases[l].key) == Some(c.leases[l].entry);
    forall m | m in c.leases && c.leases[m].key == c.leases[l].key
      ensures c.leases[m].entry == c.leases[l].entry
    {
      assert Get(c.entries, c.leases[m].key) == Some(c.leases[m].entry);
    }
  }

  /** Nothing is left behind: once no drop is half done, a key is mapped exactly when somebody watches it. */
  lemma NoEntryOutlivesItsLeases(steps: seq<Step>, key: CacheKey)
    requires Run(steps).closing == map[]
    ensures var c := Run(steps);
            key in c.entries <==> exists l :: l in c.leases && c.leases[l].key == key
  {
    RunsKeepInv(steps);
    var c := Run(steps);
    if key in c.entries {
      assert c.demand[c.entries[key]] == |Holders(c.leases, c.entries[key])|;
      assert Holders(c.leases, c.entries[key]) != {};
      var l :| l in Holders(c.leases, c.entries[key]);
      assert Get(c.entries, c.leases[l].key) == Some(c.leases[l].entry);
    }
    forall l | l in c.leases
      ensures c.leases[l].key in c.entries
    {
      assert Get(c.entries, c.leases[l].key) == Some(c.leases[l].entry);
    }
  }

  /** A watcher holds its lease at once, on the entry others share, or on a new one nobody else has. */
  lemma WatchersAreServed(steps: seq<Step>, lease: LeaseId, key: CacheKey, slot: EntryId)
    requires Enabled(Run(steps), Acquire(lease, key, slot))
    ensures var c, n := Run(steps), Run(steps + [Acquire(lease, key, slot)]);
            && n.leases.Keys == c.leases.Keys + {lease} && n.leases[lease].key == key
            && n.leases[lease].entry == (if key in c.entries then c.entries[key] else slot)
            && Get(n.entries, key) == Some(n.leases[lease].entry)
            && (forall l :: l in c.leases ==> n.leases[l] == c.leases[l])
            && forall k :: k != key ==> Get(n.entries, k) == Get(c.entries, k)
  {
    RunSnoc(steps, Acquire(lease, key, slot));
  }

  lemma RunSnoc(steps: seq<Step>, step: Step)
    ensures Run(steps + [step]) == Do(Run(steps), step)
  {
    assert (steps + [step])[..|steps|] == steps;
  }

  /** What is left to do until nobody watches anything: two steps for each lease and one for each half-done drop. */
  ghost function ToDo(c: Cache): nat {
    2 * |c.leases.Keys| + |c.closing.Keys|
  }

  lemma Evicted(c: Cache, l: LeaseId)
    requires l in c.closing
    ensures ToDo(Do(c, Evict(l))) == ToDo(c) - 1
  {
    var n := Do(c, Evict(l));
    assert n.leases == c.leases && n.closing.Keys == c.closing.Keys - {l};
  }

  lemma KeysAfterDecrement(c: Cache, l: LeaseId)
    requires Enabled(c, Decrement(l))
    ensures var n := Do(c, Decrement(l)); n.leases.Keys == c.leases.Keys - {l} && n.closing.Keys <= c.closing.Keys + {l}
  {
  }

  lemma OneMore(a: set<LeaseId>, b: set<LeaseId>, x: LeaseId)
    requires a <= b + {x}
    ensures |a| <= |b| + 1
  {
    assert a - {x} <= b;
    Within(a - {x}, b);
  }

  lemma {:induction false} Within(a: set<LeaseId>, b: set<LeaseId>)
    requires a <= b
    ensures |a| <= |b|
  {
    if x :| x in a {
      Within(a - {x}, b - {x});
    }
  }

  lemma Decremented(c: Cache, l: LeaseId)
    requires Enabled(c, Decrement(l))
    ensures ToDo(Do(c, Decrement(l))) < ToDo(c)
  {
    KeysAfterDecrement(c, l);
    OneMore(Do(c, Decrement(l)).closing.Keys, c.closing.Keys, l);
  }

  /** Some half-done drop can be finished, or else some lease be given back. */
  lemma SomeStepIsLeft(c: Cache) returns (step: Step)
    requires Inv(c) && !Idle(c)
    ensures !step.Acquire? && ToDo(Do(c, step)) < ToDo(c)
  {
    if c.closing != map[] {
      var l :| l in c.closing;
      step := Evict(l);
      Evicted(c, l);
    } else {
      var l :| l in c.leases;
      step := Decrement(l);
      assert Get(c.entries, c.leases[l].key) == Some(c.leases[l].entry);
      assert l in Holders(c.leases, c.leases[l].entry);
      Decremented(c, l);
    }
  }

  /** Nobody watches anything, and no drop is half done. */
  ghost predicate Idle(c: Cache) {
    c.leases == map[] && c.closing == map[]
  }

  lemma NothingIsMapped(steps: seq<Step>)
    requires Idle(Run(steps))
    ensures Run(steps).entries == map[]
  {
    forall k
      ensures k !in Run(steps).entries
    {
      NoEntryOutlivesItsLeases(steps, k);
    }
  }

  lemma {:induction false} LeasesRunOut(steps: seq<Step>) returns (more: seq<Step>)
    ensures forall s :: s in more ==> !s.Acquire?
    ensures Idle(Run(steps + more))
    decreases ToDo(Run(steps))
  {
    var c := Run(steps);
    if Idle(c) {
      more := [];
      assert steps + [] == steps;
    } else {
      RunsKeepInv(steps);
      var step := SomeStepIsLeft(c);
      RunSnoc(steps, step);
      var rest := LeasesRunOut(steps + [step]);
      more := [step] + rest;
      Regroup(steps, [step], rest);
    }
  }

  /** From every world the leases can all be given back, and then nothing is mapped. */
  lemma EveryCacheCanEmpty(steps: seq<Step>) returns (more: seq<Step>)
    ensures forall s :: s in more ==> !s.Acquire?
    ensures Idle(Run(steps + more)) && Run(steps + more).entries == map[]
  {
    more := LeasesRunOut(steps);
    NothingIsMapped(steps + more);
  }
}
