/** internal/platform/gateway_cache.go: its entries and the gateways they hold. */
module GatewayEntries {
  import opened Common
  import StringOrder

  /** A gateway stands for one object a builder made. */
  type Gateway = nat

  datatype Entry = Entry(fingerprint: string, gateway: Gateway, lastUsed: int)

  type Entries = map<string, Entry>

  /** The gateways held by the entries, each as often as it is held. */
  ghost function Bag(entries: Entries): multiset<Gateway> {
    if entries == map[] then multiset{}
    else
      var k :| k in entries;
      multiset{entries[k].gateway} + Bag(entries - {k})
  }

  lemma BagUnfolds(entries: Entries) returns (k: string)
    requires entries != map[]
    ensures k in entries && Bag(entries) == multiset{entries[k].gateway} + Bag(entries - {k})
  {
    k :| k in entries && Bag(entries) == multiset{entries[k].gateway} + Bag(entries - {k});
  }

  lemma WithoutOne(entries: Entries, k: string)
    requires k in entries
    ensures |entries - {k}| < |entries|
  {
    assert entries == (entries - {k})[k := entries[k]];
  }

  lemma Regroup(x: multiset<Gateway>, y: multiset<Gateway>, rest: multiset<Gateway>)
    ensures x + (y + rest) == y + (x + rest)
  {
  }

  lemma WithoutTwo(entries: Entries, j: string, k: string)
    ensures entries - {j} - {k} == entries - {k} - {j}
  {
  }

  lemma {:induction false} BagWithout(entries: Entries, k: string)
    requires k in entries
    ensures Bag(entries) == multiset{entries[k].gateway} + Bag(entries - {k})
    decreases |entries|
  {
    var j := BagUnfolds(entries);
    if j != k {
      var x, y, rest := multiset{entries[j].gateway}, multiset{entries[k].gateway}, Bag(entries - {j} - {k});
      WithoutOne(entries, j);
      WithoutOne(entries, k);
      BagWithout(entries - {j}, k);
      BagWithout(entries - {k}, j);
      WithoutTwo(entries, j, k);
      Regroup(x, y, rest);
      assert Bag(entries - {j}) == y + rest;
      assert Bag(entries - {k}) == x + rest;
    }
  }

  lemma BagWith(entries: Entries, k: string, e: Entry)
    requires k !in entries
    ensures Bag(entries[k := e]) == Bag(entries) + multiset{e.gateway}
  {
    BagWithout(entries[k := e], k);
    assert entries[k := e] - {k} == entries;
  }

  /** `a` holds a part of what `b` holds. */
  ghost predicate Part(a: Entries, b: Entries) {
    forall k :: k in a ==> k in b && a[k].gateway == b[k].gateway
  }

  lemma {:induction false} BagOfPart(a: Entries, b: Entries)
    requires Part(a, b)
    ensures Bag(a) <= Bag(b)
    decreases |a|
  {
    if a != map[] {
      var k :| k in a;
      BagWithout(a, k);
      BagWithout(b, k);
      BagOfPart(a - {k}, b - {k});
    }
  }

  // ---- conservation ----

  /** Every gateway held before, and every gateway brought in, is held after or retired, exactly once. */
  ghost predicate Conserved(before: Entries, added: seq<Gateway>, after: Entries, retired: seq<Gateway>) {
    Bag(before) + multiset(added) == Bag(after) + multiset(retired)
  }

  /** Then what is retired is exactly what the entries, with what was brought in, have lost: this is how
      the callers' world counts retirements. */
  lemma RetiredIsWhatIsLost(before: Entries, added: seq<Gateway>, after: Entries, retired: seq<Gateway>)
    requires Conserved(before, added, after, retired)
    ensures Bag(after) <= Bag(before) + multiset(added)
    ensures multiset(retired) == Bag(before) + multiset(added) - Bag(after)
  {
    Difference(Bag(before) + multiset(added), Bag(after), multiset(retired));
  }

  lemma Difference(all: multiset<Gateway>, left: multiset<Gateway>, gone: multiset<Gateway>)
    requires all == left + gone
    ensures left <= all && gone == all - left
  {
  }

  lemma ConservedByRemoval(entries: Entries, k: string)
    requires k in entries
    ensures Conserved(entries, [], entries - {k}, [entries[k].gateway])
  {
    BagWithout(entries, k);
  }

  lemma ConservedByTouch(entries: Entries, k: string, e: Entry)
    requires k in entries && e.gateway == entries[k].gateway
    ensures Conserved(entries, [], entries[k := e], [])
  {
    BagWithout(entries, k);
    BagWith(entries - {k}, k, e);
    assert (entries - {k})[k := e] == entries[k := e];
  }

  /** One section after another, the second bringing nothing in. */
  lemma ConservedTwice(a: Entries, x: seq<Gateway>, b: Entries, r: seq<Gateway>, c: Entries, q: seq<Gateway>)
    requires Conserved(a, x, b, r) && Conserved(b, [], c, q)
    ensures Conserved(a, x, c, r + q)
  {
    assert multiset(r + q) == multiset(r) + multiset(q);
    SumOfTwo(Bag(a) + multiset(x), Bag(b), multiset(r), Bag(c), multiset(q));
  }

  lemma SumOfTwo(a: multiset<Gateway>, b: multiset<Gateway>, r: multiset<Gateway>, c: multiset<Gateway>, q: multiset<Gateway>)
    requires a == b + r && b + multiset{} == c + q
    ensures a == c + (r + q)
  {
    assert b == b + multiset{};
    assert (c + q) + r == c + (r + q);
  }

  lemma Added(cached: multiset<Gateway>, y: Gateway)
    ensures cached + multiset([y]) == (cached + multiset{y}) + multiset([])
  {
    assert multiset([y]) == multiset{y};
  }

  lemma Exchanged(rest: multiset<Gateway>, x: Gateway, y: Gateway)
    ensures (multiset{x} + rest) + multiset([y]) == (rest + multiset{y}) + multiset([x])
  {
    assert multiset([x]) == multiset{x} && multiset([y]) == multiset{y};
  }

  lemma ConservedByAdding(entries: Entries, k: string, e: Entry)
    requires k !in entries
    ensures Conserved(entries, [e.gateway], entries[k := e], [])
  {
    BagWith(entries, k, e);
    Added(Bag(entries), e.gateway);
  }

  lemma BagAfterPut(entries: Entries, k: string, e: Entry)
    ensures Bag(entries[k := e]) == Bag(entries - {k}) + multiset{e.gateway}
  {
    BagWithout(entries[k := e], k);
    assert entries[k := e] - {k} == entries - {k};
  }

  lemma ConservedByReplacing(entries: Entries, k: string, e: Entry)
    requires k in entries
    ensures Conserved(entries, [e.gateway], entries[k := e], [entries[k].gateway])
  {
    BagWithout(entries, k);
    BagAfterPut(entries, k, e);
    Exchanged(Bag(entries - {k}), entries[k].gateway, e.gateway);
  }

  lemma ConservedByStoring(entries: Entries, k: string, e: Entry)
    ensures Conserved(entries, [e.gateway], entries[k := e], if k in entries then [entries[k].gateway] else [])
  {
    if k in entries {
      ConservedByReplacing(entries, k, e);
    } else {
      ConservedByAdding(entries, k, e);
    }
  }

  // ---- expiry ----

  function Fresh(entries: Entries, now: int, ttl: int): Entries {
    map k | k in entries && now < entries[k].lastUsed + ttl :: entries[k]
  }

  // ---- eviction ----

  /** The eviction order: by last use, then by cluster ID. */
  predicate Older(entries: Entries, a: string, b: string)
    requires a in entries && b in entries
  {
    entries[a].lastUsed < entries[b].lastUsed || (entries[a].lastUsed == entries[b].lastUsed && StringOrder.Less(a, b))
  }

  lemma OlderIsTotal(entries: Entries, a: string, b: string)
    requires a in entries && b in entries
    ensures a == b || Older(entries, a, b) || Older(entries, b, a)
    ensures !(Older(entries, a, b) && Older(entries, b, a)) && !Older(entries, a, a)
  {
    StringOrder.Trichotomy(a, b);
    StringOrder.Irreflexive(a);
    if StringOrder.Less(a, b) {
      StringOrder.Asymmetric(a, b);
    }
  }

  lemma OlderIsTransitive(entries: Entries, a: string, b: string, c: string)
    requires a in entries && b in entries && c in entries && Older(entries, a, b) && Older(entries, b, c)
    ensures Older(entries, a, c)
  {
    if entries[a].lastUsed == entries[c].lastUsed {
      StringOrder.Transitive(a, b, c);
    }
  }

  ghost predicate IsOldest(entries: Entries, ids: set<string>, k: string)
    requires ids <= entries.Keys
  {
    k in ids && forall j :: j in ids && j != k ==> Older(entries, k, j)
  }

  /** `kept` holds exactly the `capacity` greatest entries, all unchanged. */
  ghost predicate KeepsGreatest(entries: Entries, capacity: int, kept: Entries) {
    && kept.Keys <= entries.Keys
    && (forall k :: k in kept ==> kept[k] == entries[k])
    && |kept| == Min(|entries|, Max(capacity, 0))
    && forall k, j :: k in kept && j in entries && j !in kept ==> Older(entries, j, k)
  }

  /** There is only one way to do that, so no iteration order can matter. */
  lemma KeepsGreatestIsUnique(entries: Entries, capacity: int, a: Entries, b: Entries)
    requires KeepsGreatest(entries, capacity, a) && KeepsGreatest(entries, capacity, b)
    ensures a == b
  {
    if k :| k in a && k !in b {
      assert |b.Keys| == |b| == |a| == |a.Keys|;
      if b.Keys <= a.Keys {
        SmallerSubset(b.Keys, a.Keys, k);
      } else {
        var j :| j in b && j !in a;
        assert Older(entries, j, k) && Older(entries, k, j);
        OlderIsTotal(entries, j, k);
      }
      assert false;
    }
    if b.Keys != a.Keys {
      var j :| j in b && j !in a;
      assert |b.Keys| == |b| == |a| == |a.Keys|;
      SmallerSubset(a.Keys, b.Keys, j);
      assert false;
    }
  }

  lemma SmallerSubset(a: set<string>, b: set<string>, x: string)
    requires a <= b && x in b && x !in a
    ensures |a| < |b|
  {
    assert b == a + {x} + (b - a - {x});
  }

  /** Dropping the oldest keeps what is left comparable to what was dropped before. */
  lemma DropKeepsGreatest(entries: Entries, capacity: int, now: Entries, oldest: string, kept: Entries)
    requires 0 <= capacity < |now| && KeepsGreatest(entries, |now|, now) && IsOldest(now, now.Keys, oldest)
    requires kept == now - {oldest}
    ensures KeepsGreatest(entries, |kept|, kept) && |kept| == |now| - 1
  {
    assert now.Keys == kept.Keys + {oldest};
    assert |kept| == |kept.Keys| && |now| == |now.Keys|;
    forall k, j | k in kept && j in entries && j !in kept
      ensures Older(entries, j, k)
    {
      if j == oldest {
        assert Older(now, oldest, k);
      }
    }
  }

  lemma {:induction false} OldestExists(entries: Entries, ids: set<string>)
    requires ids <= entries.Keys && ids != {}
    ensures exists k :: IsOldest(entries, ids, k)
    decreases |ids|
  {
    var x :| x in ids;
    if ids == {x} {
      assert IsOldest(entries, ids, x);
    } else {
      OldestExists(entries, ids - {x});
      var k :| IsOldest(entries, ids - {x}, k);
      OlderIsTotal(entries, x, k);
      if Older(entries, x, k) {
        forall j | j in ids && j != x
          ensures Older(entries, x, j)
        {
          if j != k { OlderIsTransitive(entries, x, k, j); }
        }
        assert IsOldest(entries, ids, x);
      } else {
        assert IsOldest(entries, ids, k);
      }
    }
  }

  lemma {:induction false} GreatestExist(entries: Entries, now: Entries, capacity: nat)
    requires KeepsGreatest(entries, |now|, now) && |now| >= Min(|entries|, capacity)
    ensures exists kept :: KeepsGreatest(entries, capacity, kept)
    decreases |now|
  {
    if |now| <= capacity {
      assert KeepsGreatest(entries, capacity, now);
    } else {
      OldestExists(now, now.Keys);
      var k :| IsOldest(now, now.Keys, k);
      DropKeepsGreatest(entries, capacity, now, k, now - {k});
      GreatestExist(entries, now - {k}, capacity);
    }
  }

  /** The `capacity` greatest entries. */
  ghost function Evicted(entries: Entries, capacity: nat): (kept: Entries)
    ensures KeepsGreatest(entries, capacity, kept)
  {
    GreatestExist(entries, entries, capacity);
    var kept :| KeepsGreatest(entries, capacity, kept);
    kept
  }

  /** Sorting by age and dropping the front leaves the same entries. */
  lemma SortAndDropKeepsGreatest(entries: Entries, capacity: nat, order: seq<string>, kept: Entries)
    requires Distinct(order) && (set k | k in order) == entries.Keys
    requires forall i, j :: 0 <= i < j < |order| ==> Older(entries, order[i], order[j])
    requires var from := Max(|order| - capacity, 0); kept == map k | k in order[from..] :: entries[k]
    ensures KeepsGreatest(entries, capacity, kept)
  {
    var from := Max(|order| - capacity, 0);
    SizeOfDistinct(order);
    forall i, j | 0 <= i < j < |order[from..]|
      ensures order[from..][i] != order[from..][j]
    {
    }
    SizeOfDistinct(order[from..]);
    assert kept.Keys == set k | k in order[from..];
    assert |kept| == |kept.Keys| && |entries| == |entries.Keys|;
    forall k, j | k in kept && j in entries && j !in kept
      ensures Older(entries, j, k)
    {
      var a :| from <= a < |order| && order[a] == k;
      assert j in order;
      var b :| 0 <= b < |order| && order[b] == j;
      assert b < from;
    }
  }

  lemma {:induction false} SizeOfDistinct(s: seq<string>)
    requires Distinct(s)
    ensures |set k | k in s| == |s|
  {
    if s != [] {
      SizeOfDistinct(s[1..]);
      assert (set k | k in s) == {s[0]} + (set k | k in s[1..]);
    }
  }
}

/** Each critical section of the cache as a function of the state under the lock. */
module GatewaySteps {
  import opened Common
  import opened Governing
  import opened GatewayEntries

  /** A build is named by the call that makes it. */
  datatype Cache = Cache(
    entries: Entries, builds: map<string, nat>, generations: map<string, nat>,
    maximum: int, capacity: int, ttl: int, closed: bool)

  const MAXIMUM_SIZE := 64
  const MINIMUM_TTL := 60
  const MAXIMUM_TTL := 3600

  function Count(m: map<string, nat>, clusterId: string): nat { if clusterId in m then m[clusterId] else 0 }

  function Generation(c: Cache, clusterId: string): nat { Count(c.generations, clusterId) }

  function AdaptiveCapacity(maximum: int, adaptive: bool, pressure: Pressure): (capacity: int)
    ensures maximum >= 1 ==> 1 <= capacity <= maximum
    ensures adaptive && pressure == PressureCritical ==> capacity == 1
    ensures adaptive && pressure == PressureConstrained && maximum >= 1 ==> maximum <= 2 * capacity <= maximum + 1
    ensures !adaptive || (pressure != PressureCritical && pressure != PressureConstrained) ==> capacity == maximum
  {
    if !adaptive then maximum
    else match pressure
      case PressureConstrained => Max(1, (maximum + 1) / 2)
      case PressureCritical => 1
      case _ => maximum
  }

  /** What a caller of Get learns under the lock. */
  datatype Outcome = Refused | Hit(gateway: Gateway) | Await(build: nat) | Start(generation: nat)

  /** The first critical section of Get. */
  function BeginNext(c: Cache, clusterId: string, fingerprint: string, now: int, call: nat): (Cache, Outcome) {
    if c.closed then (c, Refused)
    else
      var live := Fresh(c.entries, now, c.ttl);
      if clusterId in live && live[clusterId].fingerprint == fingerprint then
        (c.(entries := live[clusterId := live[clusterId].(lastUsed := now)]), Hit(live[clusterId].gateway))
      else
        var left := live - {clusterId};
        if clusterId in c.builds then (c.(entries := left), Await(c.builds[clusterId]))
        else (c.(entries := left, builds := c.builds[clusterId := call]), Start(Generation(c, clusterId)))
  }

  /** The second: the build returned `gateway`, or failed, or both. */
  ghost function CompleteNext(
    c: Cache, clusterId: string, fingerprint: string, generation: nat, gateway: Option<Gateway>, failed: bool, now: int)
    : (Cache, Result<Gateway>)
    requires c.capacity >= 0
  {
    var d := c.(builds := c.builds - {clusterId});
    if failed then (d, Err(Upstream))
    else if gateway.None? then (d, Err(Malformed))
    else if c.closed || Generation(c, clusterId) != generation then (d, Err(InvalidState))
    else
      (d.(entries := Evicted(c.entries[clusterId := Entry(fingerprint, gateway.value, now)], c.capacity)), Ok(gateway.value))
  }

  function InvalidateNext(c: Cache, clusterId: string): Cache {
    c.(generations := c.generations[clusterId := Generation(c, clusterId) + 1], entries := c.entries - {clusterId})
  }

  ghost function ReconcileNext(c: Cache, adaptive: bool, pressure: Pressure, now: int): Cache
    requires c.maximum >= 1
  {
    if c.closed then c
    else
      var capacity := AdaptiveCapacity(c.maximum, adaptive, pressure);
      c.(capacity := capacity, entries := Evicted(Fresh(c.entries, now, c.ttl), capacity))
  }

  function CloseNext(c: Cache): Cache {
    c.(closed := true, entries := if c.closed then c.entries else map[])
  }
}

/** internal/platform/gateway_cache.go as an object, one method for each critical section. */
module GatewayCaching {
  import opened Common
  import opened Governing
  import opened GatewayEntries
  import opened GatewaySteps
  import StringOrder

  class GatewayCache {
    var entries: Entries
    var builds: map<string, nat>
    var generations: map<string, nat>
    var maximum: int
    var capacity: int
    var ttl: int
    var closed: bool

    ghost function View(): Cache
      reads this
    {
      Cache(entries, builds, generations, maximum, capacity, ttl, closed)
    }

    ghost predicate Valid()
      reads this
    {
      1 <= capacity <= maximum
    }

    constructor (maximum: int, ttl: int)
      requires 1 <= maximum
      ensures Valid() && View() == Cache(map[], map[], map[], maximum, maximum, ttl, false)
    {
      entries, builds, generations := map[], map[], map[];
      this.maximum, capacity, this.ttl, closed := maximum, maximum, ttl, false;
    }

    static method New(maximum: int, ttl: int) returns (r: Result<GatewayCache>)
      ensures r.Ok? <==> 1 <= maximum <= MAXIMUM_SIZE && MINIMUM_TTL <= ttl <= MAXIMUM_TTL
      ensures r.Ok? ==> fresh(r.value) && r.value.Valid()
      ensures r.Ok? ==> r.value.View() == Cache(map[], map[], map[], maximum, maximum, ttl, false)
    {
      if maximum < 1 || maximum > MAXIMUM_SIZE || ttl < MINIMUM_TTL || ttl > MAXIMUM_TTL {
        return Err(Malformed);
      }
      var cache := new GatewayCache(maximum, ttl);
      return Ok(cache);
    }

    /** Get, up to the end of its first critical section. */
    method Begin(clusterId: string, fingerprint: string, now: int, call: nat)
      returns (outcome: Outcome, retired: seq<Gateway>)
      requires Valid()
      modifies this
      ensures Valid() && (View(), outcome) == BeginNext(old(View()), clusterId, fingerprint, now, call)
      ensures Conserved(old(entries), [], entries, retired)
    {
      retired := [];
      if closed {
        return Refused, retired;
      }
      var expired := ExpireLocked(now);
      ghost var live := entries;
      if clusterId in entries && entries[clusterId].fingerprint == fingerprint {
        var entry := entries[clusterId];
        ConservedByTouch(live, clusterId, entry.(lastUsed := now));
        ConservedTwice(old(entries), [], live, expired, live[clusterId := entry.(lastUsed := now)], []);
        entries := entries[clusterId := entry.(lastUsed := now)];
        return Hit(entry.gateway), expired + [];
      }
      var replaced := Drop(clusterId);
      ConservedTwice(old(entries), [], live, expired, entries, replaced);
      retired := expired + replaced;
      if clusterId in builds {
        return Await(builds[clusterId]), retired;
      }
      var generation := if clusterId in generations then generations[clusterId] else 0;
      builds := builds[clusterId := call];
      outcome := Start(generation);
    }

    method Drop(clusterId: string) returns (retired: seq<Gateway>)
      modifies this`entries
      ensures entries == old(entries) - {clusterId}
      ensures Conserved(old(entries), [], entries, retired)
    {
      retired := [];
      if clusterId in entries {
        ConservedByRemoval(entries, clusterId);
        retired := [entries[clusterId].gateway];
        entries := entries - {clusterId};
      } else {
        assert entries == entries - {clusterId};
      }
    }

    /** Get, from the return of its builder. */
    method Complete(clusterId: string, fingerprint: string, generation: nat, gateway: Option<Gateway>, failed: bool, now: int)
      returns (result: Result<Gateway>, retired: seq<Gateway>)
      requires Valid()
      modifies this
      ensures Valid() && (View(), result) == CompleteNext(old(View()), clusterId, fingerprint, generation, gateway, failed, now)
      ensures Conserved(old(entries), if gateway.Some? then [gateway.value] else [], entries, retired)
    {
      retired := [];
      builds := builds - {clusterId};
      if failed {
        if gateway.Some? {
          retired := [gateway.value];
        }
        return Err(Upstream), retired;
      }
      if gateway.None? {
        return Err(Malformed), retired;
      }
      if closed || (if clusterId in generations then generations[clusterId] else 0) != generation {
        return Err(InvalidState), [gateway.value];
      }
      retired := Store(clusterId, Entry(fingerprint, gateway.value, now));
      result := Ok(gateway.value);
    }

    /** The default branch of Complete. */
    method Store(clusterId: string, entry: Entry) returns (retired: seq<Gateway>)
      requires capacity >= 0
      modifies this`entries
      ensures entries == Evicted(old(entries)[clusterId := entry], capacity)
      ensures Conserved(old(entries), [entry.gateway], entries, retired)
    {
      ConservedByStoring(entries, clusterId, entry);
      retired := [];
      if clusterId in entries {
        retired := [entries[clusterId].gateway];
        entries := entries - {clusterId};
      }
      entries := entries[clusterId := entry];
      ghost var stored := entries;
      assert stored == old(entries)[clusterId := entry];
      var evicted := EvictLocked();
      ConservedTwice(old(entries), [entry.gateway], stored, retired, entries, evicted);
      retired := retired + evicted;
    }

    method Invalidate(clusterId: string) returns (retired: seq<Gateway>)
      requires Valid()
      modifies this
      ensures Valid() && View() == InvalidateNext(old(View()), clusterId)
      ensures Conserved(old(entries), [], entries, retired)
    {
      var generation := if clusterId in generations then generations[clusterId] else 0;
      generations := generations[clusterId := generation + 1];
      retired := Drop(clusterId);
    }

    method Reconcile(adaptive: bool, pressure: Pressure, now: int) returns (retired: seq<Gateway>)
      requires Valid()
      modifies this
      ensures Valid() && View() == ReconcileNext(old(View()), adaptive, pressure, now)
      ensures Conserved(old(entries), [], entries, retired)
    {
      retired := [];
      if !closed {
        capacity := AdaptiveCapacity(maximum, adaptive, pressure);
        retired := Shrink(now);
      }
    }

    method Shrink(now: int) returns (retired: seq<Gateway>)
      requires capacity >= 0
      modifies this`entries
      ensures entries == Evicted(Fresh(old(entries), now, ttl), capacity)
      ensures Conserved(old(entries), [], entries, retired)
    {
      var expired := ExpireLocked(now);
      ghost var live := entries;
      var evicted := EvictLocked();
      ConservedTwice(old(entries), [], live, expired, entries, evicted);
      retired := expired + evicted;
    }

    method Close() returns (retired: seq<Gateway>)
      requires Valid()
      modifies this
      ensures Valid() && View() == CloseNext(old(View()))
      ensures Conserved(old(entries), [], entries, retired)
    {
      retired := [];
      if closed {
        return;
      }
      closed := true;
      while entries != map[]
        invariant View() == CloseNext(old(View())).(entries := entries)
        invariant Conserved(old(entries), [], entries, retired)
        decreases |entries|
      {
        var clusterId :| clusterId in entries;
        ConservedByRemoval(entries, clusterId);
        ConservedTwice(old(entries), [], entries, retired, entries - {clusterId}, [entries[clusterId].gateway]);
        WithoutOne(entries, clusterId);
        retired := retired + [entries[clusterId].gateway];
        entries := entries - {clusterId};
      }
    }

    /** Visits the entries in any order. */
    method ExpireLocked(now: int) returns (retired: seq<Gateway>)
      modifies this`entries
      ensures entries == Fresh(old(entries), now, ttl)
      ensures forall k :: k in entries <==> k in old(entries) && now < old(entries)[k].lastUsed + ttl
      ensures Conserved(old(entries), [], entries, retired)
    {
      retired := [];
      var rest := entries.Keys;
      while rest != {}
        invariant rest <= entries.Keys <= old(entries.Keys)
        invariant forall k :: k in entries ==> entries[k] == old(entries)[k]
        invariant forall k :: k in old(entries) && k !in rest ==> (k in entries <==> now < old(entries)[k].lastUsed + ttl)
        invariant Conserved(old(entries), [], entries, retired)
        decreases |rest|
      {
        var clusterId :| clusterId in rest;
        rest := rest - {clusterId};
        if now >= entries[clusterId].lastUsed + ttl {
          ConservedByRemoval(entries, clusterId);
          ConservedTwice(old(entries), [], entries, retired, entries - {clusterId}, [entries[clusterId].gateway]);
          retired := retired + [entries[clusterId].gateway];
          entries := entries - {clusterId};
        }
      }
    }

    /** Drops the oldest entry, found by a scan in any order, until the rest fits. */
    method EvictLocked() returns (retired: seq<Gateway>)
      requires capacity >= 0
      modifies this`entries
      ensures entries == Evicted(old(entries), capacity)
      ensures Conserved(old(entries), [], entries, retired)
    {
      retired := [];
      while |entries| > capacity
        invariant KeepsGreatest(old(entries), |entries|, entries)
        invariant |entries| >= Min(|old(entries)|, capacity)
        invariant Conserved(old(entries), [], entries, retired)
        decreases |entries|
      {
        var oldest := Oldest();
        ConservedByRemoval(entries, oldest);
        ConservedTwice(old(entries), [], entries, retired, entries - {oldest}, [entries[oldest].gateway]);
        DropKeepsGreatest(old(entries), capacity, entries, oldest, entries - {oldest});
        retired := retired + [entries[oldest].gateway];
        entries := entries - {oldest};
      }
      KeepsGreatestIsUnique(old(entries), capacity, entries, Evicted(old(entries), capacity));
    }

    method Oldest() returns (oldest: string)
      requires entries != map[]
      ensures IsOldest(entries, entries.Keys, oldest)
    {
      var found := false;
      var oldestTime := 0;
      oldest := "";
      var rest := entries.Keys;
      ghost var seen := {};
      while rest != {}
        invariant seen !! rest && seen + rest == entries.Keys && (found <==> seen != {})
        invariant found ==> IsOldest(entries, seen, oldest) && oldestTime == entries[oldest].lastUsed
        decreases |rest|
      {
        var clusterId :| clusterId in rest;
        rest := rest - {clusterId};
        if found {
          ExtendsScan(entries, seen, oldest, clusterId);
        }
        seen := seen + {clusterId};
        if !found || entries[clusterId].lastUsed < oldestTime
           || (entries[clusterId].lastUsed == oldestTime && StringOrder.Less(clusterId, oldest)) {
          oldest, oldestTime, found := clusterId, entries[clusterId].lastUsed, true;
        }
      }
    }
  }

  lemma ExtendsScan(entries: Entries, seen: set<string>, oldest: string, next: string)
    requires seen <= entries.Keys && next in entries && next !in seen && IsOldest(entries, seen, oldest)
    ensures IsOldest(entries, seen + {next}, if Older(entries, next, oldest) then next else oldest)
  {
    OlderIsTotal(entries, next, oldest);
    if Older(entries, next, oldest) {
      forall j | j in seen && j != oldest
        ensures Older(entries, next, j)
      {
        OlderIsTransitive(entries, next, oldest, j);
      }
    }
  }
}
