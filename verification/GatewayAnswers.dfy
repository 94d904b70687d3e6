/** What each call to the gateway cache answers and what it keeps, entry by entry. */
module GatewayAnswers {
  import opened Common
  import opened Governing
  import opened GatewayEntries
  import opened GatewaySteps
  import opened GatewayWorld
  import opened GatewaySafety
  import opened GatewayTheorems

  /** Nothing but the entries and the builds differs. */
  predicate SameOtherwise(c: Cache, d: Cache) {
    c.generations == d.generations && c.maximum == d.maximum && c.capacity == d.capacity && c.ttl == d.ttl && c.closed == d.closed
  }

  /** Get serves the cached gateway if and only if it has the fingerprint asked for and was used within its
      time to live, and that use is noted. Otherwise the entry is dropped, and the caller waits for a build
      under way or starts one. Of the other entries exactly those within their time stay, unchanged. */
  lemma GetServesLiveGateway(c: Cache, clusterId: string, fingerprint: string, now: int, call: nat)
    requires !c.closed
    ensures var (next, outcome) := BeginNext(c, clusterId, fingerprint, now, call);
            var live := clusterId in c.entries && c.entries[clusterId].fingerprint == fingerprint
                        && now < c.entries[clusterId].lastUsed + c.ttl;
            && SameOtherwise(next, c) && (outcome.Hit? <==> live)
            && (live ==>
                  && outcome.gateway == c.entries[clusterId].gateway && next.builds == c.builds && clusterId in next.entries
                  && next.entries[clusterId] == Entry(fingerprint, outcome.gateway, now))
            && (!live ==> clusterId !in next.entries)
            && (!live && clusterId in c.builds ==> outcome == Await(c.builds[clusterId]) && next.builds == c.builds)
            && (!live && clusterId !in c.builds ==>
                  && outcome == Start(if clusterId in c.generations then c.generations[clusterId] else 0)
                  && next.builds == c.builds[clusterId := call])
            && forall k :: k != clusterId ==>
                 && (k in next.entries <==> k in c.entries && now < c.entries[k].lastUsed + c.ttl)
                 && (k in next.entries ==> next.entries[k] == c.entries[k])
  {
  }

  /** So a Get leaves no entry past its time to live. */
  lemma GetLeavesNothingExpired(c: Cache, clusterId: string, fingerprint: string, now: int, call: nat, k: string)
    requires !c.closed && c.ttl > 0
    ensures var next := BeginNext(c, clusterId, fingerprint, now, call).0;
            k in next.entries ==> now < next.entries[k].lastUsed + c.ttl
  {
    GetServesLiveGateway(c, clusterId, fingerprint, now, call);
  }

  lemma ClosedCacheRefuses(c: Cache, clusterId: string, fingerprint: string, now: int, call: nat)
    requires c.closed
    ensures BeginNext(c, clusterId, fingerprint, now, call) == (c, Refused)
  {
  }

  /** A build succeeds exactly if its builder returned a gateway without error, the cache is open and the
      cluster was not invalidated since. Only then do the entries change: the new one replaces that of its
      cluster, all others are unchanged, and only the least recently used are dropped, for lack of room. */
  lemma CompleteCachesNewGateway(
    c: Cache, clusterId: string, fingerprint: string, generation: nat, gateway: Option<Gateway>, failed: bool, now: int)
    requires c.capacity >= 0
    ensures var (next, result) := CompleteNext(c, clusterId, fingerprint, generation, gateway, failed, now);
            var current := generation == if clusterId in c.generations then c.generations[clusterId] else 0;
            && SameOtherwise(next, c) && next.builds == c.builds - {clusterId}
            && (result.Ok? <==> !failed && gateway.Some? && !c.closed && current)
            && (failed ==> result == Err(Upstream)) && (!failed && gateway.None? ==> result == Err(Malformed))
            && (!failed && gateway.Some? && (c.closed || !current) ==> result == Err(InvalidState))
            && (result.Err? ==> next.entries == c.entries)
            && (result.Ok? ==>
                  var offered := c.entries[clusterId := Entry(fingerprint, gateway.value, now)];
                  && result.value == gateway.value && |next.entries| == Min(|offered|, c.capacity)
                  && (forall k :: k in next.entries ==> k in offered && next.entries[k] == offered[k])
                  && forall k, j :: k in next.entries && j in offered && j !in next.entries ==> offered[j].lastUsed <= offered[k].lastUsed)
  {
  }

  /** The most recent of the gateways is cached. */
  lemma NewestGatewayIsCached(
    c: Cache, clusterId: string, fingerprint: string, generation: nat, gateway: Option<Gateway>, now: int)
    requires c.capacity >= 1 && forall k :: k in c.entries ==> c.entries[k].lastUsed < now
    ensures var (next, result) := CompleteNext(c, clusterId, fingerprint, generation, gateway, false, now);
            result.Ok? ==> clusterId in next.entries && next.entries[clusterId] == Entry(fingerprint, result.value, now)
  {
    CompleteCachesNewGateway(c, clusterId, fingerprint, generation, gateway, false, now);
    if gateway.Some? {
      assert clusterId in c.entries[clusterId := Entry(fingerprint, gateway.value, now)];
    }
  }

  /** Invalidate forgets its cluster alone, whatever is cached for others. */
  lemma InvalidateForgetsOneCluster(c: Cache, clusterId: string, d: string)
    ensures var next := InvalidateNext(c, clusterId);
            && clusterId !in next.entries && next.builds == c.builds && next.closed == c.closed && next.capacity == c.capacity
            && Generation(next, clusterId) == Generation(c, clusterId) + 1
            && (d != clusterId ==>
                  && Generation(next, d) == Generation(c, d) && (d in next.entries <==> d in c.entries)
                  && (d in c.entries ==> next.entries[d] == c.entries[d]))
  {
  }

  /** Reconcile on an open cache drops every expired entry, keeps as many of the live ones as the capacity
      under this pressure allows, unchanged, and drops the least recently used of them first. */
  lemma ReconcileKeepsLiveGateways(c: Cache, adaptive: bool, pressure: Pressure, now: int)
    requires c.maximum >= 1 && !c.closed
    ensures var next := ReconcileNext(c, adaptive, pressure, now);
            var live := set k | k in c.entries && now < c.entries[k].lastUsed + c.ttl;
            && next.builds == c.builds && next.generations == c.generations && next.maximum == c.maximum && next.ttl == c.ttl && !next.closed
            && next.capacity == (if adaptive && pressure == PressureCritical then 1
                                 else if adaptive && pressure == PressureConstrained then (c.maximum + 1) / 2 else c.maximum)
            && next.entries.Keys <= live && |next.entries| == Min(|live|, next.capacity)
            && (forall k :: k in next.entries ==> next.entries[k] == c.entries[k])
            && forall k, j :: k in next.entries && j in live && j !in next.entries ==> c.entries[j].lastUsed <= c.entries[k].lastUsed
  {
    var kept := Fresh(c.entries, now, c.ttl);
    assert kept.Keys == set k | k in c.entries && now < c.entries[k].lastUsed + c.ttl;
    assert |kept| == |kept.Keys|;
  }

  lemma ClosedCacheStays(c: Cache, adaptive: bool, pressure: Pressure, now: int)
    requires c.maximum >= 1
    ensures c.closed ==> ReconcileNext(c, adaptive, pressure, now) == c
    ensures var next := CloseNext(c); next.closed && (!c.closed ==> next == c.(closed := true, entries := map[])) && (c.closed ==> next == c)
  {
  }

  // ---- a call of Get, among all others ----

  lemma BeginEnters(w: World, i: nat, now: int)
    requires Sized(w.cache) && Enabled(w, Begin(i, now))
    ensures var outcome := BeginNext(w.cache, w.calls[i].clusterId, w.calls[i].fingerprint, now, i).1;
            Do(w, Begin(i, now)).calls[i].phase == Entered(outcome, w.time)
  {
  }

  /** A Get that does not wait returns a gateway exactly if a live one with its fingerprint is cached. */
  lemma GetReturnsLiveGateway(w: World, i: nat, now: int, g: Gateway)
    requires Reachable(w) && Enabled(w, Begin(i, now))
    ensures Sized(w.cache)
    ensures var c, call := w.cache, w.calls[i];
            Do(w, Begin(i, now)).calls[i].phase == Returned(Ok(g))
            <==> && call.clusterId in c.entries && c.entries[call.clusterId].gateway == g
                 && c.entries[call.clusterId].fingerprint == call.fingerprint
                 && now < c.entries[call.clusterId].lastUsed + c.ttl
  {
    assert Sized(w.cache) && (w.cache.closed ==> w.cache.entries == map[]) by { ReachableKeepsInv(w); }
    BeginEnters(w, i, now);
    if !w.cache.closed {
      GetServesLiveGateway(w.cache, w.calls[i].clusterId, w.calls[i].fingerprint, now, i);
    }
  }

  /** A waiter shares the error of a build with its own fingerprint, and otherwise looks again. */
  lemma WaiterLearns(w: World, i: nat)
    requires Reachable(w) && Enabled(w, Wake(i))
    ensures Sized(w.cache)
    ensures var build, t := w.calls[w.calls[i].phase.build], Do(w, Wake(i));
            && t.cache == w.cache
            && t.calls[i].phase == if build.fingerprint == w.calls[i].fingerprint && build.phase.result.Err? then Returned(build.phase.result)
                                   else Looping
  {
    ReachableKeepsInv(w);
  }
}
