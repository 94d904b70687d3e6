/** What the gateway cache promises, over every interleaving of its callers. */
module GatewayTheorems {
  import opened Common
  import opened Governing
  import opened GatewayEntries
  import opened GatewaySteps
  import opened GatewayWorld
  import opened GatewaySafety

  ghost predicate IsRun(w: World, run: seq<Action>)
    decreases |run|
  {
    run == [] || (Sized(w.cache) && Enabled(w, run[0]) && IsRun(Do(w, run[0]), run[1..]))
  }

  ghost function After(w: World, run: seq<Action>): World
    requires IsRun(w, run)
    decreases |run|
  {
    if run == [] then w else After(Do(w, run[0]), run[1..])
  }

  ghost predicate Reachable(w: World) {
    exists maximum, ttl, run :: maximum >= 1 && IsRun(Opening(maximum, ttl), run) && After(Opening(maximum, ttl), run) == w
  }

  lemma {:induction false} EveryRunKeepsInv(w: World, run: seq<Action>)
    requires Inv(w) && IsRun(w, run)
    ensures Inv(After(w, run))
    decreases |run|
  {
    if run != [] {
      StepKept(w, run[0]);
      EveryRunKeepsInv(Do(w, run[0]), run[1..]);
    }
  }

  lemma ReachableKeepsInv(w: World)
    requires Reachable(w)
    ensures Inv(w)
  {
    var maximum, ttl, run :| maximum >= 1 && IsRun(Opening(maximum, ttl), run) && After(Opening(maximum, ttl), run) == w;
    assert Conserving(Opening(maximum, ttl));
    EveryRunKeepsInv(Opening(maximum, ttl), run);
  }

  /** A cached gateway was made for its cluster and fingerprint by a build that began after the
      latest invalidation of that cluster; while it is cached nobody builds for the cluster. */
  lemma CachedGatewayIsCurrent(w: World, c: string)
    requires Reachable(w) && c in w.cache.entries
    ensures var e := w.cache.entries[c];
            && MadeFor(w.made, e.gateway, c, e.fingerprint)
            && w.made[e.gateway].begun > LastInvalidated(w.invalidated, c)
    ensures forall i :: 0 <= i < |w.calls| && w.calls[i].clusterId == c ==> !InFlight(w.calls[i].phase)
  {
    ReachableKeepsInv(w);
    assert EntryOk(c, w.cache.entries[c], PastOf(w));
  }

  /** At most one build per cluster is in flight, and it is the one registered. */
  lemma SingleFlight(w: World, i: nat, j: nat)
    requires Reachable(w) && i < |w.calls| && j < |w.calls| && w.calls[i].clusterId == w.calls[j].clusterId
    requires InFlight(w.calls[i].phase) && InFlight(w.calls[j].phase)
    ensures i == j && w.calls[i].clusterId in w.cache.builds && w.cache.builds[w.calls[i].clusterId] == i
    ensures w.calls[i].clusterId !in w.cache.entries
  {
    ReachableKeepsInv(w);
  }

  /** A successful Get returns a gateway made for exactly the cluster and fingerprint asked for. */
  lemma GetReturnsWhatWasAsked(w: World, i: nat)
    requires Reachable(w) && i < |w.calls| && w.calls[i].phase.Returned? && w.calls[i].phase.result.Ok?
    ensures MadeFor(w.made, w.calls[i].phase.result.value, w.calls[i].clusterId, w.calls[i].fingerprint)
  {
    ReachableKeepsInv(w);
    assert CallOk(w.calls[i], PastOf(w));
  }

  lemma CacheIsBounded(w: World)
    requires Reachable(w)
    ensures |w.cache.entries| <= w.cache.capacity <= w.cache.maximum && w.cache.capacity >= 1
  {
    ReachableKeepsInv(w);
  }

  /** Conservation: a gateway that a builder returned is cached once, or held by one builder, or
      retired once, and only one of the three; any other gateway is none of them. */
  lemma EachGatewayIsInOnePlace(w: World, g: Gateway)
    requires Reachable(w)
    ensures Bag(w.cache.entries)[g] + Held(w.calls)[g] + w.retired[g] == if g in w.made then 1 else 0
  {
    ReachableKeepsInv(w);
    MadeOnce(w, g);
  }

  /** No gateway is cached for two clusters. */
  lemma CachedOnce(w: World, c: string, d: string)
    requires Reachable(w) && c in w.cache.entries && d in w.cache.entries && w.cache.entries[c].gateway == w.cache.entries[d].gateway
    ensures c == d
  {
    ReachableKeepsInv(w);
    assert EntryOk(c, w.cache.entries[c], PastOf(w)) && EntryOk(d, w.cache.entries[d], PastOf(w));
  }

  /** Whoever waits for a build can wake up, or the build itself can go on. */
  lemma WaitersAreServed(w: World, i: nat)
    requires Reachable(w) && i < |w.calls| && w.calls[i].phase.Waiting?
    ensures var b := w.calls[i].phase.build;
            Enabled(w, Wake(i)) || Enabled(w, Return(b, None, true)) || Enabled(w, Complete(b, 0))
  {
    ReachableKeepsInv(w);
  }

  // ---- invalidation and closing ----

  /** A build in flight that an invalidation or the closing has overtaken. */
  predicate Overtaken(w: World, i: nat)
    requires i < |w.calls|
  {
    InFlight(w.calls[i].phase) && (w.cache.closed || w.calls[i].phase.generation != Generation(w.cache, w.calls[i].clusterId))
  }

  /** Its gateway is retired, not cached, and its caller is told the state is invalid. */
  lemma OvertakenBuildIsRefused(w: World, i: nat, now: int)
    requires Reachable(w) && i < |w.calls| && Overtaken(w, i)
    requires w.calls[i].phase.Built? && w.calls[i].phase.gateway.Some? && !w.calls[i].phase.failed
    ensures Sized(w.cache)
    ensures var t := Do(w, Complete(i, now));
            && t.calls[i].phase == Returned(Err(InvalidState)) && t.cache.entries == w.cache.entries
            && t.retired == w.retired + multiset{w.calls[i].phase.gateway.value}
  {
    ReachableKeepsInv(w);
    var kept, gone := Bag(w.cache.entries), multiset{w.calls[i].phase.gateway.value};
    Difference(kept + gone, kept, gone);
  }

  /** Invalidate and Close overtake exactly the builds in flight: of the cluster, or all. */
  lemma InvalidateOvertakes(w: World, i: nat)
    requires Reachable(w) && i < |w.calls| && InFlight(w.calls[i].phase)
    ensures Sized(w.cache) && Overtaken(Do(w, Invalidate(w.calls[i].clusterId)), i) && Overtaken(Do(w, Close), i)
    ensures Overtaken(w, i) <==> w.cache.closed || w.calls[i].phase.begun <= LastInvalidated(w.invalidated, w.calls[i].clusterId)
  {
    ReachableKeepsInv(w);
    assert CallOk(w.calls[i], PastOf(w));
  }

  /** Overtaken, or already refused. */
  predicate Lost(w: World, i: nat) {
    i < |w.calls| && (Overtaken(w, i) || (w.calls[i].phase.Returned? && w.calls[i].phase.result.Err?))
  }

  predicate Ages(c: Cache, next: Cache, clusterId: string) {
    Generation(next, clusterId) >= Generation(c, clusterId) && (c.closed ==> next.closed)
  }

  lemma BeginAges(c: Cache, clusterId: string, fingerprint: string, now: int, call: nat, d: string)
    ensures Ages(c, BeginNext(c, clusterId, fingerprint, now, call).0, d)
  {
  }

  lemma CompleteAges(
    c: Cache, clusterId: string, fingerprint: string, generation: nat, gateway: Option<Gateway>, failed: bool, now: int, d: string)
    requires Sized(c)
    ensures Ages(c, CompleteNext(c, clusterId, fingerprint, generation, gateway, failed, now).0, d)
  {
  }

  lemma OthersAge(c: Cache, clusterId: string, adaptive: bool, pressure: Pressure, now: int, d: string)
    requires Sized(c)
    ensures Ages(c, InvalidateNext(c, clusterId), d) && Ages(c, ReconcileNext(c, adaptive, pressure, now), d) && Ages(c, CloseNext(c), d)
  {
  }

  /** Generations only grow, and closed is forever. */
  lemma CacheAges(w: World, a: Action, d: string)
    requires Enabled(w, a) && Sized(w.cache)
    ensures Ages(w.cache, Do(w, a).cache, d)
  {
    if a.Begin? {
      BeginAges(w.cache, w.calls[a.call].clusterId, w.calls[a.call].fingerprint, a.now, a.call, d);
    } else if a.Complete? {
      var call := w.calls[a.call];
      CompleteAges(w.cache, call.clusterId, call.fingerprint, call.phase.generation, call.phase.gateway, call.phase.failed, a.now, d);
    } else if a.Invalidate? {
      OthersAge(w.cache, a.clusterId, false, PressureUnknown, 0, d);
    } else if a.Reconcile? {
      OthersAge(w.cache, "", a.adaptive, a.pressure, a.now, d);
    }
  }

  lemma CallGoesOn(w: World, a: Action, i: nat)
    requires Enabled(w, a) && Sized(w.cache) && i < |w.calls| && Awaited(w.calls[i].phase) && !(a.Complete? && a.call == i)
    ensures var t := Do(w, a);
            && i < |t.calls| && t.calls[i].clusterId == w.calls[i].clusterId
            && (w.calls[i].phase.Returned? ==> t.calls[i].phase == w.calls[i].phase)
            && (InFlight(w.calls[i].phase) ==> InFlight(t.calls[i].phase) && t.calls[i].phase.generation == w.calls[i].phase.generation)
  {
  }

  lemma LostStays(w: World, a: Action, i: nat)
    requires Inv(w) && Enabled(w, a) && Lost(w, i)
    ensures Lost(Do(w, a), i)
  {
    assert CallOk(w.calls[i], PastOf(w));
    CacheAges(w, a, w.calls[i].clusterId);
    if !(a.Complete? && a.call == i) {
      CallGoesOn(w, a, i);
    }
  }

  /** Once overtaken, a build never succeeds, however the run goes on. */
  lemma {:induction false} OvertakenBuildNeverSucceeds(w: World, run: seq<Action>, i: nat)
    requires Inv(w) && IsRun(w, run) && Lost(w, i)
    ensures Lost(After(w, run), i)
    decreases |run|
  {
    if run != [] {
      LostStays(w, run[0], i);
      StepKept(w, run[0]);
      OvertakenBuildNeverSucceeds(Do(w, run[0]), run[1..], i);
    }
  }

  /** Closed is forever, and so is the emptiness of a closed cache. */
  lemma {:induction false} ClosedStaysEmpty(w: World, run: seq<Action>)
    requires Inv(w) && IsRun(w, run) && w.cache.closed
    ensures After(w, run).cache.closed && After(w, run).cache.entries == map[]
    decreases |run|
  {
    if run != [] {
      StepKept(w, run[0]);
      CacheAges(w, run[0], "");
      ClosedStaysEmpty(Do(w, run[0]), run[1..]);
    }
  }

  /** Retirement is final: no later step retires the gateway again or caches it. */
  lemma {:induction false} RetirementIsFinal(w: World, run: seq<Action>, g: Gateway)
    requires Inv(w) && IsRun(w, run) && w.retired[g] == 1
    ensures After(w, run).retired[g] == 1 && Bag(After(w, run).cache.entries)[g] == 0
    decreases |run|
  {
    MadeOnce(w, g);
    if run != [] {
      StepKept(w, run[0]);
      RetiredGrows(w, run[0], g);
      MadeOnce(Do(w, run[0]), g);
      RetirementIsFinal(Do(w, run[0]), run[1..], g);
    }
  }

  lemma SectionRetires(w: World, next: Cache, calls: seq<Call>, added: multiset<Gateway>, g: Gateway)
    ensures w.retired[g] <= Section(w, next, calls, added).retired[g]
  {
  }

  lemma RetiredGrows(w: World, a: Action, g: Gateway)
    requires Enabled(w, a) && Sized(w.cache)
    ensures w.retired[g] <= Do(w, a).retired[g]
  {
    if a.Begin? {
      var (next, outcome) := BeginNext(w.cache, w.calls[a.call].clusterId, w.calls[a.call].fingerprint, a.now, a.call);
      SectionRetires(w, next, Moved(w.calls, a.call, Entered(outcome, w.time)), multiset{}, g);
    } else if a.Complete? {
      var c := w.calls[a.call];
      var (next, result) := CompleteNext(w.cache, c.clusterId, c.fingerprint, c.phase.generation, c.phase.gateway, c.phase.failed, a.now);
      SectionRetires(w, next, Moved(w.calls, a.call, Returned(result)), Offered(c.phase.gateway), g);
    } else if a.Invalidate? {
      SectionRetires(w, InvalidateNext(w.cache, a.clusterId), w.calls, multiset{}, g);
    } else if a.Reconcile? {
      SectionRetires(w, ReconcileNext(w.cache, a.adaptive, a.pressure, a.now), w.calls, multiset{}, g);
    } else if a.Close? {
      SectionRetires(w, CloseNext(w.cache), w.calls, multiset{}, g);
    }
  }

  lemma MadeOnce(w: World, g: Gateway)
    requires Conserving(w)
    ensures Bag(w.cache.entries)[g] + Held(w.calls)[g] + w.retired[g] == if g in w.made then 1 else 0
  {
    assert multiset(w.made.Keys)[g] == if g in w.made then 1 else 0;
  }
}
