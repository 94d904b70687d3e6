/** Every interleaving of callers of the gateway cache: the lock is dropped while a builder runs. */
module GatewayWorld {
  import opened Common
  import opened Governing
  import opened GatewayEntries
  import opened GatewaySteps

  /** Where a call of Get stands. A call builds at most once, so a build is named by its call. */
  datatype Phase =
    | Looping
    | Waiting(build: nat)
    | Building(generation: nat, begun: nat)
    | Built(generation: nat, begun: nat, gateway: Option<Gateway>, failed: bool)
    | Returned(result: Result<Gateway>)

  datatype Call = Call(clusterId: string, fingerprint: string, phase: Phase)

  /** What a gateway was built for, and when its build began. */
  datatype Origin = Origin(clusterId: string, fingerprint: string, begun: nat)

  datatype World = World(
    cache: Cache,
    calls: seq<Call>,
    // Auxiliary: no step reads what follows, but that a builder makes a new gateway each time.
    time: nat,                          // the number of steps taken
    invalidated: map<string, nat>,      // when each cluster was last invalidated
    made: map<Gateway, Origin>,         // every gateway a builder returned
    retired: multiset<Gateway>)         // every retirement

  datatype Action =
    | Enter(clusterId: string, fingerprint: string)
    | Begin(call: nat, now: int)
    | Return(call: nat, gateway: Option<Gateway>, failed: bool)
    | Complete(call: nat, now: int)
    | Wake(call: nat)
    | GiveUp(call: nat)
    | Invalidate(clusterId: string)
    | Reconcile(adaptive: bool, pressure: Pressure, now: int)
    | Close

  predicate InFlight(p: Phase) { p.Building? || p.Built? }

  predicate Enabled(w: World, a: Action) {
    match a
    case Begin(i, _) => i < |w.calls| && w.calls[i].phase.Looping?
    case Return(i, gateway, _) => i < |w.calls| && w.calls[i].phase.Building? && (gateway.Some? ==> gateway.value !in w.made)
    case Complete(i, _) => i < |w.calls| && w.calls[i].phase.Built?
    case Wake(i) =>
      i < |w.calls| && w.calls[i].phase.Waiting?
      && w.calls[i].phase.build < |w.calls| && w.calls[w.calls[i].phase.build].phase.Returned?
    case GiveUp(i) => i < |w.calls| && w.calls[i].phase.Waiting?
    case _ => true
  }

  function Entered(outcome: Outcome, time: nat): Phase {
    match outcome
    case Refused => Returned(Err(InvalidState))
    case Hit(gateway) => Returned(Ok(gateway))
    case Await(build) => Waiting(build)
    case Start(generation) => Building(generation, time)
  }

  /** A waiter shares an error of a build with its own fingerprint, and otherwise tries again. */
  function Woken(call: Call, build: Call): Phase {
    if build.fingerprint == call.fingerprint && build.phase.Returned? && build.phase.result.Err? then build.phase else Looping
  }

  function Moved(calls: seq<Call>, i: nat, phase: Phase): seq<Call>
    requires i < |calls|
  {
    calls[i := calls[i].(phase := phase)]
  }

  /** The cache goes from `w.cache` to `next`; what it no longer holds is retired. */
  ghost function Section(w: World, next: Cache, calls: seq<Call>, added: multiset<Gateway>): World {
    w.(cache := next, calls := calls, time := w.time + 1,
       retired := w.retired + (Bag(w.cache.entries) + added - Bag(next.entries)))
  }

  function Offered(gateway: Option<Gateway>): multiset<Gateway> {
    if gateway.Some? then multiset{gateway.value} else multiset{}
  }

  function Returns(w: World, i: nat, gateway: Option<Gateway>, failed: bool): World
    requires Enabled(w, Return(i, gateway, failed))
  {
    var call := w.calls[i];
    w.(calls := Moved(w.calls, i, Built(call.phase.generation, call.phase.begun, gateway, failed)), time := w.time + 1,
       made := if gateway.Some? then w.made[gateway.value := Origin(call.clusterId, call.fingerprint, call.phase.begun)] else w.made)
  }

  ghost predicate Sized(c: Cache) { 1 <= c.capacity <= c.maximum }

  ghost function Do(w: World, a: Action): World
    requires Enabled(w, a) && Sized(w.cache)
  {
    match a
    case Enter(clusterId, fingerprint) => w.(calls := w.calls + [Call(clusterId, fingerprint, Looping)], time := w.time + 1)
    case Begin(i, now) =>
      var (next, outcome) := BeginNext(w.cache, w.calls[i].clusterId, w.calls[i].fingerprint, now, i);
      Section(w, next, Moved(w.calls, i, Entered(outcome, w.time)), multiset{})
    case Return(i, gateway, failed) => Returns(w, i, gateway, failed)
    case Complete(i, now) =>
      var call := w.calls[i];
      var p := call.phase;
      var (next, result) := CompleteNext(w.cache, call.clusterId, call.fingerprint, p.generation, p.gateway, p.failed, now);
      Section(w, next, Moved(w.calls, i, Returned(result)), Offered(p.gateway))
    case Wake(i) => w.(calls := Moved(w.calls, i, Woken(w.calls[i], w.calls[w.calls[i].phase.build])), time := w.time + 1)
    case GiveUp(i) => w.(calls := Moved(w.calls, i, Returned(Err(ContextDone))), time := w.time + 1)
    case Invalidate(clusterId) =>
      Section(w, InvalidateNext(w.cache, clusterId), w.calls, multiset{}).(invalidated := w.invalidated[clusterId := w.time])
    case Reconcile(adaptive, pressure, now) => Section(w, ReconcileNext(w.cache, adaptive, pressure, now), w.calls, multiset{})
    case Close => Section(w, CloseNext(w.cache), w.calls, multiset{})
  }

  function Opening(maximum: int, ttl: int): World {
    World(Cache(map[], map[], map[], maximum, maximum, ttl, false), [], 1, map[], map[], multiset{})
  }

  // ---- what every step keeps ----

  function LastInvalidated(invalidated: map<string, nat>, clusterId: string): nat { Count(invalidated, clusterId) }

  /** Single flight: the build registered for a cluster is the one call that is building it. */
  ghost predicate BuildsOk(calls: seq<Call>, builds: map<string, nat>) {
    && (forall c :: c in builds ==> builds[c] < |calls| && calls[builds[c]].clusterId == c && InFlight(calls[builds[c]].phase))
    && (forall i :: 0 <= i < |calls| && InFlight(calls[i].phase) ==>
          calls[i].clusterId in builds && builds[calls[i].clusterId] == i)
  }

  /** The auxiliary state that a single call or entry depends on. */
  datatype Past = Past(generations: map<string, nat>, invalidated: map<string, nat>, made: map<Gateway, Origin>, time: nat)

  predicate MadeFor(made: map<Gateway, Origin>, g: Gateway, c: string, fingerprint: string) {
    g in made && made[g].clusterId == c && made[g].fingerprint == fingerprint
  }

  /** A call in flight has the current generation exactly if its cluster was not invalidated since;
      what a call holds or returns was made for it. */
  predicate CallOk(call: Call, past: Past) {
    && (InFlight(call.phase) ==>
          && call.phase.begun < past.time && call.phase.generation <= Count(past.generations, call.clusterId)
          && (call.phase.generation == Count(past.generations, call.clusterId)
              <==> call.phase.begun > LastInvalidated(past.invalidated, call.clusterId)))
    && (call.phase.Built? && call.phase.gateway.Some? ==>
          && MadeFor(past.made, call.phase.gateway.value, call.clusterId, call.fingerprint)
          && past.made[call.phase.gateway.value].begun == call.phase.begun)
    && (call.phase.Returned? && call.phase.result.Ok? ==>
          MadeFor(past.made, call.phase.result.value, call.clusterId, call.fingerprint))
  }

  ghost predicate CallsOk(calls: seq<Call>, past: Past) { forall i :: 0 <= i < |calls| ==> CallOk(calls[i], past) }

  predicate Awaited(p: Phase) { InFlight(p) || p.Returned? }

  /** Nobody waits for a build that will not end. */
  ghost predicate WaitersOk(calls: seq<Call>) {
    forall i :: 0 <= i < |calls| && calls[i].phase.Waiting? ==>
      calls[i].phase.build < |calls| && Awaited(calls[calls[i].phase.build].phase)
  }

  predicate EntryOk(c: string, e: Entry, past: Past) {
    MadeFor(past.made, e.gateway, c, e.fingerprint) && past.made[e.gateway].begun > LastInvalidated(past.invalidated, c)
  }

  /** No entry is stale, and none stands beside a build. */
  ghost predicate EntriesOk(cache: Cache, past: Past) {
    && (forall c :: c in cache.entries ==> c !in cache.builds && EntryOk(c, cache.entries[c], past))
    && |cache.entries| <= cache.capacity
    && (cache.closed ==> cache.entries == map[])
  }

  function PastOf(w: World): Past { Past(w.cache.generations, w.invalidated, w.made, w.time) }

  ghost predicate TimesOk(invalidated: map<string, nat>, time: nat) {
    time > 0 && forall c :: c in invalidated ==> invalidated[c] < time
  }

  function HeldBy(p: Phase): multiset<Gateway> { if p.Built? then Offered(p.gateway) else multiset{} }

  function Held(calls: seq<Call>): multiset<Gateway> {
    if calls == [] then multiset{} else HeldBy(calls[0].phase) + Held(calls[1..])
  }

  /** Every gateway ever made is cached, held by its builder, or retired, and only one of these. */
  ghost predicate Conserving(w: World) {
    multiset(w.made.Keys) == Bag(w.cache.entries) + Held(w.calls) + w.retired
  }

  ghost predicate Consistent(w: World) {
    && Sized(w.cache) && BuildsOk(w.calls, w.cache.builds) && TimesOk(w.invalidated, w.time)
    && CallsOk(w.calls, PastOf(w)) && WaitersOk(w.calls) && EntriesOk(w.cache, PastOf(w))
  }

  ghost predicate Inv(w: World) { Consistent(w) && Conserving(w) }
}

/** Why every step keeps it. */
module GatewaySafety {
  import opened Common
  import opened Governing
  import opened GatewayEntries
  import opened GatewaySteps
  import opened GatewayWorld

  // ---- gateways in builders' hands ----

  lemma AddToBoth(a: multiset<Gateway>, x: multiset<Gateway>, p: multiset<Gateway>, y: multiset<Gateway>, q: multiset<Gateway>)
    requires x + p == y + q
    ensures (a + x) + p == (a + y) + q
  {
    assert (a + x) + p == a + (x + p);
    assert (a + y) + q == a + (y + q);
  }

  lemma {:induction false} HeldUpdate(calls: seq<Call>, i: nat, call: Call)
    requires i < |calls|
    ensures Held(calls[i := call]) + HeldBy(calls[i].phase) == Held(calls) + HeldBy(call.phase)
  {
    if i == 0 {
      assert calls[i := call][1..] == calls[1..];
    } else {
      HeldUpdate(calls[1..], i - 1, call);
      assert calls[i := call][1..] == calls[1..][i - 1 := call];
      AddToBoth(HeldBy(calls[0].phase), Held(calls[1..][i - 1 := call]), HeldBy(calls[i].phase), Held(calls[1..]), HeldBy(call.phase));
    }
  }

  lemma {:induction false} HeldAppend(calls: seq<Call>, call: Call)
    ensures Held(calls + [call]) == Held(calls) + HeldBy(call.phase)
  {
    if calls == [] {
      assert calls + [call] == [call];
    } else {
      HeldAppend(calls[1..], call);
      assert (calls + [call])[1..] == calls[1..] + [call];
    }
  }

  // ---- calls ----

  /** A call moves without entering or leaving flight. */
  lemma FlightStays(calls: seq<Call>, builds: map<string, nat>, i: nat, phase: Phase)
    requires BuildsOk(calls, builds) && i < |calls| && InFlight(calls[i].phase) == InFlight(phase)
    ensures BuildsOk(Moved(calls, i, phase), builds)
  {
  }

  lemma FlightBegins(calls: seq<Call>, builds: map<string, nat>, i: nat, phase: Phase)
    requires BuildsOk(calls, builds) && i < |calls| && !InFlight(calls[i].phase) && InFlight(phase) && calls[i].clusterId !in builds
    ensures BuildsOk(Moved(calls, i, phase), builds[calls[i].clusterId := i])
  {
  }

  lemma FlightEnds(calls: seq<Call>, builds: map<string, nat>, i: nat, phase: Phase)
    requires BuildsOk(calls, builds) && i < |calls| && InFlight(calls[i].phase) && !InFlight(phase)
    ensures BuildsOk(Moved(calls, i, phase), builds - {calls[i].clusterId})
  {
  }

  /** More gateways made, more time passed, no cluster invalidated. */
  ghost predicate Goes(past: Past, next: Past) {
    && next.generations == past.generations && next.invalidated == past.invalidated && past.time <= next.time
    && forall g :: g in past.made ==> g in next.made && next.made[g] == past.made[g]
  }

  lemma CallMoves(calls: seq<Call>, past: Past, i: nat, phase: Phase, next: Past)
    requires CallsOk(calls, past) && i < |calls| && Goes(past, next) && CallOk(calls[i].(phase := phase), next)
    ensures CallsOk(Moved(calls, i, phase), next)
  {
    forall j | 0 <= j < |calls|
      ensures CallOk(Moved(calls, i, phase)[j], next)
    {
      assert CallOk(calls[j], past);
    }
  }

  lemma WaitersMove(calls: seq<Call>, i: nat, phase: Phase)
    requires WaitersOk(calls) && i < |calls| && (Awaited(calls[i].phase) ==> Awaited(phase))
    requires phase.Waiting? ==> phase.build < |calls| && Awaited(calls[phase.build].phase)
    ensures WaitersOk(Moved(calls, i, phase))
  {
  }

  // ---- entries ----

  /** The entries left by a section that brings nothing in. */
  ghost predicate Shrinks(before: Entries, after: Entries) {
    Part(after, before) && forall c :: c in after ==> after[c].fingerprint == before[c].fingerprint
  }

  lemma EntriesShrink(cache: Cache, past: Past, next: Cache, later: Past)
    requires EntriesOk(cache, past) && Shrinks(cache.entries, next.entries) && Goes(past, later)
    requires |next.entries| <= next.capacity && (next.closed ==> next.entries == map[])
    requires forall c :: c in next.entries ==> c !in next.builds
    ensures EntriesOk(next, later)
  {
    forall c | c in next.entries
      ensures EntryOk(c, next.entries[c], later)
    {
      assert EntryOk(c, cache.entries[c], past);
    }
  }

  lemma FewerEntries(a: Entries, b: Entries)
    requires Part(a, b)
    ensures |a| <= |b|
  {
    assert a.Keys <= b.Keys;
    assert b.Keys == a.Keys + (b.Keys - a.Keys);
    assert |a| == |a.Keys| && |b| == |b.Keys|;
  }

  /** What a section drops is retired, once. */
  lemma SectionConserves(w: World, next: Cache, calls: seq<Call>, added: multiset<Gateway>)
    requires Conserving(w) && Held(w.calls) == Held(calls) + added && Bag(next.entries) <= Bag(w.cache.entries) + added
    ensures Conserving(Section(w, next, calls, added))
  {
    Rebalance(multiset(w.made.Keys), Bag(w.cache.entries), Held(calls), w.retired, added, Bag(next.entries));
  }

  lemma Rebalance(
    all: multiset<Gateway>, cached: multiset<Gateway>, held: multiset<Gateway>, retired: multiset<Gateway>,
    added: multiset<Gateway>, left: multiset<Gateway>)
    requires all == cached + (held + added) + retired && left <= cached + added
    ensures all == left + held + (retired + (cached + added - left))
  {
  }

  /** A section that only shrinks the entries, with the calls as they are but for one that holds nothing. */
  lemma ShrinkConserves(w: World, next: Cache, calls: seq<Call>)
    requires Conserving(w) && Held(calls) == Held(w.calls) && Shrinks(w.cache.entries, next.entries)
    ensures Conserving(Section(w, next, calls, multiset{}))
  {
    BagOfPart(next.entries, w.cache.entries);
    assert Held(calls) + multiset{} == Held(calls) && Bag(w.cache.entries) + multiset{} == Bag(w.cache.entries);
    SectionConserves(w, next, calls, multiset{});
  }

  lemma HeldMore(calls: seq<Call>, i: nat, phase: Phase)
    requires i < |calls| && HeldBy(calls[i].phase) == multiset{}
    ensures Held(Moved(calls, i, phase)) == Held(calls) + HeldBy(phase)
  {
    HeldUpdate(calls, i, calls[i].(phase := phase));
    assert Held(Moved(calls, i, phase)) + multiset{} == Held(Moved(calls, i, phase));
  }

  // ---- the steps that keep the cache ----

  lemma EnterKept(w: World, call: Call, t: World)
    requires Inv(w) && call.phase.Looping? && t == w.(calls := w.calls + [call], time := w.time + 1)
    ensures Inv(t)
  {
    HeldAppend(w.calls, call);
    assert Held(t.calls) == Held(w.calls);
    assert BuildsOk(t.calls, t.cache.builds);
    forall i | 0 <= i < |t.calls|
      ensures CallOk(t.calls[i], PastOf(t))
    {
      assert i < |w.calls| ==> CallOk(w.calls[i], PastOf(w));
    }
    EntriesShrink(w.cache, PastOf(w), t.cache, PastOf(t));
  }

  /** A waiter wakes up or gives up. */
  lemma WaiterKept(w: World, i: nat, phase: Phase, t: World)
    requires Inv(w) && i < |w.calls| && w.calls[i].phase.Waiting?
    requires phase.Looping? || (phase.Returned? && phase.result.Err?)
    requires t == w.(calls := Moved(w.calls, i, phase), time := w.time + 1)
    ensures Inv(t)
  {
    HeldMore(w.calls, i, phase);
    FlightStays(w.calls, w.cache.builds, i, phase);
    CallMoves(w.calls, PastOf(w), i, phase, PastOf(t));
    WaitersMove(w.calls, i, phase);
    EntriesShrink(w.cache, PastOf(w), t.cache, PastOf(t));
  }

  lemma HandOver(all: multiset<Gateway>, cached: multiset<Gateway>, held: multiset<Gateway>, retired: multiset<Gateway>, more: multiset<Gateway>)
    requires all == cached + held + retired
    ensures all + more == cached + (held + more) + retired
  {
  }

  lemma MadeMore(made: map<Gateway, Origin>, gateway: Option<Gateway>, origin: Origin)
    requires gateway.Some? ==> gateway.value !in made
    ensures multiset((if gateway.Some? then made[gateway.value := origin] else made).Keys) == multiset(made.Keys) + Offered(gateway)
  {
    if gateway.Some? {
      assert made[gateway.value := origin].Keys == made.Keys + {gateway.value};
    }
  }

  lemma ReturnConserves(w: World, i: nat, gateway: Option<Gateway>, failed: bool, t: World)
    requires Conserving(w) && Enabled(w, Return(i, gateway, failed)) && t == Returns(w, i, gateway, failed)
    ensures Conserving(t)
  {
    var call := w.calls[i];
    HeldMore(w.calls, i, Built(call.phase.generation, call.phase.begun, gateway, failed));
    MadeMore(w.made, gateway, Origin(call.clusterId, call.fingerprint, call.phase.begun));
    HandOver(multiset(w.made.Keys), Bag(w.cache.entries), Held(w.calls), w.retired, Offered(gateway));
  }

  lemma ReturnKept(w: World, i: nat, gateway: Option<Gateway>, failed: bool, t: World)
    requires Inv(w) && Enabled(w, Return(i, gateway, failed)) && t == Returns(w, i, gateway, failed)
    ensures Inv(t)
  {
    var phase := t.calls[i].phase;
    FlightStays(w.calls, w.cache.builds, i, phase);
    assert CallOk(w.calls[i], PastOf(w));
    CallMoves(w.calls, PastOf(w), i, phase, PastOf(t));
    WaitersMove(w.calls, i, phase);
    EntriesShrink(w.cache, PastOf(w), t.cache, PastOf(t));
    ReturnConserves(w, i, gateway, failed, t);
  }

  // ---- the critical sections ----

  lemma CallsAge(calls: seq<Call>, past: Past, next: Past)
    requires CallsOk(calls, past) && Goes(past, next)
    ensures CallsOk(calls, next)
  {
    forall i | 0 <= i < |calls|
      ensures CallOk(calls[i], next)
    {
      assert CallOk(calls[i], past);
    }
  }

  lemma InvalidateCalls(calls: seq<Call>, past: Past, c: string, next: Past)
    requires CallsOk(calls, past) && next.made == past.made && next.time == past.time + 1
    requires next.generations == past.generations[c := Count(past.generations, c) + 1] && next.invalidated == past.invalidated[c := past.time]
    ensures CallsOk(calls, next)
  {
    forall i | 0 <= i < |calls|
      ensures CallOk(calls[i], next)
    {
      assert CallOk(calls[i], past);
    }
  }

  lemma InvalidateEntries(cache: Cache, past: Past, c: string, next: Cache, later: Past)
    requires EntriesOk(cache, past) && next == InvalidateNext(cache, c)
    requires later.made == past.made && later.invalidated == past.invalidated[c := past.time]
    ensures EntriesOk(next, later)
  {
    FewerEntries(next.entries, cache.entries);
    forall k | k in next.entries
      ensures EntryOk(k, next.entries[k], later)
    {
      assert EntryOk(k, cache.entries[k], past);
    }
  }

  lemma InvalidateConserves(w: World, clusterId: string, t: World)
    requires Conserving(w) && t == Section(w, InvalidateNext(w.cache, clusterId), w.calls, multiset{})
    ensures Conserving(t)
  {
    ShrinkConserves(w, InvalidateNext(w.cache, clusterId), w.calls);
  }

  lemma InvalidateKept(w: World, clusterId: string, s: World, t: World)
    requires Inv(w) && s == Section(w, InvalidateNext(w.cache, clusterId), w.calls, multiset{})
    requires t == s.(invalidated := w.invalidated[clusterId := w.time])
    ensures Inv(t)
  {
    assert Conserving(t) by {
      InvalidateConserves(w, clusterId, s);
    }
    InvalidateCalls(w.calls, PastOf(w), clusterId, PastOf(t));
    InvalidateEntries(w.cache, PastOf(w), clusterId, t.cache, PastOf(t));
  }

  /** A section that keeps the calls, the builds and the generations. */
  lemma ShrinkKept(w: World, next: Cache, t: World)
    requires Inv(w) && t == Section(w, next, w.calls, multiset{}) && Shrinks(w.cache.entries, next.entries)
    requires next.builds == w.cache.builds && next.generations == w.cache.generations && Sized(next)
    requires |next.entries| <= next.capacity && (next.closed ==> next.entries == map[])
    ensures Inv(t)
  {
    ShrinkConserves(w, next, w.calls);
    EntriesShrink(w.cache, PastOf(w), next, PastOf(t));
    CallsAge(w.calls, PastOf(w), PastOf(t));
  }

  lemma ReconcileShrinks(c: Cache, adaptive: bool, pressure: Pressure, now: int)
    requires Sized(c) && |c.entries| <= c.capacity
    ensures var next := ReconcileNext(c, adaptive, pressure, now);
            Sized(next) && Shrinks(c.entries, next.entries) && |next.entries| <= next.capacity
  {
  }

  lemma ReconcileKept(w: World, adaptive: bool, pressure: Pressure, now: int)
    requires Inv(w)
    ensures Inv(Section(w, ReconcileNext(w.cache, adaptive, pressure, now), w.calls, multiset{}))
  {
    var next := ReconcileNext(w.cache, adaptive, pressure, now);
    ReconcileShrinks(w.cache, adaptive, pressure, now);
    ShrinkKept(w, next, Section(w, next, w.calls, multiset{}));
  }

  lemma CloseKept(w: World)
    requires Inv(w)
    ensures Inv(Section(w, CloseNext(w.cache), w.calls, multiset{}))
  {
    var next := CloseNext(w.cache);
    ShrinkKept(w, next, Section(w, next, w.calls, multiset{}));
  }

  lemma BeginShrinks(c: Cache, clusterId: string, fingerprint: string, now: int, call: nat)
    ensures var (next, outcome) := BeginNext(c, clusterId, fingerprint, now, call);
            Shrinks(c.entries, next.entries) && |next.entries| <= |c.entries|
  {
    var (next, _) := BeginNext(c, clusterId, fingerprint, now, call);
    FewerEntries(next.entries, c.entries);
  }

  /** What the caller finds under the lock is what its next phase needs. */
  lemma BeginCall(w: World, i: nat, now: int, next: Cache, outcome: Outcome, time: nat)
    requires Consistent(w) && Enabled(w, Begin(i, now)) && time > w.time
    requires (next, outcome) == BeginNext(w.cache, w.calls[i].clusterId, w.calls[i].fingerprint, now, i)
    ensures var phase := Entered(outcome, w.time);
            && CallOk(w.calls[i].(phase := phase), PastOf(w).(time := time))
            && (phase.Waiting? ==> phase.build < |w.calls| && Awaited(w.calls[phase.build].phase))
            && BuildsOk(Moved(w.calls, i, phase), next.builds)
            && (forall c :: c in next.entries ==> c !in next.builds)
  {
    var call, phase := w.calls[i], Entered(outcome, w.time);
    if outcome.Start? {
      FlightBegins(w.calls, w.cache.builds, i, phase);
    } else {
      FlightStays(w.calls, w.cache.builds, i, phase);
    }
    if outcome.Hit? {
      assert EntryOk(call.clusterId, w.cache.entries[call.clusterId], PastOf(w));
    }
  }

  /** What the first critical section of Get promises about its caller and the entries. */
  ghost predicate Admits(w: World, i: nat, phase: Phase, next: Cache) {
    && i < |w.calls| && w.calls[i].phase.Looping? && !phase.Built?
    && next.generations == w.cache.generations && Sized(next)
    && Shrinks(w.cache.entries, next.entries) && |next.entries| <= next.capacity && (next.closed ==> next.entries == map[])
    && (forall c :: c in next.entries ==> c !in next.builds)
    && BuildsOk(Moved(w.calls, i, phase), next.builds) && CallOk(w.calls[i].(phase := phase), PastOf(w).(time := w.time + 1))
    && (phase.Waiting? ==> phase.build < |w.calls| && Awaited(w.calls[phase.build].phase))
  }

  lemma BeginAdmits(w: World, i: nat, now: int, next: Cache, outcome: Outcome)
    requires Consistent(w) && Enabled(w, Begin(i, now))
    requires (next, outcome) == BeginNext(w.cache, w.calls[i].clusterId, w.calls[i].fingerprint, now, i)
    ensures Admits(w, i, Entered(outcome, w.time), next)
  {
    BeginShrinks(w.cache, w.calls[i].clusterId, w.calls[i].fingerprint, now, i);
    BeginCall(w, i, now, next, outcome, w.time + 1);
  }

  lemma BeginConserves(w: World, i: nat, phase: Phase, next: Cache, t: World)
    requires Conserving(w) && Admits(w, i, phase, next) && t == Section(w, next, Moved(w.calls, i, phase), multiset{})
    ensures Conserving(t)
  {
    HeldMore(w.calls, i, phase);
    assert Held(w.calls) + multiset{} == Held(w.calls);
    ShrinkConserves(w, next, t.calls);
  }

  lemma BeginConsistent(w: World, i: nat, phase: Phase, next: Cache, t: World)
    requires Consistent(w) && Admits(w, i, phase, next) && t.calls == Moved(w.calls, i, phase) && t.cache == next
    requires t.made == w.made && t.invalidated == w.invalidated && t.time == w.time + 1
    ensures Consistent(t)
  {
    EntriesShrink(w.cache, PastOf(w), next, PastOf(t));
    CallMoves(w.calls, PastOf(w), i, phase, PastOf(t));
    WaitersMove(w.calls, i, phase);
  }

  lemma BeginKept(w: World, i: nat, phase: Phase, next: Cache, t: World)
    requires Inv(w) && Admits(w, i, phase, next) && t == Section(w, next, Moved(w.calls, i, phase), multiset{})
    ensures Inv(t)
  {
    BeginConserves(w, i, phase, next, t);
    BeginConsistent(w, i, phase, next, t);
  }

  lemma CompleteConserves(w: World, i: nat, next: Cache, phase: Phase, calls: seq<Call>)
    requires Conserving(w) && i < |w.calls| && w.calls[i].phase.Built? && phase.Returned? && calls == Moved(w.calls, i, phase)
    requires Bag(next.entries) <= Bag(w.cache.entries) + Offered(w.calls[i].phase.gateway)
    ensures Conserving(Section(w, next, calls, Offered(w.calls[i].phase.gateway)))
  {
    HeldUpdate(w.calls, i, w.calls[i].(phase := phase));
    assert Held(w.calls) + multiset{} == Held(w.calls);
    SectionConserves(w, next, calls, Offered(w.calls[i].phase.gateway));
  }

  lemma StoringBag(entries: Entries, k: string, e: Entry, capacity: nat)
    requires k !in entries
    ensures Bag(Evicted(entries[k := e], capacity)) <= Bag(entries) + multiset{e.gateway}
  {
    BagWith(entries, k, e);
    BagOfPart(Evicted(entries[k := e], capacity), entries[k := e]);
  }

  lemma StoringEntries(cache: Cache, past: Past, k: string, e: Entry, next: Cache)
    requires EntriesOk(cache, past) && Sized(cache) && !cache.closed && EntryOk(k, e, past)
    requires next == cache.(builds := cache.builds - {k}, entries := Evicted(cache.entries[k := e], cache.capacity))
    ensures EntriesOk(next, past)
  {
    forall c | c in next.entries
      ensures c !in next.builds && EntryOk(c, next.entries[c], past)
    {
      assert c != k ==> c !in cache.builds && EntryOk(c, cache.entries[c], past);
    }
  }

  lemma CompleteBag(w: World, i: nat, now: int, next: Cache, result: Result<Gateway>)
    requires Consistent(w) && Enabled(w, Complete(i, now))
    requires var c := w.calls[i];
             (next, result) == CompleteNext(w.cache, c.clusterId, c.fingerprint, c.phase.generation, c.phase.gateway, c.phase.failed, now)
    ensures Bag(next.entries) <= Bag(w.cache.entries) + Offered(w.calls[i].phase.gateway)
  {
    assert InFlight(w.calls[i].phase);
    if result.Ok? {
      StoringBag(w.cache.entries, w.calls[i].clusterId, Entry(w.calls[i].fingerprint, result.value, now), w.cache.capacity);
    }
  }

  /** The gateway just built is cached unless it was refused; eviction may drop it at once. */
  lemma CompleteEntries(cache: Cache, past: Past, c: Call, now: int, next: Cache, result: Result<Gateway>)
    requires EntriesOk(cache, past) && Sized(cache) && past.generations == cache.generations && c.phase.Built? && CallOk(c, past)
    requires (next, result) == CompleteNext(cache, c.clusterId, c.fingerprint, c.phase.generation, c.phase.gateway, c.phase.failed, now)
    ensures EntriesOk(next, past) && Sized(next) && next.generations == cache.generations
    ensures result.Ok? ==> c.phase.gateway == Some(result.value)
    ensures next.builds == cache.builds - {c.clusterId}
  {
    if result.Ok? {
      StoringEntries(cache, past, c.clusterId, Entry(c.fingerprint, result.value, now), next);
    }
  }

  lemma CompleteKept(w: World, i: nat, now: int, t: World)
    requires Inv(w) && Enabled(w, Complete(i, now)) && t == Do(w, Complete(i, now))
    ensures Inv(t)
  {
    var c := w.calls[i];
    var (next, result) := CompleteNext(w.cache, c.clusterId, c.fingerprint, c.phase.generation, c.phase.gateway, c.phase.failed, now);
    var phase := Returned(result);
    assert CallOk(c, PastOf(w));
    CompleteEntries(w.cache, PastOf(w), c, now, next, result);
    CompleteBag(w, i, now, next, result);
    CompleteConserves(w, i, next, phase, t.calls);
    FlightEnds(w.calls, w.cache.builds, i, phase);
    assert CallOk(c, PastOf(w));
    CallMoves(w.calls, PastOf(w), i, phase, PastOf(t));
    WaitersMove(w.calls, i, phase);
    EntriesShrink(next, PastOf(w), next, PastOf(t));
  }

  lemma StepKept(w: World, a: Action)
    requires Inv(w) && Enabled(w, a)
    ensures Inv(Do(w, a))
  {
    var t := Do(w, a);
    match a
    case Enter(clusterId, fingerprint) => EnterKept(w, Call(clusterId, fingerprint, Looping), t);
    case Begin(i, now) =>
      var (next, outcome) := BeginNext(w.cache, w.calls[i].clusterId, w.calls[i].fingerprint, now, i);
      BeginAdmits(w, i, now, next, outcome);
      BeginKept(w, i, Entered(outcome, w.time), next, t);
    case Return(i, gateway, failed) => ReturnKept(w, i, gateway, failed, t);
    case Complete(i, now) => CompleteKept(w, i, now, t);
    case Wake(i) => WaiterKept(w, i, Woken(w.calls[i], w.calls[w.calls[i].phase.build]), t);
    case GiveUp(i) => WaiterKept(w, i, Returned(Err(ContextDone)), t);
    case Invalidate(clusterId) => InvalidateKept(w, clusterId, Section(w, InvalidateNext(w.cache, clusterId), w.calls, multiset{}), t);
    case Reconcile(adaptive, pressure, now) =>
      ReconcileKept(w, adaptive, pressure, now);
    case Close => CloseKept(w);
  }
}
