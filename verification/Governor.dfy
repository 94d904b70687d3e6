/** The adaptive governor of internal/resourceguard/governor.go. */
module Governing {
  import opened Common

  /** A float64 reading of the sampler. */
  datatype Reading = NaN | PlusInf | MinusInf | Finite(value: real)

  datatype Sample = Sample(memory: Option<Reading>, load: Option<Reading>)

  datatype Pressure = PressureUnknown | PressureNormal | PressureConstrained | PressureCritical

  datatype Config = Config(enabled: bool, maxConcurrent: int, high: real, critical: real)

  predicate ValidConfig(c: Config) {
    c.maxConcurrent >= 1 && 0.0 < c.high < 1.0 && c.high < c.critical <= 1.0
  }

  function SafeRatio(value: Option<Reading>): Option<real> {
    match value
    case Some(Finite(r)) => if r < 0.0 then None else Some(r)
    case _ => None
  }

  function MaximumRatio(left: Option<real>, right: Option<real>): Option<real> {
    match (left, right)
    case (None, _) => right
    case (_, None) => left
    case (Some(l), Some(r)) => Some(if l < r then r else l)
  }

  function Capacity(c: Config, memory: Option<real>, load: Option<real>): (Pressure, int) {
    if !c.enabled then (PressureNormal, c.maxConcurrent)
    else match MaximumRatio(memory, load)
      case None => (PressureUnknown, c.maxConcurrent)
      case Some(ratio) =>
        if ratio >= c.critical then (PressureCritical, 0)
        else if ratio >= c.high then (PressureConstrained, Max(1, (c.maxConcurrent + 1) / 2))
        else (PressureNormal, c.maxConcurrent)
  }

  function Limit(c: Config, sample: Sample): int {
    Capacity(c, SafeRatio(sample.memory), SafeRatio(sample.load)).1
  }

  /** A finite reading of at least `bound`. */
  predicate Reaches(reading: Option<Reading>, bound: real) { reading.Some? && reading.value.Finite? && reading.value.value >= bound }

  /** The limit is zero exactly under critical pressure, half the maximum, rounded up, exactly from the
      high mark on, and otherwise the maximum. */
  lemma LimitBounds(c: Config, sample: Sample)
    requires ValidConfig(c)
    ensures 0 <= Limit(c, sample) <= c.maxConcurrent
    ensures c.enabled ==>
              var critical := Reaches(sample.memory, c.critical) || Reaches(sample.load, c.critical);
              var high := Reaches(sample.memory, c.high) || Reaches(sample.load, c.high);
              && (Limit(c, sample) == 0 <==> critical)
              && (!critical && high ==> c.maxConcurrent <= 2 * Limit(c, sample) <= c.maxConcurrent + 1)
              && (!high ==> Limit(c, sample) == c.maxConcurrent)
    ensures !c.enabled ==> Limit(c, sample) == c.maxConcurrent
  {
  }

  /** A reading that counts. */
  predicate Usable(reading: Option<Reading>) { reading.Some? && reading.value.Finite? && reading.value.value >= 0.0 }

  /** The pressure that the governor reports with the limit. */
  lemma PressureIsExact(c: Config, sample: Sample)
    requires ValidConfig(c)
    ensures var pressure := Capacity(c, SafeRatio(sample.memory), SafeRatio(sample.load)).0;
            var critical := c.enabled && (Reaches(sample.memory, c.critical) || Reaches(sample.load, c.critical));
            var high := c.enabled && (Reaches(sample.memory, c.high) || Reaches(sample.load, c.high));
            && (pressure == PressureCritical <==> critical)
            && (pressure == PressureConstrained <==> high && !critical)
            && (pressure == PressureUnknown <==> c.enabled && !Usable(sample.memory) && !Usable(sample.load))
  {
  }

  predicate AtMost(low: Option<Reading>, high: Option<Reading>) {
    low == high || (low.Some? && high.Some? && low.value.Finite? && high.value.Finite? && low.value.value <= high.value.value)
  }

  /** The limit never rises as either finite reading rises. */
  lemma LimitIsMonotone(c: Config, calm: Sample, busy: Sample)
    requires ValidConfig(c)
    requires AtMost(calm.memory, busy.memory) && AtMost(calm.load, busy.load)
    ensures Limit(c, busy) <= Limit(c, calm)
  {
    var a := MaximumRatio(SafeRatio(calm.memory), SafeRatio(calm.load));
    var b := MaximumRatio(SafeRatio(busy.memory), SafeRatio(busy.load));
    assert a.Some? ==> b.Some? && a.value <= b.value;
  }

  /** Memory and load count alike. */
  lemma LimitIsSymmetric(c: Config, a: Option<Reading>, b: Option<Reading>)
    ensures Limit(c, Sample(a, b)) == Limit(c, Sample(b, a))
  {
  }

  /** The pressure of one reading is above that of the other: beyond a mark that the other does not reach. */
  predicate Outweighs(c: Config, a: Option<Reading>, b: Option<Reading>) {
    || (Reaches(a, c.critical) && !Reaches(b, c.critical))
    || (Reaches(a, c.high) && !Reaches(b, c.high) && c.maxConcurrent > 1)
  }

  /** A reading that is not finite counts as missing, so it can only raise the limit: monotonicity
      stops at infinity. It does raise it exactly if the finite reading it replaces outweighs the other. */
  lemma InfiniteReadingLifts(c: Config, other: Option<Reading>, ratio: real)
    requires ValidConfig(c)
    ensures var finite, infinite := Some(Finite(ratio)), Some(PlusInf);
            && Limit(c, Sample(infinite, other)) == Limit(c, Sample(None, other)) >= Limit(c, Sample(finite, other))
            && (Limit(c, Sample(infinite, other)) > Limit(c, Sample(finite, other)) <==> c.enabled && Outweighs(c, finite, other))
            && Limit(c, Sample(other, infinite)) == Limit(c, Sample(other, None)) >= Limit(c, Sample(other, finite))
            && (Limit(c, Sample(other, infinite)) > Limit(c, Sample(other, finite)) <==> c.enabled && Outweighs(c, finite, other))
  {
    LimitIsSymmetric(c, other, Some(PlusInf));
    LimitIsSymmetric(c, other, None);
    LimitIsSymmetric(c, other, Some(Finite(ratio)));
    LimitBounds(c, Sample(Some(PlusInf), other));
    LimitBounds(c, Sample(Some(Finite(ratio)), other));
  }

  /** `granted` numbers the release closures handed out; `fired` holds those whose once has run. */
  datatype Ledger = Ledger(active: int, granted: nat, fired: set<nat>)

  datatype Event = Try(sample: Sample) | Release(handle: nat)

  function Open(l: Ledger): set<nat> {
    set h: nat | 0 <= h < l.granted && h !in l.fired
  }

  function Post(c: Config, l: Ledger, e: Event): Ledger {
    match e
    case Try(sample) =>
      if l.active >= Limit(c, sample) then l else l.(active := l.active + 1, granted := l.granted + 1)
    case Release(h) =>
      if h >= l.granted || h in l.fired then l
      else l.(active := if l.active > 0 then l.active - 1 else l.active, fired := l.fired + {h})
  }

  function Posts(c: Config, l: Ledger, events: seq<Event>): Ledger
    decreases |events|
  {
    if events == [] then l else Posts(c, Post(c, l, events[0]), events[1..])
  }

  /** An attempt of Acquire with its sample, and what others do before the next one. */
  datatype Round = Round(sample: Sample, others: seq<Event>)

  /** The ledger that attempt `k` finds, when those before it failed. */
  function Before(c: Config, l: Ledger, rounds: seq<Round>, k: nat): Ledger
    requires k <= |rounds|
  {
    if k == 0 then l else Posts(c, Before(c, l, rounds, k - 1), rounds[k - 1].others)
  }

  predicate LeavesRoom(c: Config, l: Ledger, sample: Sample) { |Open(l)| < Limit(c, sample) }

  function Replay(c: Config, events: seq<Event>): Ledger {
    if events == [] then Ledger(0, 0, {}) else Post(c, Replay(c, events[..|events| - 1]), events[|events| - 1])
  }

  /** Closures that have not been handed out cannot have fired. */
  ghost predicate Balanced(c: Config, l: Ledger) {
    && l.active == |Open(l)| && 0 <= l.active <= c.maxConcurrent
    && forall h :: h in l.fired ==> h < l.granted
  }

  lemma GrantOpens(l: Ledger, active: int)
    requires forall h :: h in l.fired ==> h < l.granted
    ensures var next := l.(active := active, granted := l.granted + 1);
            l.granted !in Open(l) && Open(next) == Open(l) + {l.granted} && |Open(next)| == |Open(l)| + 1
  {
  }

  lemma FiringCloses(l: Ledger, active: int, h: nat)
    requires h in Open(l)
    ensures var next := l.(active := active, fired := l.fired + {h});
            Open(next) == Open(l) - {h} && |Open(next)| == |Open(l)| - 1
  {
    assert Open(l) == Open(l.(active := active, fired := l.fired + {h})) + {h};
  }

  lemma PostKeepsBalance(c: Config, l: Ledger, e: Event)
    requires ValidConfig(c) && Balanced(c, l)
    ensures Balanced(c, Post(c, l, e))
    ensures e.Release? && e.handle in Open(l) ==> l.active > 0 && Open(Post(c, l, e)) == Open(l) - {e.handle}
    ensures e.Release? && e.handle !in Open(l) ==> Post(c, l, e) == l
    ensures e.Try? && |Open(l)| < Limit(c, e.sample) ==> Open(Post(c, l, e)) == Open(l) + {l.granted} && l.granted !in Open(l)
    ensures e.Try? && |Open(l)| >= Limit(c, e.sample) ==> Post(c, l, e) == l
  {
    match e
    case Try(sample) =>
      LimitBounds(c, sample);
      GrantOpens(l, l.active + 1);
    case Release(h) =>
      if h in Open(l) {
        FiringCloses(l, l.active - 1, h);
      }
  }

  /** Conservation over every run: after any interleaving of admissions and releases, repeated
      releases included, `active` counts exactly the grants not yet released and stays within the
      maximum. The `active > 0` guard of a release is therefore never what saves it. */
  lemma {:induction false} ActiveCountsOpenGrants(c: Config, events: seq<Event>)
    requires ValidConfig(c)
    ensures Balanced(c, Replay(c, events))
  {
    if events != [] {
      ActiveCountsOpenGrants(c, events[..|events| - 1]);
      PostKeepsBalance(c, Replay(c, events[..|events| - 1]), events[|events| - 1]);
    } else {
      assert Open(Ledger(0, 0, {})) == {};
    }
  }

  class Governor {
    const config: Config
    var active: int
    var granted: nat
    var fired: set<nat>

    ghost function View(): Ledger
      reads this
    {
      Ledger(active, granted, fired)
    }

    ghost predicate Valid()
      reads this
    {
      ValidConfig(config) && Balanced(config, View())
    }

    constructor (config: Config)
      requires ValidConfig(config)
      ensures this.config == config && View() == Ledger(0, 0, {}) && Valid()
    {
      this.config := config;
      active, granted, fired := 0, 0, {};
      new;
      assert Open(View()) == {};
    }

    method TryAcquire(sample: Sample) returns (release: Option<nat>)
      requires Valid()
      modifies this
      ensures Valid() && View() == Post(config, old(View()), Try(sample))
      ensures release == if LeavesRoom(config, old(View()), sample) then Some(old(granted)) else None
      ensures release.None? ==> View() == old(View())
    {
      PostKeepsBalance(config, View(), Try(sample));
      if active >= Limit(config, sample) {
        return None;
      }
      release := Some(granted);
      active := active + 1;
      granted := granted + 1;
    }

    /** One attempt per sample, until one is admitted or the context ends with the samples. Others
        acquire and release between the attempts. */
    method Acquire(rounds: seq<Round>) returns (release: Option<nat>, attempts: nat)
      requires Valid()
      modifies this
      ensures Valid() && attempts <= |rounds|
      ensures forall k :: 0 <= k < attempts ==> !LeavesRoom(config, Before(config, old(View()), rounds, k), rounds[k].sample)
      ensures release.Some? <==> attempts < |rounds|
      ensures release.Some? ==>
                var found := Before(config, old(View()), rounds, attempts);
                && LeavesRoom(config, found, rounds[attempts].sample) && release == Some(found.granted)
                && View() == Post(config, found, Try(rounds[attempts].sample))
      ensures release.None? ==> View() == Before(config, old(View()), rounds, attempts)
    {
      attempts := 0;
      while attempts < |rounds|
        invariant Valid() && attempts <= |rounds| && View() == Before(config, old(View()), rounds, attempts)
        invariant forall k :: 0 <= k < attempts ==> !LeavesRoom(config, Before(config, old(View()), rounds, k), rounds[k].sample)
      {
        ghost var found := View();
        assert found == Before(config, old(View()), rounds, attempts);
        release := TryAcquire(rounds[attempts].sample);
        if release.Some? {
          return;
        }
        Interleave(rounds[attempts].others);
        assert View() == Posts(config, found, rounds[attempts].others);
        attempts := attempts + 1;
      }
      release := None;
    }

    /** What other callers do. */
    method Interleave(others: seq<Event>)
      requires Valid()
      modifies this
      ensures Valid() && View() == Posts(config, old(View()), others)
    {
      for i := 0 to |others|
        invariant Valid() && Posts(config, View(), others[i..]) == Posts(config, old(View()), others)
      {
        assert others[i..][1..] == others[i + 1..];
        match others[i] {
          case Try(sample) => var granted := TryAcquire(sample);
          case Release(handle) => if handle < granted { this.Release(handle); }
        }
      }
    }

    method Release(handle: nat)
      requires Valid() && handle < granted
      modifies this
      ensures Valid() && View() == Post(config, old(View()), Event.Release(handle))
      ensures Open(View()) == Open(old(View())) - {handle}
    {
      PostKeepsBalance(config, View(), Event.Release(handle));
      if handle !in fired {
        fired := fired + {handle};
        if active > 0 {
          active := active - 1;
        }
      }
    }
  }
}
