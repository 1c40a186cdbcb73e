/** The dial latency a backend is credited with, the cost of a new dial over it, and
    the choice between two candidates. Times and durations are in nanoseconds. */
module DialCost {
  import opened Options

  const WINDOW: int := 30_000_000_000
  const FLOOR: int := 5_000_000

  /** A moving average and when it was last updated. */
  datatype Average = Average(latency: int, at: int)

  datatype Sample = Sample(latency: int, at: int)

  /** Go's division by two: it truncates towards zero. */
  function Half(x: int): int { if x >= 0 then x / 2 else -((-x) / 2) }

  function Observe(avg: Option<Average>, x: Sample): Average {
    if avg.None? || x.at - avg.value.at > WINDOW then Average(x.latency, x.at)
    else Average(Half(avg.value.latency + x.latency), x.at)
  }

  function Recent(avg: Option<Average>, now: int): int {
    if avg.Some? && now - avg.value.at <= WINDOW && avg.value.latency > FLOOR then avg.value.latency else FLOOR
  }

  function Cost(avg: Option<Average>, now: int, inFlight: int): int {
    Recent(avg, now) * ((if inFlight < 0 then 0 else inFlight) + 1)
  }

  /** What is known of a candidate when two are compared. */
  datatype Candidate = Candidate(cost: int, waiting: nat, capacity: nat)

  /** RecvChannelOccupancy. */
  function Occupancy(c: Candidate): real {
    if c.capacity == 0 then 0.0 else c.waiting as real / c.capacity as real
  }

  /** preferredBackend: whether the first candidate is taken. */
  predicate TakesFirst(first: Candidate, second: Candidate, coin: bool) {
    if second.cost >= 2 * first.cost then true
    else if first.cost >= 2 * second.cost then false
    else if Occupancy(first) < Occupancy(second) then true
    else if Occupancy(second) < Occupancy(first) then false
    else coin
  }

  /** The object: dialLatency and dialLatencyAt of a backend. */
  class DialStats {
    var latency: int
    var at: Option<int>

    ghost function State(): Option<Average>
      reads this
    {
      if at.None? then None else Some(Average(latency, at.value))
    }

    constructor ()
      ensures State() == None
    {
      latency, at := 0, None;
    }

    method ObserveDial(d: int, now: int)
      modifies this
      ensures State() == Some(Observe(old(State()), Sample(d, now)))
    {
      if at.None? || now - at.value > WINDOW {
        latency := d;
      } else {
        latency := Half(latency + d);
      }
      at := Some(now);
    }

    method DialCost(now: int, inFlight: int) returns (cost: int)
      ensures cost == Cost(State(), now, inFlight)
    {
      var recent := FLOOR;
      if at.Some? && now - at.value <= WINDOW && latency > recent {
        recent := latency;
      }
      var waiting := inFlight;
      if waiting < 0 {
        waiting := 0;
      }
      cost := recent * (waiting + 1);
    }
  }

  // ----- Costs -----

  lemma Scales(latency: int, times: int)
    requires latency >= FLOOR && times >= 1
    ensures latency * times >= latency
  {
    assert latency * (times - 1) >= 0;
  }

  /** A cost is never below the floor, and one more dial in flight adds at least the
      floor to it. */
  lemma CostIsAtLeastTheFloor(avg: Option<Average>, now: int, inFlight: int)
    ensures Cost(avg, now, inFlight) >= FLOOR
    ensures inFlight >= 0 ==> Cost(avg, now, inFlight + 1) >= Cost(avg, now, inFlight) + FLOOR
  {
    var recent := Recent(avg, now);
    if inFlight >= 0 {
      Scales(recent, inFlight + 1);
      assert recent * (inFlight + 2) == recent * (inFlight + 1) + recent;
    }
  }

  /** The candidate taken always costs less than twice the other, and is the less
      occupied one unless the other costs at least twice as much. */
  lemma ChosenCostsLessThanTwice(first: Candidate, second: Candidate, coin: bool)
    requires first.cost >= FLOOR && second.cost >= FLOOR
    ensures var (chosen, rejected) := if TakesFirst(first, second, coin) then (first, second) else (second, first);
            && chosen.cost < 2 * rejected.cost
            && (rejected.cost < 2 * chosen.cost ==> Occupancy(chosen) <= Occupancy(rejected))
  {}

  // ----- The moving average -----

  function ObserveAll(samples: seq<Sample>): Option<Average> {
    if samples == [] then None else Some(Observe(ObserveAll(samples[..|samples| - 1]), samples[|samples| - 1]))
  }

  /** The latencies sampled since the last gap of more than the window. */
  function SinceRestart(samples: seq<Sample>): seq<int> {
    if samples == [] then []
    else
      var n := |samples| - 1;
      (if n > 0 && samples[n].at - samples[n - 1].at <= WINDOW then SinceRestart(samples[..n]) else [])
        + [samples[n].latency]
  }

  lemma {:induction false} LastUpdate(samples: seq<Sample>)
    requires samples != []
    ensures ObserveAll(samples).Some? && ObserveAll(samples).value.at == samples[|samples| - 1].at
  {}

  /** Whatever the samples, the recorded latency lies between the least and the greatest
      sample since the last restart. */
  lemma {:induction false} AverageIsBetweenSamples(samples: seq<Sample>, low: int, high: int)
    requires samples != [] && forall d | d in SinceRestart(samples) :: low <= d <= high
    ensures low <= ObserveAll(samples).value.latency <= high
  {
    var n := |samples| - 1;
    assert samples[n].latency in SinceRestart(samples);
    if n > 0 {
      var before := samples[..n];
      LastUpdate(before);
      assert before[n - 1] == samples[n - 1];
      if samples[n].at - samples[n - 1].at <= WINDOW {
        assert forall d | d in SinceRestart(before) :: d in SinceRestart(samples);
        AverageIsBetweenSamples(before, low, high);
      }
    }
  }

  function Distance(a: int, b: int): nat { if a < b then b - a else a - b }

  function Pow2(k: nat): nat { if k == 0 then 1 else 2 * Pow2(k - 1) }

  lemma OneSampleHalves(latency: int, d: int)
    ensures 2 * Distance(Half(latency + d), d) <= Distance(latency, d) + 1
  {}

  lemma {:induction false} TimesIsMonotone(p: nat, a: nat, b: nat)
    requires a <= b
    ensures p * a <= p * b
  {
    assert p * (b - a) >= 0;
  }

  /** `distance` is at most `start` divided by `p`, up to rounding. */
  predicate Within(distance: nat, start: nat, p: nat) { p * distance <= start + p - 1 }

  lemma Doubling(p: nat, near: nat, far: nat, start: nat)
    requires 2 * near <= far + 1 && Within(far, start, p)
    ensures Within(near, start, 2 * p)
  {
    TimesIsMonotone(p, 2 * near, far + 1);
  }

  /** A sample within the window of the one before is averaged in. */
  lemma NextAverage(samples: seq<Sample>)
    requires |samples| > 1 && samples[|samples| - 1].at - samples[|samples| - 2].at <= WINDOW
    ensures ObserveAll(samples[..|samples| - 1]).Some? && ObserveAll(samples).Some?
    ensures ObserveAll(samples).value.latency
            == Half(ObserveAll(samples[..|samples| - 1]).value.latency + samples[|samples| - 1].latency)
  {
    var before := samples[..|samples| - 1];
    LastUpdate(before);
    assert before[|before| - 1] == samples[|samples| - 2];
  }

  /** After samples of the same latency, each within the window of the one before, the
      distance to it has halved with each of them, up to rounding. */
  lemma {:induction false} RepeatedSampleHalves(samples: seq<Sample>, first: nat, d: int)
    requires 0 < first <= |samples|
    requires forall i | first <= i < |samples| :: samples[i].latency == d && samples[i].at - samples[i - 1].at <= WINDOW
    ensures ObserveAll(samples).Some? && ObserveAll(samples[..first]).Some?
    ensures Within(Distance(ObserveAll(samples).value.latency, d),
                   Distance(ObserveAll(samples[..first]).value.latency, d),
                   Pow2(|samples| - first))
  {
    if first == |samples| {
      assert samples[..first] == samples;
    } else {
      var before := samples[..|samples| - 1];
      assert before[..first] == samples[..first];
      RepeatedSampleHalves(before, first, d);
      NextAverage(samples);
      var far := ObserveAll(before).value.latency;
      OneSampleHalves(far, d);
      Doubling(Pow2(|before| - first), Distance(Half(far + d), d), Distance(far, d),
               Distance(ObserveAll(samples[..first]).value.latency, d));
    }
  }
}
