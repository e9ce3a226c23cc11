/**
 * Per-link travel-time bins: for every time slot a sample count and the mean
 * of the travel times recorded in that slot, with the free-speed travel time
 * as the fallback for a slot that has none.
 */
module TrafficMonitoring {

  /** `Short.MAX_VALUE`: the counts are 16-bit in the source. */
  const SHORT_MAX_VALUE: int := 32767

  /** The travel time stored in a slot that holds no data. */
  const NO_DATA: real := -1.0

  datatype Link = Link(id: string, length: real)

  /** The mean after `addTravelTime`: the old mean weighted by its count, plus the new sample. */
  function AddedMean(travelTime: real, cnt: nat, sample: real): real {
    (travelTime * cnt as real + sample) / (cnt + 1) as real
  }

  function Sum(samples: seq<real>): real {
    if samples == [] then 0.0 else Sum(samples[..|samples| - 1]) + samples[|samples| - 1]
  }

  /** A slot as (mean, count), after `addTravelTime` of every sample in turn, starting from `slot`. */
  function AddAll(slot: (real, nat), samples: seq<real>): (r: (real, nat))
    ensures r.1 == slot.1 + |samples|
  {
    if samples == [] then slot
    else
      var before := AddAll(slot, samples[..|samples| - 1]);
      (AddedMean(before.0, before.1, samples[|samples| - 1]), before.1 + 1)
  }

  /**
   * `addTravelTime` keeps a running mean: if the slot's mean times its count is
   * the sum of the samples so far, it stays so after any further samples. A
   * reset slot (mean -1, count 0) and a slot just set to `t` (mean `t`, count 1)
   * both start out that way.
   */
  lemma {:induction false} AddAllKeepsSum(slot: (real, nat), samples: seq<real>, sumSoFar: real)
    requires slot.0 * slot.1 as real == sumSoFar
    ensures AddAll(slot, samples).0 * AddAll(slot, samples).1 as real == sumSoFar + Sum(samples)
  {
    if samples != [] {
      var init := samples[..|samples| - 1];
      var last := samples[|samples| - 1];
      AddAllKeepsSum(slot, init, sumSoFar);
      var before := AddAll(slot, init);
      var n := (before.1 + 1) as real;
      assert samples[..|samples| - 1] == init;
      assert Sum(samples) == Sum(init) + last;
      DivisionCancels(before.0 * before.1 as real + last, n);
    }
  }

  lemma DivisionCancels(x: real, n: real)
    requires n > 0.0
    ensures (x / n) * n == x
  {
  }

  /** From a reset slot, the stored value after one or more samples is exactly their mean. */
  lemma {:induction false} ResetSlotAveragesSamples(samples: seq<real>)
    requires samples != []
    ensures AddAll((NO_DATA, 0), samples).0 == Sum(samples) / |samples| as real
  {
    var reset: (real, nat) := (NO_DATA, 0);
    assert reset.0 * reset.1 as real == 0.0;
    AddAllKeepsSum(reset, samples, 0.0);
    var r := AddAll(reset, samples);
    assert r.1 == |samples|;
    DivisionInverts(r.0, |samples| as real, Sum(samples));
  }

  lemma DivisionInverts(x: real, n: real, s: real)
    requires n > 0.0 && x * n == s
    ensures x == s / n
  {
  }

  /** The first sample added to a reset slot is stored as it is: the -1 times a count of 0 drops out. */
  lemma FirstSampleStoredExactly(sample: real)
    ensures AddedMean(NO_DATA, 0, sample) == sample
  {
  }

  class TravelTimeDataArray {
    const timeCnt: array<int>
    const travelTimes: array<real>
    const link: Link

    ghost predicate Valid()
      reads timeCnt
    {
      && timeCnt.Length == travelTimes.Length
      && forall i :: 0 <= i < timeCnt.Length ==> 0 <= timeCnt[i] <= SHORT_MAX_VALUE
    }

    ghost predicate IsReset()
      reads timeCnt, travelTimes
    {
      && (forall i :: 0 <= i < timeCnt.Length ==> timeCnt[i] == 0)
      && (forall i :: 0 <= i < travelTimes.Length ==> travelTimes[i] == NO_DATA)
    }

    constructor (link: Link, numSlots: nat)
      ensures Valid() && IsReset()
      ensures fresh(timeCnt) && fresh(travelTimes)
      ensures timeCnt.Length == numSlots && this.link == link
    {
      timeCnt := new int[numSlots];
      travelTimes := new real[numSlots];
      this.link := link;
      new;
      ResetTravelTimes();
    }

    method ResetTravelTimes()
      requires timeCnt.Length == travelTimes.Length
      modifies timeCnt, travelTimes
      ensures Valid() && IsReset()
    {
      for i := 0 to travelTimes.Length
        invariant forall j :: 0 <= j < i ==> timeCnt[j] == 0 && travelTimes[j] == NO_DATA
      {
        timeCnt[i] := 0;
        travelTimes[i] := NO_DATA;
      }
    }

    /** Replaces the slot's data by the single sample `traveltime`; a non-positive value is only logged. */
    method SetTravelTime(timeSlot: int, traveltime: real)
      requires Valid()
      requires 0 <= timeSlot < timeCnt.Length
      modifies timeCnt, travelTimes
      ensures Valid()
      ensures timeCnt[..] == old(timeCnt[..])[timeSlot := 1]
      ensures travelTimes[..] == old(travelTimes[..])[timeSlot := traveltime]
    {
      timeCnt[timeSlot] := 1;
      travelTimes[timeSlot] := traveltime;
    }

    /** Adds one sample to the slot's running mean. */
    method AddTravelTime(timeSlot: int, traveltime: real)
      requires Valid()
      requires 0 <= timeSlot < timeCnt.Length
      requires timeCnt[timeSlot] < SHORT_MAX_VALUE
      modifies timeCnt, travelTimes
      ensures Valid()
      ensures timeCnt[..] == old(timeCnt[..])[timeSlot := old(timeCnt[timeSlot]) + 1]
      ensures travelTimes[..] ==
                old(travelTimes[..])[timeSlot := AddedMean(old(travelTimes[timeSlot]), old(timeCnt[timeSlot]), traveltime)]
      ensures (travelTimes[timeSlot], timeCnt[timeSlot] as nat) ==
                AddAll((old(travelTimes[timeSlot]), old(timeCnt[timeSlot]) as nat), [traveltime])
    {
      var cnt := timeCnt[timeSlot];
      var sum := travelTimes[timeSlot] * cnt as real;
      sum := sum + traveltime;
      cnt := cnt + 1;
      assert sum / cnt as real == AddedMean(old(travelTimes[timeSlot]), old(timeCnt[timeSlot]), traveltime);
      travelTimes[timeSlot] := sum / cnt as real;
      timeCnt[timeSlot] := cnt;
    }

    /**
     * The slot's travel time; a slot without data falls back to the free-speed
     * travel time `link.length / freespeed`, which is cached in the slot.
     */
    method GetTravelTime(timeSlot: int, freespeed: real) returns (ttime: real)
      requires 0 <= timeSlot < travelTimes.Length
      requires freespeed != 0.0
      modifies travelTimes
      ensures old(travelTimes[timeSlot]) >= 0.0 ==> ttime == old(travelTimes[timeSlot]) && travelTimes[..] == old(travelTimes[..])
      ensures old(travelTimes[timeSlot]) < 0.0 ==>
                ttime == link.length / freespeed && travelTimes[..] == old(travelTimes[..])[timeSlot := ttime]
    {
      ttime := travelTimes[timeSlot];
      if ttime >= 0.0 {
        return;
      }
      var freespeedTime := link.length / freespeed;
      travelTimes[timeSlot] := freespeedTime;
      ttime := freespeedTime;
    }
  }
}
