/**
 * The request statistics a Modbus slave keeps (`SlaveStatistics` in
 * `modbus_slave.rs`): counts per function code and a running
 * minimum, maximum and sum of the response times.
 */
module SlaveStats {
  import opened Bytes

  function Count(m: map<uint8, nat>, fc: uint8): nat {
    if fc in m then m[fc] else 0
  }

  function Sum(s: seq<nat>): nat {
    if s == [] then 0 else Sum(s[..|s| - 1]) + s[|s| - 1]
  }

  function Min(s: seq<nat>): nat
    requires |s| > 0
  {
    if |s| == 1 then s[0]
    else
      var m := Min(s[..|s| - 1]);
      if s[|s| - 1] < m then s[|s| - 1] else m
  }

  function Max(s: seq<nat>): nat
    requires |s| > 0
  {
    if |s| == 1 then s[0]
    else
      var m := Max(s[..|s| - 1]);
      if s[|s| - 1] > m then s[|s| - 1] else m
  }

  /** `Min` and `Max` bound every element, and each is one of the elements. */
  lemma {:induction false} MinMaxBound(s: seq<nat>)
    requires |s| > 0
    ensures forall i :: 0 <= i < |s| ==> Min(s) <= s[i] <= Max(s)
    ensures Min(s) in s && Max(s) in s
  {
    if |s| > 1 {
      var init := s[..|s| - 1];
      MinMaxBound(init);
      assert forall i :: 0 <= i < |s| - 1 ==> init[i] == s[i];
      assert forall x :: x in init ==> x in s;
    }
  }

  /** Each function code's request count is its success count plus its error count. */
  predicate CountsBalanced(counts: map<uint8, nat>, successes: map<uint8, nat>, errors: map<uint8, nat>) {
    forall fc: uint8 :: Count(counts, fc) == Count(successes, fc) + Count(errors, fc)
  }

  lemma CountsBalancedAfterRecord(counts: map<uint8, nat>, successes: map<uint8, nat>, errors: map<uint8, nat>,
                                  fc: uint8, success: bool)
    requires CountsBalanced(counts, successes, errors)
    ensures var c := counts[fc := Count(counts, fc) + 1];
            if success then CountsBalanced(c, successes[fc := Count(successes, fc) + 1], errors)
            else CountsBalanced(c, successes, errors[fc := Count(errors, fc) + 1])
  {
  }

  lemma SumAppend(s: seq<nat>, x: nat)
    ensures Sum(s + [x]) == Sum(s) + x
  {
    assert (s + [x])[..|s|] == s;
  }

  lemma MinMaxAppend(s: seq<nat>, x: nat)
    requires |s| > 0
    ensures Min(s + [x]) == (if x < Min(s) then x else Min(s))
    ensures Max(s + [x]) == (if x > Max(s) then x else Max(s))
  {
    assert (s + [x])[..|s|] == s;
  }

  /** The integer fields of `SlaveStatistics`. */
  class SlaveStatistics {
    var totalRequests: nat
    var fcCounts: map<uint8, nat>
    var fcSuccess: map<uint8, nat>
    var fcErrors: map<uint8, nat>
    var responseTimeMinMs: nat
    var responseTimeMaxMs: nat
    var responseTimeSumMs: nat
    var responseTimeCount: nat
    /** Every response time recorded so far, in order. */
    ghost var times: seq<nat>

    /**
     * Every request is counted once in the total, once under its code and
     * once as a success or an error; min, max and sum summarise the recorded
     * response times.
     */
    ghost predicate Valid()
      reads this
    {
      totalRequests == |times| && responseTimeCount == |times| &&
      responseTimeSumMs == Sum(times) &&
      (|times| > 0 ==> responseTimeMinMs == Min(times) && responseTimeMaxMs == Max(times)) &&
      CountsBalanced(fcCounts, fcSuccess, fcErrors)
    }

    /** `SlaveStatistics::default()`. */
    constructor ()
      ensures Valid() && times == []
      ensures totalRequests == 0 && fcCounts == map[] && fcSuccess == map[] && fcErrors == map[]
      ensures responseTimeMinMs == 0 && responseTimeMaxMs == 0 && responseTimeSumMs == 0 && responseTimeCount == 0
    {
      totalRequests, fcCounts, fcSuccess, fcErrors := 0, map[], map[], map[];
      responseTimeMinMs, responseTimeMaxMs, responseTimeSumMs, responseTimeCount := 0, 0, 0, 0;
      times := [];
    }

    /** `record_request`, integer fields only. */
    method RecordRequest(fc: uint8, success: bool, responseTimeMs: nat)
      requires Valid()
      modifies this
      ensures Valid() && times == old(times) + [responseTimeMs]
      ensures totalRequests == old(totalRequests) + 1
      ensures fcCounts == old(fcCounts)[fc := Count(old(fcCounts), fc) + 1]
      ensures success ==> fcSuccess == old(fcSuccess)[fc := Count(old(fcSuccess), fc) + 1] && fcErrors == old(fcErrors)
      ensures !success ==> fcErrors == old(fcErrors)[fc := Count(old(fcErrors), fc) + 1] && fcSuccess == old(fcSuccess)
      ensures responseTimeMinMs <= responseTimeMs <= responseTimeMaxMs
      ensures forall i :: 0 <= i < |times| ==> responseTimeMinMs <= times[i] <= responseTimeMaxMs
    {
      CountRequest(fc, success);
      RecordResponseTime(responseTimeMs);
      MinMaxBound(times);
    }

    /** The counting half of `record_request`: the total and the per-code maps. */
    method CountRequest(fc: uint8, success: bool)
      requires CountsBalanced(fcCounts, fcSuccess, fcErrors)
      modifies this
      ensures CountsBalanced(fcCounts, fcSuccess, fcErrors)
      ensures totalRequests == old(totalRequests) + 1
      ensures fcCounts == old(fcCounts)[fc := Count(old(fcCounts), fc) + 1]
      ensures success ==> fcSuccess == old(fcSuccess)[fc := Count(old(fcSuccess), fc) + 1] && fcErrors == old(fcErrors)
      ensures !success ==> fcErrors == old(fcErrors)[fc := Count(old(fcErrors), fc) + 1] && fcSuccess == old(fcSuccess)
      ensures times == old(times) && responseTimeCount == old(responseTimeCount)
      ensures responseTimeMinMs == old(responseTimeMinMs) && responseTimeMaxMs == old(responseTimeMaxMs)
      ensures responseTimeSumMs == old(responseTimeSumMs)
    {
      CountsBalancedAfterRecord(fcCounts, fcSuccess, fcErrors, fc, success);
      totalRequests := totalRequests + 1;
      fcCounts := fcCounts[fc := Count(fcCounts, fc) + 1];
      if success {
        fcSuccess := fcSuccess[fc := Count(fcSuccess, fc) + 1];
      } else {
        fcErrors := fcErrors[fc := Count(fcErrors, fc) + 1];
      }
    }

    /** The timing half of `record_request`: running minimum, maximum, sum and count. */
    method RecordResponseTime(responseTimeMs: nat)
      requires responseTimeCount == |times| && responseTimeSumMs == Sum(times)
      requires |times| > 0 ==> responseTimeMinMs == Min(times) && responseTimeMaxMs == Max(times)
      modifies this
      ensures times == old(times) + [responseTimeMs]
      ensures responseTimeCount == |times| && responseTimeSumMs == Sum(times)
      ensures responseTimeMinMs == Min(times) && responseTimeMaxMs == Max(times)
      ensures totalRequests == old(totalRequests) && fcCounts == old(fcCounts)
      ensures fcSuccess == old(fcSuccess) && fcErrors == old(fcErrors)
    {
      var newMin, newMax;
      if responseTimeCount == 0 {
        newMin, newMax := responseTimeMs, responseTimeMs;
        assert times + [responseTimeMs] == [responseTimeMs];
      } else {
        MinMaxAppend(times, responseTimeMs);
        newMin := if responseTimeMs < responseTimeMinMs then responseTimeMs else responseTimeMinMs;
        newMax := if responseTimeMs > responseTimeMaxMs then responseTimeMs else responseTimeMaxMs;
      }
      SumAppend(times, responseTimeMs);
      responseTimeMinMs, responseTimeMaxMs := newMin, newMax;
      responseTimeSumMs := responseTimeSumMs + responseTimeMs;
      responseTimeCount := responseTimeCount + 1;
      times := times + [responseTimeMs];
    }
  }

  /** Three requests to FC03 taking 5, 10 and 15 ms, the last one failing. */
  method StatisticsExample() returns (total: nat, count: nat, successes: nat, errors: nat, min: nat, max: nat, sum: nat, n: nat)
    ensures total == 3 && count == 3 && successes == 2 && errors == 1
    ensures min == 5 && max == 15 && sum == 30 && n == 3
  {
    var stats := new SlaveStatistics();
    stats.RecordRequest(0x03, true, 5);
    stats.RecordRequest(0x03, true, 10);
    stats.RecordRequest(0x03, false, 15);
    assert stats.times == [5, 10, 15];
    assert stats.times[..2] == [5, 10] && stats.times[..2][..1] == [5];
    total, count := stats.totalRequests, Count(stats.fcCounts, 0x03);
    successes, errors := Count(stats.fcSuccess, 0x03), Count(stats.fcErrors, 0x03);
    min, max, sum, n := stats.responseTimeMinMs, stats.responseTimeMaxMs, stats.responseTimeSumMs, stats.responseTimeCount;
  }
}
