/** What one run of the post-office simulation produces, as values: the
    service-time table, the departure rule, the record a processed customer
    leaves in the `queue_records` table, and the whole sequence of records a
    run appends. Times are seconds after the 08:00 opening; wait times are
    minutes. */
module QueueSpec {
  import opened RandomModel

  /** The purposes an arrival is drawn from. */
  const Purposes: seq<string> := ["Mailing", "Payment", "Package Pickup", "Inquiry"]

  /** Customer identifiers are drawn from this inclusive range and may repeat. */
  const MinCustomerId: int := 1
  const MaxCustomerId: int := 20000

  /** The departure window passed to `get_random_queue_out_time`, in minutes. */
  const MinWait: real := 10.0
  const MaxWait: real := 30.0

  /** The gap between two consecutive arrivals, in seconds. */
  const MinGap: real := 30.0
  const MaxGap: real := 120.0

  /** An inclusive integer range. */
  datatype Range = Range(lo: int, hi: int) {
    predicate Contains(x: int) { lo <= x <= hi }
  }

  /** The range `get_estimated_time` draws from: Mailing 3..10, Payment 1..5,
      Package Pickup 1..10, anything else 1..5. */
  function EstimateRange(purpose: string): (r: Range)
    ensures 1 <= r.lo <= r.hi <= 10
  {
    if purpose == "Mailing" then Range(3, 10)
    else if purpose == "Payment" then Range(1, 5)
    else if purpose == "Package Pickup" then Range(1, 10)
    else Range(1, 5)
  }

  /** `Customer.get_estimated_time`, with the generator's choice `pick`. */
  function EstimatedTime(purpose: string, pick: nat): (t: int)
    ensures purpose == "Mailing" ==> 3 <= t <= 10
    ensures purpose == "Payment" ==> 1 <= t <= 5
    ensures purpose == "Package Pickup" ==> 1 <= t <= 10
    ensures purpose !in ["Mailing", "Payment", "Package Pickup"] ==> 1 <= t <= 5
  {
    var r := EstimateRange(purpose);
    RandInt(r.lo, r.hi, pick)
  }

  /** Every value of a purpose's range is an estimate that can be drawn, and
      no other value is. */
  lemma EstimatedTimeExactRange(purpose: string, t: int)
    ensures EstimateRange(purpose).Contains(t) <==>
            exists pick: nat :: EstimatedTime(purpose, pick) == t
  {
    var r := EstimateRange(purpose);
    if r.Contains(t) {
      RandIntReaches(r.lo, r.hi, t);
      assert EstimatedTime(purpose, t - r.lo) == t;
    }
  }

  /** `random.uniform(a, b)` returns a value between a and b, whichever
      bound is larger. */
  predicate Between(x: real, a: real, b: real) {
    (a <= x <= b) || (b <= x <= a)
  }

  /** `get_random_queue_out_time`: the arrival instant plus `waitMinutes`,
      the value drawn uniformly between `minWait` and `maxWait` minutes. The
      wait recovered from the two instants is the drawn wait. */
  function QueueOutTime(queueInTime: real, minWait: real, maxWait: real, waitMinutes: real): (out: real)
    requires Between(waitMinutes, minWait, maxWait)
    ensures WaitMinutes(queueInTime, out) == waitMinutes
    ensures minWait <= maxWait ==>
      queueInTime + minWait * 60.0 <= out <= queueInTime + maxWait * 60.0
    ensures maxWait <= minWait ==>
      queueInTime + maxWait * 60.0 <= out <= queueInTime + minWait * 60.0
  {
    queueInTime + waitMinutes * 60.0
  }

  /** With a window of positive bounds, departure is strictly after arrival,
      and the wait in minutes lies inside the window. */
  lemma DepartureAfterArrival(queueInTime: real, minWait: real, maxWait: real, waitMinutes: real)
    requires Between(waitMinutes, minWait, maxWait)
    requires 0.0 < minWait && 0.0 < maxWait
    ensures QueueOutTime(queueInTime, minWait, maxWait, waitMinutes) > queueInTime
    ensures Between(WaitMinutes(queueInTime, QueueOutTime(queueInTime, minWait, maxWait, waitMinutes)), minWait, maxWait)
  {
  }

  /** The wait in minutes between two instants given in seconds. */
  function WaitMinutes(queueInTime: real, queueOutTime: real): (w: real)
    ensures queueInTime + w * 60.0 == queueOutTime
    ensures queueInTime < queueOutTime <==> w > 0.0
  {
    (queueOutTime - queueInTime) / 60.0
  }

  /** The generator's choices for one customer of a run: the purpose, the
      identifier and the service estimate as raw choices, the wait (minutes)
      and the gap to the next arrival (seconds) as the drawn values. */
  datatype CustomerDraws = CustomerDraws(
    purposePick: nat,
    idPick: nat,
    estimatePick: nat,
    waitMinutes: real,
    gapSeconds: real)
  {
    /** What `uniform(10, 30)` and `uniform(30, 120)` can return. */
    predicate Valid() {
      MinWait <= waitMinutes <= MaxWait && MinGap <= gapSeconds <= MaxGap
    }
  }

  predicate ValidDraws(draws: seq<CustomerDraws>) {
    forall i :: 0 <= i < |draws| ==> draws[i].Valid()
  }

  /** One row of the `queue_records` table. */
  datatype Record = Record(
    customerId: int,
    purpose: string,
    estimatedTime: int,
    waitTime: real,
    counterNo: int,
    queueInTime: real,
    queueOutTime: real)

  /** What every row a run stores satisfies, for a system with `counters`
      counters. */
  predicate WellFormed(r: Record, counters: int) {
    MinCustomerId <= r.customerId <= MaxCustomerId &&
    r.purpose in Purposes &&
    EstimateRange(r.purpose).Contains(r.estimatedTime) &&
    1 <= r.counterNo <= counters &&
    r.queueInTime < r.queueOutTime &&
    r.waitTime == WaitMinutes(r.queueInTime, r.queueOutTime) &&
    MinWait <= r.waitTime <= MaxWait
  }

  /** The arrival instant of customer `k` (counting from 0): the opening
      instant plus the first `k` gaps. */
  function ArrivalTime(draws: seq<CustomerDraws>, k: nat): (t: real)
    requires k <= |draws| && ValidDraws(draws)
    ensures MinGap * k as real <= t <= MaxGap * k as real
  {
    if k == 0 then 0.0 else ArrivalTime(draws, k - 1) + draws[k - 1].gapSeconds
  }

  /** The counter a run assigns to customer `k` (counting from 0). */
  function CounterFor(k: nat, counters: int): (c: int)
    requires counters >= 1
    ensures 1 <= c <= counters
  {
    k % counters + 1
  }

  /** The row customer `k` of a run leaves. */
  function RecordFor(counters: int, draws: seq<CustomerDraws>, k: nat): (r: Record)
    requires counters >= 1 && ValidDraws(draws) && k < |draws|
    ensures 1 <= r.counterNo <= counters
    ensures r.waitTime == draws[k].waitMinutes
    ensures r.queueOutTime == r.queueInTime + r.waitTime * 60.0
  {
    var d := draws[k];
    var purpose := Choice(Purposes, d.purposePick);
    var queueIn := ArrivalTime(draws, k);
    var queueOut := QueueOutTime(queueIn, MinWait, MaxWait, d.waitMinutes);
    Record(
      RandInt(MinCustomerId, MaxCustomerId, d.idPick),
      purpose,
      EstimatedTime(purpose, d.estimatePick),
      WaitMinutes(queueIn, queueOut),
      CounterFor(k, counters),
      queueIn,
      queueOut)
  }

  /** Every row a run stores is well formed. */
  lemma RecordForWellFormed(counters: int, draws: seq<CustomerDraws>, k: nat)
    requires counters >= 1 && ValidDraws(draws) && k < |draws|
    ensures WellFormed(RecordFor(counters, draws, k), counters)
  {
    var d := draws[k];
    DepartureAfterArrival(ArrivalTime(draws, k), MinWait, MaxWait, d.waitMinutes);
  }

  /** Row `k` is the record built from the values a run computes for
      customer `k`. */
  lemma RecordForIs(counters: int, draws: seq<CustomerDraws>, k: nat, customerId: int, purpose: string,
                    estimatedTime: int, waitTime: real, counterNo: int, queueIn: real, queueOut: real)
    requires counters >= 1 && ValidDraws(draws) && k < |draws|
    requires customerId == RandInt(MinCustomerId, MaxCustomerId, draws[k].idPick)
    requires purpose == Choice(Purposes, draws[k].purposePick)
    requires estimatedTime == EstimatedTime(purpose, draws[k].estimatePick)
    requires queueIn == ArrivalTime(draws, k) && counterNo == CounterFor(k, counters)
    requires queueOut == QueueOutTime(queueIn, MinWait, MaxWait, draws[k].waitMinutes)
    requires waitTime == (queueOut - queueIn) / 60.0
    ensures RecordFor(counters, draws, k) ==
      Record(customerId, purpose, estimatedTime, waitTime, counterNo, queueIn, queueOut)
  {
  }

  /** The rows a run over `draws` appends, in order of arrival. */
  function Simulate(counters: int, draws: seq<CustomerDraws>): (rs: seq<Record>)
    requires counters >= 1 && ValidDraws(draws)
    ensures |rs| == |draws|
  {
    seq(|draws|, k requires 0 <= k < |draws| => RecordFor(counters, draws, k))
  }

  /** The sum of the wait times of a sequence of rows. */
  function SumWaits(rs: seq<Record>): (total: real)
  {
    if rs == [] then 0.0 else SumWaits(rs[..|rs| - 1]) + rs[|rs| - 1].waitTime
  }

  /** The number of rows served at counter `c`. */
  function CountAt(rs: seq<Record>, c: int): (n: nat)
    ensures n <= |rs|
  {
    if rs == [] then 0
    else CountAt(rs[..|rs| - 1], c) + (if rs[|rs| - 1].counterNo == c then 1 else 0)
  }
}
