/** What a run of the simulation guarantees about the rows it appends:
    round-robin counter assignment, increasing arrivals, departures after
    arrivals, and the aggregates the system keeps. */
module QueueProperties {
  import opened RandomModel
  import opened QueueSpec

  // Round-robin counter assignment.

  /** The cursor update `counter_no = (counter_no % counters) + 1` moves the
      counter of customer `k` to the counter of customer `k + 1`. */
  lemma RoundRobinStep(k: nat, counters: int)
    requires counters >= 1
    ensures 1 <= CounterFor(k, counters) <= counters
    ensures CounterFor(k, counters) % counters + 1 == CounterFor(k + 1, counters)
  {
    DivModStep(k, counters);
    var c := CounterFor(k, counters);
    if c < counters {
      DivModUnique(c, counters, 0, c);
    } else {
      DivModUnique(c, counters, 1, 0);
    }
  }

  /** The first customer of a run goes to counter 1, every customer's counter
      is in 1..counters, and each next counter is the cursor update of the
      previous one: the counters cycle 1, 2, ..., counters, 1, ... with no
      skip. */
  lemma SimulateRoundRobin(counters: int, draws: seq<CustomerDraws>)
    requires counters >= 1 && ValidDraws(draws)
    ensures |Simulate(counters, draws)| == |draws|
    ensures |draws| > 0 ==> Simulate(counters, draws)[0].counterNo == 1
    ensures forall k :: 0 <= k < |draws| ==>
      Simulate(counters, draws)[k].counterNo == k % counters + 1
    ensures forall k :: 0 <= k < |draws| - 1 ==>
      Simulate(counters, draws)[k + 1].counterNo == Simulate(counters, draws)[k].counterNo % counters + 1
  {
    var rs := Simulate(counters, draws);
    if |draws| > 0 {
      DivModOfSmall(0, counters);
    }
    forall k | 0 <= k < |draws| - 1
      ensures rs[k + 1].counterNo == rs[k].counterNo % counters + 1
    {
      RoundRobinStep(k, counters);
    }
  }

  /** Over a run of N customers with C counters, counter c is used N / C
      times, once more when c <= N % C: every counter is used floor(N / C) or
      ceil(N / C) times. */
  lemma CounterBalance(counters: int, draws: seq<CustomerDraws>, c: int)
    requires counters >= 1 && ValidDraws(draws) && 1 <= c <= counters
    ensures CountAt(Simulate(counters, draws), c) ==
      |draws| / counters + (if c <= |draws| % counters then 1 else 0)
    ensures |draws| / counters <= CountAt(Simulate(counters, draws), c)
            <= (|draws| + counters - 1) / counters
  {
    SimulateRoundRobin(counters, draws);
    CountCyclic(Simulate(counters, draws), counters, c);
    CeilingBound(|draws|, counters, c);
  }

  lemma CeilingBound(n: nat, m: int, c: int)
    requires m >= 1 && 1 <= c <= m
    ensures n / m + (if c <= n % m then 1 else 0) <= (n + m - 1) / m
  {
    var q, r := n / m, n % m;
    if r == 0 {
      DivModUnique(n + m - 1, m, q, m - 1);
    } else {
      DivModUnique(n + m - 1, m, q + 1, r - 1);
    }
  }

  /** Rows whose counters follow the round-robin order from counter 1 use
      counter c N / C times, plus one when c <= N % C. */
  lemma {:induction false} CountCyclic(rs: seq<Record>, counters: int, c: int)
    requires counters >= 1 && 1 <= c <= counters
    requires forall k :: 0 <= k < |rs| ==> rs[k].counterNo == k % counters + 1
    ensures CountAt(rs, c) == |rs| / counters + (if c <= |rs| % counters then 1 else 0)
  {
    if rs == [] {
      DivModUnique(0, counters, 0, 0);
    } else {
      var m := |rs| - 1;
      CountCyclic(rs[..m], counters, c);
      DivModStep(m, counters);
    }
  }

  // Arrivals.

  /** The first customer arrives at the 08:00 opening, each next customer
      between 30 and 120 seconds after the previous one, so arrivals strictly
      increase along the rows of a run. */
  lemma ArrivalsIncrease(counters: int, draws: seq<CustomerDraws>)
    requires counters >= 1 && ValidDraws(draws)
    ensures |draws| > 0 ==> Simulate(counters, draws)[0].queueInTime == 0.0
    ensures forall k :: 0 <= k < |draws| - 1 ==>
      MinGap <= Simulate(counters, draws)[k + 1].queueInTime - Simulate(counters, draws)[k].queueInTime <= MaxGap
    ensures forall i, j :: 0 <= i < j < |draws| ==>
      Simulate(counters, draws)[i].queueInTime < Simulate(counters, draws)[j].queueInTime
  {
    var rs := Simulate(counters, draws);
    forall i, j | 0 <= i < j < |draws|
      ensures rs[i].queueInTime < rs[j].queueInTime
    {
      ArrivalTimeGrows(draws, i, j);
    }
  }

  /** There is no closing time: with C counters and more than 1200
      customers, customer 1200 arrives at or after 18:00, ten hours after
      the opening. */
  lemma ArrivalsPassClosing(counters: int, draws: seq<CustomerDraws>)
    requires counters >= 1 && ValidDraws(draws) && |draws| > 1200
    ensures Simulate(counters, draws)[1200].queueInTime >= 10.0 * 3600.0
  {
    assert Simulate(counters, draws)[1200].queueInTime == ArrivalTime(draws, 1200);
  }

  /** Between arrivals i and j lie j - i gaps of at least 30 seconds each. */
  lemma {:induction false} ArrivalTimeGrows(draws: seq<CustomerDraws>, i: nat, j: nat)
    requires i <= j <= |draws| && ValidDraws(draws)
    ensures ArrivalTime(draws, i) + MinGap * (j - i) as real <= ArrivalTime(draws, j)
  {
    if i < j {
      ArrivalTimeGrows(draws, i, j - 1);
    }
  }

  // Aggregates.

  /** The total wait of two sequences of rows placed one after the other. */
  lemma {:induction false} SumWaitsAppend(a: seq<Record>, b: seq<Record>)
    ensures SumWaits(a + b) == SumWaits(a) + SumWaits(b)
  {
    if b != [] {
      var b' := b[..|b| - 1];
      SumWaitsAppend(a, b');
      assert (a + b)[..|a + b| - 1] == a + b';
    } else {
      assert a + b == a;
    }
  }

  /** Each row of a run stores the wait drawn for its customer, and departs
      that many minutes after it arrives. */
  lemma SimulateWaits(counters: int, draws: seq<CustomerDraws>)
    requires counters >= 1 && ValidDraws(draws)
    ensures forall k :: 0 <= k < |draws| ==>
      Simulate(counters, draws)[k].waitTime == draws[k].waitMinutes
    ensures forall k :: 0 <= k < |draws| ==>
      Simulate(counters, draws)[k].queueOutTime ==
        Simulate(counters, draws)[k].queueInTime + draws[k].waitMinutes * 60.0
  {
  }

  /** Every row a run appends is well formed. */
  lemma SimulateWellFormed(counters: int, draws: seq<CustomerDraws>)
    requires counters >= 1 && ValidDraws(draws)
    ensures forall r :: r in Simulate(counters, draws) ==> WellFormed(r, counters)
  {
    forall k | 0 <= k < |draws| {
      RecordForWellFormed(counters, draws, k);
    }
  }

  /** The total wait grows by exactly the wait of an appended row. */
  lemma SumWaitsAddRow(rs: seq<Record>, r: Record)
    ensures SumWaits(rs + [r]) == SumWaits(rs) + r.waitTime
  {
    assert (rs + [r])[..|rs|] == rs;
  }

  /** Appending row `i` of a run to a table holding `base` and the first `i`
      rows gives `base` and the first `i + 1` rows, and adds that row's wait to
      the total. */
  lemma ExtendPrefix(base: seq<Record>, run: seq<Record>, i: nat)
    requires i < |run|
    ensures base + run[..i] + [run[i]] == base + run[..i + 1]
    ensures SumWaits(run[..i + 1]) == SumWaits(run[..i]) + run[i].waitTime
  {
    TakeOneMore(run, i);
    SumWaitsAddRow(run[..i], run[i]);
  }

  /** Every stored wait lies in [10, 30] minutes, so a run of N customers
      adds between 10 N and 30 N minutes to the total. */
  lemma {:induction false} SumWaitsBounds(rs: seq<Record>, counters: int)
    requires forall r :: r in rs ==> WellFormed(r, counters)
    ensures MinWait * |rs| as real <= SumWaits(rs) <= MaxWait * |rs| as real
  {
    if rs != [] {
      var rs' := rs[..|rs| - 1];
      assert forall r :: r in rs' ==> r in rs;
      SumWaitsBounds(rs', counters);
      assert WellFormed(rs[|rs| - 1], counters);
    }
  }

  /** Identifiers are drawn independently: two customers of one run can carry
      the same identifier. */
  lemma CustomerIdsMayRepeat(counters: int, d: CustomerDraws)
    requires counters >= 1 && d.Valid()
    ensures Simulate(counters, [d, d])[0].customerId == Simulate(counters, [d, d])[1].customerId
  {
  }

  // Helpers on sequences and integer division.

  lemma TakeOneMore<T>(s: seq<T>, i: nat)
    requires i < |s|
    ensures s[..i + 1] == s[..i] + [s[i]]
  {
  }


  lemma DivModOfSmall(x: nat, n: int)
    requires x < n
    ensures x % n == x
  {
  }

  lemma DivModUnique(n: int, m: int, q: int, r: int)
    requires m >= 1 && 0 <= r < m && n == q * m + r
    ensures n / m == q && n % m == r
  {
    var q0, r0 := n / m, n % m;
    assert (q - q0) * m == r0 - r;
    ZeroMultiple(q - q0, m);
  }

  lemma ZeroMultiple(k: int, m: int)
    requires m >= 1 && -m < k * m < m
    ensures k == 0
  {
    MultipleBounds(k, m);
  }

  lemma MultipleBounds(k: int, m: int)
    requires m >= 1
    ensures k >= 1 ==> k * m >= m
    ensures k <= -1 ==> k * m <= -m
  {
  }

  lemma DivModStep(n: nat, m: int)
    requires m >= 1
    ensures n % m + 1 < m ==> (n + 1) / m == n / m && (n + 1) % m == n % m + 1
    ensures n % m + 1 == m ==> (n + 1) / m == n / m + 1 && (n + 1) % m == 0
  {
    var q, r := n / m, n % m;
    if r + 1 < m {
      DivModUnique(n + 1, m, q, r + 1);
    } else {
      DivModUnique(n + 1, m, q + 1, 0);
    }
  }
}
