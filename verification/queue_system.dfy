/** The post-office queue system as the program keeps it: a `Customer` object
    whose counter, departure and wait are filled in when it is processed, and
    a `PostOfficeQueueSystem` object holding the counter count, the running
    aggregates and the `queue_records` table. */
module QueueSystem {
  import opened RandomModel
  import opened QueueSpec
  import opened QueueProperties

  datatype Option<T> = None | Some(value: T)

  /** One arrival. Times are seconds after 08:00. */
  class Customer {
    var customerId: int
    var purpose: string
    var estimatedTime: int
    var counter: Option<int>
    var queueInTime: real
    var queueOutTime: Option<real>
    var waitTime: real

    /** A new customer: the estimate is drawn from the purpose's range, the
        counter and the departure are unset and the wait is 0. */
    constructor (customerId: int, purpose: string, queueInTime: real, estimatePick: nat)
      ensures this.customerId == customerId && this.purpose == purpose
      ensures this.queueInTime == queueInTime
      ensures estimatedTime == EstimatedTime(purpose, estimatePick)
      ensures counter == None && queueOutTime == None && waitTime == 0.0
    {
      this.customerId := customerId;
      this.purpose := purpose;
      estimatedTime := EstimatedTime(purpose, estimatePick);
      counter := None;
      this.queueInTime := queueInTime;
      queueOutTime := None;
      waitTime := 0.0;
    }
  }

  class PostOfficeQueueSystem {
    var counters: int
    var customersServed: int
    var totalWaitTime: real
    /** The `queue_records` table, oldest row first. */
    var records: seq<Record>

    /** The served count is the number of rows, the total wait is the sum of
        their waits, and every row is well formed for this counter count. */
    ghost predicate Valid()
      reads this
    {
      counters >= 1 &&
      customersServed == |records| &&
      totalWaitTime == SumWaits(records) &&
      forall r :: r in records ==> WellFormed(r, counters)
    }

    /** A fresh system: no customer served, no wait, an empty table. */
    constructor (counters: int)
      requires counters >= 1
      ensures Valid()
      ensures this.counters == counters
      ensures customersServed == 0 && totalWaitTime == 0.0 && records == []
    {
      this.counters := counters;
      customersServed := 0;
      totalWaitTime := 0.0;
      new;
      CreateDb();
    }

    /** `create_db`: drops and recreates the table, so it is empty. */
    method CreateDb()
      modifies this
      ensures records == []
      ensures counters == old(counters)
      ensures customersServed == old(customersServed)
      ensures totalWaitTime == old(totalWaitTime)
    {
      records := [];
    }

    /** `add_customer`: appends the customer's row to the table. */
    method AddCustomer(customer: Customer)
      requires customer.counter.Some? && customer.queueOutTime.Some?
      modifies this
      ensures records == old(records) +
        [Record(customer.customerId, customer.purpose, customer.estimatedTime, customer.waitTime,
                customer.counter.value, customer.queueInTime, customer.queueOutTime.value)]
      ensures counters == old(counters)
      ensures customersServed == old(customersServed)
      ensures totalWaitTime == old(totalWaitTime)
    {
      records := records +
        [Record(customer.customerId, customer.purpose, customer.estimatedTime, customer.waitTime,
                customer.counter.value, customer.queueInTime, customer.queueOutTime.value)];
    }

    /** `process_queue(total_customers)`: serves `totalCustomers` arrivals,
        the generator's choices for customer k being `draws[k]`. The rows
        appended are exactly those of `Simulate`, and the aggregates grow by
        their count and by their total wait. */
    method ProcessQueue(totalCustomers: nat, draws: seq<CustomerDraws>)
      requires Valid()
      requires |draws| == totalCustomers && ValidDraws(draws)
      modifies this
      ensures Valid()
      ensures counters == old(counters)
      ensures records == old(records) + Simulate(counters, draws)
      ensures customersServed == old(customersServed) + totalCustomers
      ensures totalWaitTime == old(totalWaitTime) + SumWaits(Simulate(counters, draws))
    {
      var currentTime := 0.0;
      var counterNo := 1;
      ghost var run := Simulate(counters, draws);
      DivModOfSmall(0, counters);

      for i := 0 to totalCustomers
        invariant counters == old(counters)
        invariant counterNo == CounterFor(i, counters)
        invariant currentTime == ArrivalTime(draws, i)
        invariant records == old(records) + run[..i]
        invariant customersServed == old(customersServed) + i
        invariant totalWaitTime == old(totalWaitTime) + SumWaits(run[..i])
      {
        var d := draws[i];
        var purpose := Choice(Purposes, d.purposePick);
        var customer := new Customer(RandInt(MinCustomerId, MaxCustomerId, d.idPick),
                                     purpose, currentTime, d.estimatePick);

        customer.counter := Some(counterNo);
        var queueOut := QueueOutTime(customer.queueInTime, MinWait, MaxWait, d.waitMinutes);
        customer.queueOutTime := Some(queueOut);
        customer.waitTime := (queueOut - customer.queueInTime) / 60.0;
        totalWaitTime := totalWaitTime + customer.waitTime;
        customersServed := customersServed + 1;

        RecordForIs(counters, draws, i, customer.customerId, customer.purpose, customer.estimatedTime,
                    customer.waitTime, counterNo, customer.queueInTime, queueOut);
        ExtendPrefix(old(records), run, i);
        AddCustomer(customer);

        RoundRobinStep(i, counters);
        counterNo := (counterNo % counters) + 1;
        currentTime := currentTime + d.gapSeconds;
      }
      assert run[..totalCustomers] == run;
      SumWaitsAppend(old(records), run);
      SimulateWellFormed(counters, draws);
    }
  }

  /** `simulate_post_office(counters, total_customers)` up to the chart: a
      fresh system serves the arrivals; the table then holds exactly the rows
      of `Simulate`, the served count is the number of arrivals and the total
      wait is the sum of the rows' waits, between 10 and 30 minutes each. */
  method SimulatePostOffice(counters: int, totalCustomers: nat, draws: seq<CustomerDraws>)
    returns (records: seq<Record>, customersServed: int, totalWaitTime: real)
    requires counters >= 1
    requires |draws| == totalCustomers && ValidDraws(draws)
    ensures records == Simulate(counters, draws)
    ensures customersServed == totalCustomers == |records|
    ensures totalWaitTime == SumWaits(records)
    ensures MinWait * totalCustomers as real <= totalWaitTime <= MaxWait * totalCustomers as real
  {
    var postOffice := new PostOfficeQueueSystem(counters);
    postOffice.ProcessQueue(totalCustomers, draws);
    records, customersServed, totalWaitTime :=
      postOffice.records, postOffice.customersServed, postOffice.totalWaitTime;
    SumWaitsBounds(records, counters);
  }
}
