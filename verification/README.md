# Post-office queue simulation, modelled in Dafny

The program simulates a post office queue. A `PostOfficeQueueSystem` with a
given number of counters processes a batch of customers. The first customer
arrives at 08:00, and each next one arrives between 30 and 120 seconds after
the previous one. There is no closing time: a run of more than 1200 customers
has arrivals at or after 18:00, and longer runs go on past midnight into
later days.
Each customer picks one of four purposes and gets a service estimate drawn
from that purpose's range. Counters are assigned round-robin. Each customer
departs 10 to 30 minutes after arriving. The system keeps two running totals,
the number of customers served and the total wait in minutes. It stores one
row per customer in a `queue_records` table.

The model has four modules:

- `RandomModel` (`random_model.dfy`): the two integer draws the program
  takes from Python's `random` module (`randint` and `choice`). The
  generator's choice is an explicit parameter. Lemmas show that every value
  the library can return is reachable. The `uniform` draws are supplied as
  the drawn values themselves. `CustomerDraws.Valid` constrains each of them
  to its range.
- `QueueSpec` (`queue_spec.dfy`): the service-time table and the departure
  rule. It also defines the row customer `k` of a run leaves (`RecordFor`)
  and the rows a whole run appends (`Simulate`). `Simulate` is a reference
  definition by index: customer `k` gets counter `k % counters + 1` and
  arrives after the first `k` gaps.
- `QueueProperties` (`queue_properties.dfy`): lemmas about `Simulate`.
  Counters cycle with no skip, and each counter is used floor(N/C) or
  ceil(N/C) times. Arrivals start at 08:00 and strictly increase. Wait totals
  add up and stay within their bounds.
- `QueueSystem` (`queue_system.dfy`): the program's two classes. `Customer`
  has fields that `process_queue` fills in place. `PostOfficeQueueSystem` has
  the counter count, the two aggregates and the table (a `seq<Record>` field).
  `ProcessQueue` runs the program's loop, with its cursor update
  `counter_no = counter_no % counters + 1` and its running clock. It is proved
  to append exactly `Simulate(counters, draws)` and to keep the class
  invariant: the served count equals the number of rows, the total wait
  equals the sum of their waits, and every row is well formed.

Times are `real` seconds after 08:00; wait times are `real` minutes.
Each random draw of the program is a field of `CustomerDraws`, one value per
customer:

- the purpose choice and the customer identifier (`runapp.py:75-76`);
- the service estimate (`runapp.py:22-28`);
- the departure window (`runapp.py:90`);
- the gap to the next arrival (`runapp.py:87`).

## Model

| member | source | states |
|---|---|---|
| RandomModel.RandInt | runapp.py:22-28 | `randint(lo, hi)` returns a value in the inclusive range |
| RandomModel.RandIntReaches | runapp.py:22-28 | every value of the inclusive range can be drawn |
| RandomModel.Choice | runapp.py:75 | `choice(purposes)` returns an element of the list |
| RandomModel.ChoiceReaches | runapp.py:75 | every element of the list can be chosen |
| QueueSpec.EstimateRange | runapp.py:20-28 | every purpose's estimate range lies within 1..10 |
| QueueSpec.EstimatedTime | runapp.py:20-28 | the estimate is in 3..10 for Mailing, 1..5 for Payment, 1..10 for Package Pickup, 1..5 for any other purpose |
| QueueSpec.EstimatedTimeExactRange | runapp.py:20-28 | a value can be an estimate for a purpose if and only if it lies in that purpose's range |
| QueueSpec.QueueOutTime | runapp.py:89-92 | departure is arrival plus between `min_wait` and `max_wait` minutes, in either order of the bounds; the wait recovered from the two instants is exactly the drawn wait |
| QueueSpec.DepartureAfterArrival | runapp.py:79-80 | with positive window bounds, departure is strictly after arrival, and the wait in minutes lies between the bounds |
| QueueSpec.ArrivalTime | runapp.py:68-87 | customer k arrives between 30k and 120k seconds after 08:00 |
| QueueSpec.CounterFor | runapp.py:72-86 | the counter of customer k, `k % counters + 1`, lies in 1..counters |
| QueueSpec.WaitMinutes | runapp.py:80 | the wait in minutes is the inverse of the departure rule: arrival plus 60 times the wait is the departure; the wait is positive exactly when departure is after arrival |
| QueueSpec.RecordFor | runapp.py:75-80 | the row of customer k has a counter in 1..counters, stores the drawn wait, and departs that many minutes after its arrival |
| QueueSpec.Simulate | runapp.py:74-87 | a run appends one row per customer, in arrival order |
| QueueSpec.RecordForWellFormed | runapp.py:74-84 | every stored row is well formed: id in 1..20000, a purpose from the four-element list, the estimate in its purpose's range, counter in 1..counters, departure after arrival, wait = (departure - arrival) / 60 minutes, wait in [10, 30] |
| QueueProperties.RoundRobinStep | runapp.py:86 | the cursor update takes the counter of customer k to the counter of customer k + 1, staying in 1..counters |
| QueueProperties.SimulateRoundRobin | runapp.py:72-86 | a run has one row per customer; the first gets counter 1, customer k gets `k % counters + 1`, and each next counter is the cursor update of the previous one |
| QueueProperties.CounterBalance | runapp.py:72-86 | over N customers and C counters, counter c is used N / C times plus one when c <= N % C, so between floor(N/C) and ceil(N/C) times |
| QueueProperties.CountCyclic | runapp.py:72-86 | any rows whose counters follow the cyclic order from counter 1 use counter c N / C times, plus one when c <= N % C |
| QueueProperties.ArrivalsIncrease | runapp.py:68-87 | the first arrival is at 08:00, consecutive arrivals are 30 to 120 seconds apart, and arrival times strictly increase along the rows |
| QueueProperties.ArrivalTimeGrows | runapp.py:87 | arrival j is at least 30 (j - i) seconds after arrival i |
| QueueProperties.ArrivalsPassClosing | runapp.py:69-87 | there is no closing time: with more than 1200 customers, customer 1200 arrives at or after 18:00 |
| QueueProperties.SimulateWellFormed | runapp.py:74-84 | every row a run appends is well formed |
| QueueProperties.SimulateWaits | runapp.py:79-80 | each row of a run stores the wait drawn for its customer and departs that many minutes after it arrives |
| QueueProperties.ExtendPrefix | runapp.py:81-84 | appending row i to a table holding the first i rows gives the first i + 1 rows, and adds that row's wait to the total |
| QueueProperties.SumWaitsAddRow | runapp.py:81-84 | appending a row adds exactly its wait to the total wait |
| QueueProperties.SumWaitsAppend | runapp.py:81 | the total wait of rows placed one after another is the sum of their totals |
| QueueProperties.SumWaitsBounds | runapp.py:79-81 | well-formed rows have a total wait between 10 and 30 minutes per row |
| QueueProperties.CustomerIdsMayRepeat | runapp.py:76 | two customers of one run can carry the same identifier |
| QueueSystem.Customer.constructor | runapp.py:11-18 | a new customer keeps the given id, purpose and arrival, has the estimate `get_estimated_time` draws for its purpose, no counter, no departure and wait 0 |
| QueueSystem.PostOfficeQueueSystem.constructor | runapp.py:31-35 | a new system keeps the counter count, has served nobody, has total wait 0 and an empty table, and satisfies the class invariant |
| QueueSystem.PostOfficeQueueSystem.CreateDb | runapp.py:37-51 | the table is emptied; nothing else changes |
| QueueSystem.PostOfficeQueueSystem.AddCustomer | runapp.py:53-64 | exactly the customer's row is appended (id, purpose, estimate, wait, counter, both times); nothing else changes |
| QueueSystem.PostOfficeQueueSystem.ProcessQueue | runapp.py:66-87 | the rows appended are exactly `Simulate(counters, draws)` in arrival order; the served count grows by N; the total wait grows by the sum of the new rows' waits; the class invariant is kept |
| QueueSystem.SimulatePostOffice | runapp.py:108-110 | a fresh system's table holds exactly the run's rows; served count = N = number of rows; total wait = sum of the row waits, between 10N and 30N minutes |

## Left out

- The Streamlit interface (`runapp.py:115-124`) is left out because it is presentation only. Its sliders bound the counter count to 1..10 and the customer count to 1000..20000.
- `visualize_data` (`runapp.py:95-105`) is left out. It resamples the table with pandas and draws a chart.
- The SQLite layer is left out: the connection, the DDL and the `INSERT` (`runapp.py:37-64`). The table is the `records` field. Row times are kept as seconds after 08:00. The model does not produce the `YYYY-MM-DD HH:MM:SS` text, which drops fractions of a second, and it does not model the calendar date from `datetime.today()`.
- The pacing `time.sleep` and its `uniform(0.05, 0.15)` jitter (`runapp.py:85`) are left out. They delay the run and do not change any computed value.
- IEEE floating point is left out: `uniform`, `timedelta` (rounded to microseconds) and `total_seconds() / 60`. The model uses exact reals, so in it the stored wait equals the drawn window value exactly. The `uniform` draws are inputs in their closed ranges; how the library computes them is not modelled.
- QueueSystem.PostOfficeQueueSystem.constructor: requires at least one counter. The program accepts any value. With 0 counters, `process_queue` stores the first row and then fails with a division by zero at `runapp.py:86`. With a negative count, Python's floor modulo yields counter numbers of 1 or less. The interface never passes such values.
- QueueSystem.PostOfficeQueueSystem.ProcessQueue: the customer count is a `nat`. Python's `range` would run zero times for a negative count.
- QueueSystem.PostOfficeQueueSystem.AddCustomer: requires the customer's counter and departure to be set. The program would store a NULL counter for an unset counter. For an unset departure it raises AttributeError on `None.strftime` at `runapp.py:62`. It only calls `add_customer` after setting both.
- `end_time` (`runapp.py:69`) is computed but never read. There is no end-of-day cutoff, so every customer is served whatever their departure time.
- `create_db` opens `self.db_name`, which `__init__` never assigns. As written, every `PostOfficeQueueSystem(...)` raises AttributeError at `runapp.py:38` before `process_queue` can run. The model describes the program with that attribute assigned.
- The SQLite table is one file shared by every instance (`add_customer` uses a fixed file name), and building a second system drops the first one's rows. The model gives each object its own `records` field, so it does not capture that sharing.
