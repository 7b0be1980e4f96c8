# APS train scheduling and tic-tac-toe, modelled in Dafny

This project models the core of a small repository that holds two programs.

The first is an *advanced planning and scheduling* (APS) system for a train
factory. The factory builds train models (A, B, C). Each model has a recipe,
an ordered list of process steps such as "Preparación", "Torneado" and
"Pintado". Each operation type runs on production lines that need a crew of
workers. The model covers:

- the domain scheduler `SchedulingService.schedule`. It takes orders in
  earliest-due-date order and runs each recipe step on the first active line
  for its operation. It starts the step on the first day that is at or after
  both the end of the order's previous step and the line's next free day, and
  on which every day of the step has enough workers. It looks at most 100 days
  ahead. At the end it tabulates the daily resource usage over the horizon;
- the legacy `SchedulingEngine`, which does the same with its own line match
  (by process name, ignoring activity), its own error path (an unknown model
  aborts the run) and its own built-in validation;
- the independent checker `ValidationService.validate`. It reports late
  deliveries, overloaded days, steps that start before the previous step of
  their order ends, and two processes that overlap on one line;
- the configuration rules of `ConfigurationService`;
- the entities `OperationType`, `ProcessConfig`, `ProductionLine`,
  `ProductionOrder` and `TrainModel`, and the value objects `DateRange`,
  `ProcessDuration` and `WorkerAllocation`;
- the in-memory order and configuration repositories with their seed data;
- the demo scenario that schedules order B1.

The second program is the React tic-tac-toe `App`. The model covers its
winner rule, the move rule, the status line, the move history and the
scoreboard.

Dates are whole days: `Day` is an integer count of days since 1970-01-01, so
day 20463 is 2026-01-10. Adding days is `+` and comparing ISO dates is `<`.
Pure code (the entities, lookups, rules and spec functions) is written as
functions and lemmas. The loops become methods with invariants: the two
schedulers, the validator's and the configuration service's rules, and
the grouping. Objects that mutate their fields become classes: the
repositories, the legacy engine and the game state. Each scheduler returns a
ghost `owner` sequence. For each emitted process it gives the position, in
the sorted order list, of the order that emitted it. This lets the contracts
state which order a process belongs to even when two orders share an id.

The main results:

- `SchedulingService.Schedule` pins down its whole output (`Placed`):
  - every process is well formed: the order's fields, the recipe step, the
    chosen line's id and crew, and end = start + duration;
  - each order emits exactly the recipe steps that have a suitable line, in
    recipe order;
  - every start is the day `findDateWithWorkers` must choose from the
    earliest admissible day;
  - the steps of one order are chained and never overlap;
  - no line is booked twice on one day;
  - nothing starts before the schedule's start date;
  - the completion map holds the last end of each order;
  - every usage entry is the availability, the busy count and the overload flag
    of its day.
- `ScheduleChecks.PlacedIsConflictFree` connects the scheduler to the
  validator. For orders with distinct ids, the scheduler's output never shows
  a sequence violation or a line conflict. So `validate` can only report late
  deliveries and overloads (`ScheduleChecks.OnlyLateOrOverloaded`).
- `SchedulingEngine.SchedulingEngine.ScheduleOrders` gives the same
  placement guarantees for the legacy engine. It fails exactly when an order's
  model is missing.
- `DemoScenario.RunDemo` computes one constructed scenario outright under
  `SchedulingService.schedule`. It combines order B1 and the ten-day worker
  availability table of the demo data with the repository's seeded lines and
  its recipe for model B (1, 3 and 1 days). B1 gets Preparación on
  2026-01-10, Torneado on 2026-01-11 to 2026-01-14 and Pintado on 2026-01-14
  to 2026-01-15. It completes on 2026-01-15 and no day is overloaded.

## Model

| member | source | states |
|---|---|---|
| SchedulingService.SortOrdersByDueDate | aps-train-system/src/domain/services/SchedulingService.ts:145-151 | The result is a permutation of the orders (same length, same multiset) in non-decreasing due date. |
| SchedulingService.SortOrdersByDueDateStable | aps-train-system/src/domain/services/SchedulingService.ts:145-151 | The sort is stable: the orders sharing any one due date keep their input order. |
| Sorting.SortBySpec | aps-train-system/src/domain/services/SchedulingService.ts:145-151 | The stable insertion sort used for every `Array.prototype.sort` by an integer key returns a sorted permutation of its input. |
| Sorting.SortBy | aps-train-system/src/domain/services/SchedulingService.ts:145-151 | The insertion sort by an integer key keeps the length; its order and permutation are stated by `SortBySpec`. |
| Sorting.SortByStable | aps-train-system/src/domain/services/SchedulingService.ts:145-151 | The sort keeps the relative order of the elements with equal keys. |
| Sorting.SortBySortedIdentity | aps-train-system/src/domain/services/ValidationService.ts:122 | Sorting an already sorted sequence changes nothing. |
| Sorting.SortByInjective | aps-train-system/src/domain/services/SchedulingService.ts:145-151 | Sorting keeps a sequence free of repeated ids. |
| Sorting.SortedIntsUnique | aps-train-system/src/domain/services/ConfigurationService.ts:144-150 | Two sorted integer sequences with the same multiset are equal. |
| Sorting.SortByLexSpec | aps-train-system/src/infrastructure/persistence/memory/InMemoryOrderRepository.ts:108-118 | The two-key sort returns a permutation sorted by the first key, with ties broken by the second. |
| Sorting.SortByLex | aps-train-system/src/infrastructure/persistence/memory/InMemoryOrderRepository.ts:108-118 | The two-key insertion sort keeps the length; its order and permutation are stated by `SortByLexSpec`. |
| SchedulingService.FindModel | aps-train-system/src/domain/services/SchedulingService.ts:170-172 | A model that is found has the requested id. |
| SchedulingService.FindModelFirst | aps-train-system/src/domain/services/SchedulingService.ts:170-172 | No model is found iff no model has the id; otherwise the result is the first model with that id. |
| SchedulingService.FindSuitableLine | aps-train-system/src/domain/services/SchedulingService.ts:177-185 | A line that is found is active and can perform the operation. |
| SchedulingService.FindSuitableLineFirst | aps-train-system/src/domain/services/SchedulingService.ts:177-185 | No line is found iff no line is both active and able to perform the operation; otherwise the result is the first such line. |
| SchedulingService.AvailableWorkersFirst | aps-train-system/src/domain/services/SchedulingService.ts:230-236 | The availability of a day is that of its first entry, or 5 workers when the day has no entry. |
| SchedulingService.AvailableWorkers | aps-train-system/src/domain/services/SchedulingService.ts:230-236 | No contract of its own: the count of the first entry for the day, or 5 without one, as `AvailableWorkersFirst` states. |
| SchedulingService.AvailableWorkersFromTable | aps-train-system/src/domain/services/SchedulingService.ts:230-236 | The availability of a day is the default 5 or the count of some entry for that day. |
| SchedulingService.IsDateInRange | aps-train-system/src/domain/services/SchedulingService.ts:275-280 | No contract of its own: the half-open interval `[start, end)`. |
| SchedulingService.IsDateInRangeAsDateRange | aps-train-system/src/domain/services/SchedulingService.ts:275-280 | The half-open `[start, end)` is the inclusive `DateRange` from `start` to the day before `end`, which is valid iff `start < end`. |
| SchedulingService.FindDateWithWorkers | aps-train-system/src/domain/services/SchedulingService.ts:190-225 | The start lies in [earliest, earliest + 100). It is the first day there from which every day of the duration has enough workers. If no day of the 100 fits, it is `earliest` itself. |
| SchedulingService.AssignedOnBounds | aps-train-system/src/domain/services/SchedulingService.ts:241-270 | The busy count of a day that no process covers is 0, and it is never negative when no crew is negative. |
| SchedulingService.AssignedOn | aps-train-system/src/domain/services/SchedulingService.ts:254-259 | No contract of its own: the summed crews of the processes covering the day, as `AssignedOnBounds`, `AssignedOnCovers` and `AssignedOnAppend` state. |
| SchedulingService.AssignedOnAppend | aps-train-system/src/domain/services/SchedulingService.ts:254-259 | The busy count of a day is additive over a split of the process list. |
| SchedulingService.AssignedOnCovers | aps-train-system/src/domain/services/SchedulingService.ts:241-270 | The busy count of a day is at least the crew of any process whose range [start, end] covers it. |
| SchedulingService.UsageOn | aps-train-system/src/domain/services/SchedulingService.ts:250-265 | A day is overloaded iff more workers are busy than available; a day no process covers, with a non-negative availability, is never overloaded. |
| SchedulingService.CalculateResourceUsage | aps-train-system/src/domain/services/SchedulingService.ts:241-270 | One entry per horizon day (none for a non-positive horizon). Entry i is the availability, the busy count and the overload flag (busy > available) of day start + i. |
| SchedulingService.InitializeLineAvailability | aps-train-system/src/domain/services/SchedulingService.ts:156-165 | The keys are exactly the line ids, each mapped to the start date. |
| SchedulingService.MatchedStepsSpec | aps-train-system/src/domain/services/SchedulingService.ts:82-121 | The step indices an order emits are exactly the recipe indices whose operation has a suitable line, in increasing order. |
| SchedulingService.Emit | aps-train-system/src/domain/services/SchedulingService.ts:104-116 | A scheduled process lasts exactly its step's duration. |
| SchedulingService.CompletionsKeys | aps-train-system/src/domain/services/SchedulingService.ts:124 | The completion map has an entry exactly for the ids of the orders whose model was found. |
| SchedulingService.CompletionsValues | aps-train-system/src/domain/services/SchedulingService.ts:124 | For the last order with a given id, the entry is the end of that order's last emitted step, or the start date when no step was emitted. |
| SchedulingService.CompletionsSnoc | aps-train-system/src/domain/services/SchedulingService.ts:107-116 | Emitting a process for an order not yet reached does not change the completions recorded so far. |
| SchedulingService.FoundModelValid | aps-train-system/src/domain/services/SchedulingService.ts:73-77 | Every step of a model that is found is a valid process configuration. |
| SchedulingService.InitialState | aps-train-system/src/domain/services/SchedulingService.ts:63-70 | Before the first order, the empty schedule with all lines free from the start date satisfies the loop invariant. |
| SchedulingService.SkipStep | aps-train-system/src/domain/services/SchedulingService.ts:86-90 | Skipping a step with no suitable line keeps the per-order invariant. |
| SchedulingService.BeginOrder | aps-train-system/src/domain/services/SchedulingService.ts:79 | An order starts with no emitted step and `previousEnd` at the start date. |
| SchedulingService.FinishOrder | aps-train-system/src/domain/services/SchedulingService.ts:124 | Recording `previousEnd` as the completion of the finished order keeps the outer invariant for the next order. |
| SchedulingService.SkipOrder | aps-train-system/src/domain/services/SchedulingService.ts:73-77 | An order whose model is missing is skipped without output, and the outer invariant still holds. |
| SchedulingService.EmitWellFormed | aps-train-system/src/domain/services/SchedulingService.ts:107-116 | An emitted process carries the order's fields, the step's name, index and duration, and the line's id and crew. |
| SchedulingService.EmitStartChosen | aps-train-system/src/domain/services/SchedulingService.ts:97-102 | The start day of a new process is chosen from the later of its order's last end and its line's last end. |
| SchedulingService.EmitChained | aps-train-system/src/domain/services/SchedulingService.ts:104-120 | A process starting at or after its order's previous end keeps the steps of each order chained. |
| SchedulingService.EmitDisjoint | aps-train-system/src/domain/services/SchedulingService.ts:93-120 | A process starting at or after its line's next free day keeps lines free of double bookings. |
| SchedulingService.EmitLinesTracked | aps-train-system/src/domain/services/SchedulingService.ts:119-120 | After `set(line.id, endDate)` the availability map still holds each line's last end. |
| SchedulingService.EmitProgress | aps-train-system/src/domain/services/SchedulingService.ts:104-120 | Emitting a step keeps the earlier orders complete and advances the current order to the next step. |
| SchedulingService.EmitPreserves | aps-train-system/src/domain/services/SchedulingService.ts:83-120 | Placing one step keeps the whole scheduling invariant. |
| SchedulingService.EmitKeepsProgress | aps-train-system/src/domain/services/SchedulingService.ts:83-120 | Placing one step keeps the placement invariant and the recorded completions. |
| SchedulingService.PlaceStep | aps-train-system/src/domain/services/SchedulingService.ts:83-120 | One iteration of the step loop keeps the invariant and advances to the next step. |
| SchedulingService.ScheduleOrder | aps-train-system/src/domain/services/SchedulingService.ts:73-124 | Scheduling one order keeps the invariant and advances to the next order. |
| SchedulingService.AssembleResult | aps-train-system/src/domain/services/SchedulingService.ts:127-139 | The result keeps the processes and the completions, and its usage table is the daily usage over the horizon. |
| SchedulingService.Schedule | aps-train-system/src/domain/services/SchedulingService.ts:61-140 | For the due-date-sorted orders, the output satisfies `Placed`: each process is well formed, has the chosen start and stays within the schedule. Each order's steps are chained, and no line is double-booked. Completions are the last end per order id, and the usage table is exact. |
| EngineSpec.SortByDueDate | aps-train-system/src/engine/SchedulingEngine.ts:25-27 | The legacy engine's sort returns a permutation of the orders in non-decreasing due date. |
| EngineSpec.SortByDueDateStable | aps-train-system/src/engine/SchedulingEngine.ts:25-27 | The sort keeps the input order of orders with the same due date. |
| EngineSpec.GetTrainModel | aps-train-system/src/engine/SchedulingEngine.ts:257-263 | A model that is returned has the requested id. |
| EngineSpec.GetTrainModelFirst | aps-train-system/src/engine/SchedulingEngine.ts:257-263 | The lookup fails (the throw) iff no model has the id; otherwise it returns the first model with that id. |
| EngineSpec.FindProductionLine | aps-train-system/src/engine/SchedulingEngine.ts:107-115 | A line that is found has the process name as its process type. |
| EngineSpec.FindProductionLineFirst | aps-train-system/src/engine/SchedulingEngine.ts:107-115 | No line is found iff no line's process type is the name; otherwise the result is the first such line. |
| EngineSpec.LateFor | aps-train-system/src/engine/SchedulingEngine.ts:216-232 | An order yields one late-delivery error iff it has a completion date after its due date. The error carries the order id and the positive number of days late. |
| EngineSpec.LateConflictsSpec | aps-train-system/src/engine/SchedulingEngine.ts:216-232 | The late conflicts are exactly those of the individual orders, at most one per order. |
| EngineSpec.OverloadFor | aps-train-system/src/engine/SchedulingEngine.ts:235-245 | A usage entry yields one overload error iff it is overloaded. The error carries its date and the assigned and available counts. |
| EngineSpec.OverloadConflictsNone | aps-train-system/src/engine/SchedulingEngine.ts:235-245 | There is no overload conflict iff no day is overloaded. |
| EngineSpec.Emit | aps-train-system/src/engine/SchedulingEngine.ts:66-79 | A process of the legacy engine lasts exactly its step's duration. |
| EngineSpec.CompletionsMeaning | aps-train-system/src/engine/SchedulingEngine.ts:87 | Every sorted order id gets a completion entry; for the last order with an id it is that order's last end. |
| EngineSpec.CompletionsSnoc | aps-train-system/src/engine/SchedulingEngine.ts:69-79 | Emitting a process for a later order leaves the recorded completions unchanged. |
| EngineSpec.EmitWellFormed | aps-train-system/src/engine/SchedulingEngine.ts:69-79 | An emitted process carries the order's fields, the step's name, index and duration, and the line's id and crew. |
| EngineSpec.EmitStartChosen | aps-train-system/src/engine/SchedulingEngine.ts:56-64 | The start day is chosen from the later of the order's last end and the line's last end. |
| EngineSpec.EmitIndexOrdered | aps-train-system/src/engine/SchedulingEngine.ts:44-84 | Within one order, the process indices increase. |
| EngineSpec.EmitLinesTracked | aps-train-system/src/engine/SchedulingEngine.ts:82-83 | The line availability map still holds each line's last end after the update. |
| EngineSpec.EmitOrdersDone | aps-train-system/src/engine/SchedulingEngine.ts:69-79 | Emitting a step for the current order leaves the finished orders' records intact. |
| EngineSpec.EmitInProgress | aps-train-system/src/engine/SchedulingEngine.ts:69-83 | After a step is emitted, the current order has advanced by one step and `previousEnd` is the new end. |
| EngineSpec.EmitPreserves | aps-train-system/src/engine/SchedulingEngine.ts:45-83 | Placing one step keeps the whole scheduling invariant. |
| EngineSpec.EmitProgress | aps-train-system/src/engine/SchedulingEngine.ts:45-83 | Placing one step keeps the placement invariant. |
| EngineSpec.BeginOrder | aps-train-system/src/engine/SchedulingEngine.ts:40-43 | An order starts with no step emitted and `previousEnd` at the start date. |
| EngineSpec.FinishOrder | aps-train-system/src/engine/SchedulingEngine.ts:87 | Recording the finished order's completion keeps the invariant for the next order. |
| EngineSpec.InitialState | aps-train-system/src/engine/SchedulingEngine.ts:29-37 | The empty schedule with every line free from the start date satisfies the invariant. |
| EngineSpec.AllOrdersPlaced | aps-train-system/src/engine/SchedulingEngine.ts:39-88 | After the last order the output is `Placed` and the completion map is the one the spec defines. |
| EngineSpec.MissingInSorted | aps-train-system/src/engine/SchedulingEngine.ts:40 | An order of the sorted list whose model is missing is an input order whose model is missing. |
| EngineSpec.NoneMissing | aps-train-system/src/engine/SchedulingEngine.ts:39-88 | If every sorted order's model is found, no input order's model is missing. |
| EngineSpec.EveryOrderCompleted | aps-train-system/src/engine/SchedulingEngine.ts:87 | When no model is missing, every input order's id has a completion date. |
| EngineSpec.EndsAfterStarts | aps-train-system/src/engine/SchedulingEngine.ts:66 | With non-negative durations every process ends no earlier than it starts. |
| EngineSpec.LastOrderEndCovers | aps-train-system/src/engine/SchedulingEngine.ts:43 | An order's last end is at least the end of each of its emitted processes. |
| EngineSpec.LastLineEndCovers | aps-train-system/src/engine/SchedulingEngine.ts:82-83 | A line's last end is at least the end of each process on it. |
| EngineSpec.ChoicesChain | aps-train-system/src/engine/SchedulingEngine.ts:56-64 | Starts chosen this way never precede the schedule start. An order's later step starts after its earlier step ends, and no line is booked twice. |
| EngineSpec.NoOverlap | aps-train-system/src/engine/SchedulingEngine.ts:23-102 | With non-negative durations the legacy schedule keeps orders chained and lines disjoint, within the schedule. |
| SchedulingEngine.ValidateSchedule | aps-train-system/src/engine/SchedulingEngine.ts:208-252 | The usage table is the daily usage over the horizon. The conflicts are the late orders followed by the overloaded days, the schedule is valid iff there are none, and there are no warnings. |
| SchedulingEngine.CheckLateOrders | aps-train-system/src/engine/SchedulingEngine.ts:216-232 | The loop collects exactly the late-delivery conflicts of the orders, in order. |
| SchedulingEngine.CheckOverloadedDays | aps-train-system/src/engine/SchedulingEngine.ts:235-245 | The loop appends exactly the overload conflicts of the usage table. |
| SchedulingEngine.InitLineAvailability | aps-train-system/src/engine/SchedulingEngine.ts:29-36 | The keys are exactly the line ids, each mapped to the start date. |
| SchedulingEngine.InitialLoopState | aps-train-system/src/engine/SchedulingEngine.ts:29-37 | The loop begins with no processes, no completions and the invariant established. |
| SchedulingEngine.PlaceStep | aps-train-system/src/engine/SchedulingEngine.ts:45-83 | One step of the inner loop keeps the invariant and moves to the next step. |
| SchedulingEngine.PlaceSteps | aps-train-system/src/engine/SchedulingEngine.ts:44-84 | The inner loop processes every step of the recipe and keeps the invariant. |
| SchedulingEngine.ScheduleOrder | aps-train-system/src/engine/SchedulingEngine.ts:44-87 | Scheduling one order's steps and recording its completion advances the invariant by one order. |
| SchedulingEngine.PlaceOrder | aps-train-system/src/engine/SchedulingEngine.ts:39-88 | It reports a missing model iff `getTrainModel` fails for the order; otherwise it advances the invariant. |
| SchedulingEngine.PlaceOrders | aps-train-system/src/engine/SchedulingEngine.ts:39-88 | On failure it names a sorted order whose model is missing; otherwise the output is `Placed` with the specified completions. |
| SchedulingEngine.SchedulingEngine.constructor | aps-train-system/src/engine/SchedulingEngine.ts:16-18 | The engine keeps the configuration it is given. |
| SchedulingEngine.SchedulingEngine.ScheduleOrders | aps-train-system/src/engine/SchedulingEngine.ts:23-102 | The run fails iff some order's model is missing. Otherwise the processes are `Placed` for the sorted orders and every order id has its completion. The usage table is exact, the validation lists the late and overloaded conflicts, and the run is valid iff there are none. |
| ValidationService.LateFor | aps-train-system/src/domain/services/ValidationService.ts:67-89 | An order yields one late-delivery error iff it has a completion date at which it is late. The error carries its id and the positive number of days late. |
| ValidationService.LateConflictsNone | aps-train-system/src/domain/services/ValidationService.ts:67-89 | There is no late-delivery conflict iff no order with a completion date is late at it. |
| ValidationService.LateConflictsSpec | aps-train-system/src/domain/services/ValidationService.ts:67-89 | The late conflicts are exactly those of the individual orders, at most one per order. |
| ValidationService.CheckLateDeliveries | aps-train-system/src/domain/services/ValidationService.ts:67-89 | The loop computes exactly the late conflicts. |
| ValidationService.OverloadFor | aps-train-system/src/domain/services/ValidationService.ts:94-109 | A day yields one overload error iff it is overloaded, dated that day. |
| ValidationService.OverloadConflictsNone | aps-train-system/src/domain/services/ValidationService.ts:94-109 | There is no overload conflict iff no day is overloaded. |
| ValidationService.OverloadConflictsSpec | aps-train-system/src/domain/services/ValidationService.ts:94-109 | There is one conflict per overloaded day, in table order, with that day's date and shortfall. |
| ValidationService.CheckResourceOverload | aps-train-system/src/domain/services/ValidationService.ts:94-109 | The loop computes exactly the overload conflicts. |
| ValidationService.FirstKeysSpec | aps-train-system/src/domain/services/ValidationService.ts:202-215 | The group keys are distinct and are exactly the keys of the processes. |
| ValidationService.MembersSpec | aps-train-system/src/domain/services/ValidationService.ts:202-215 | A group holds exactly the processes with its key, and a key no process has gets an empty group. |
| ValidationService.MembersKeepOrder | aps-train-system/src/domain/services/ValidationService.ts:202-215 | A group keeps its members in schedule order. |
| ValidationService.GroupStep | aps-train-system/src/domain/services/ValidationService.ts:207-213 | Adding one process to the grouping keeps it the grouping of the longer prefix. |
| ValidationService.GroupBy | aps-train-system/src/domain/services/ValidationService.ts:202-215 | The grouping loop yields the keys in order of first occurrence, each with exactly its members in order. |
| ValidationService.GroupProcessesByOrder | aps-train-system/src/domain/services/ValidationService.ts:202-215 | The processes are grouped by order id, keys in first-occurrence order. |
| ValidationService.GroupProcessesByLine | aps-train-system/src/domain/services/ValidationService.ts:220-233 | The processes are grouped by line id, keys in first-occurrence order. |
| ValidationService.AdjacentViolationsNone | aps-train-system/src/domain/services/ValidationService.ts:124-140 | An order has no sequence violation iff each step, once sorted by index, starts no earlier than the previous one ends. |
| ValidationService.AdjacentViolationsShape | aps-train-system/src/domain/services/ValidationService.ts:124-140 | Each sequence violation is an error for that order, naming a step that starts before its predecessor ends. |
| ValidationService.CheckOrderSequence | aps-train-system/src/domain/services/ValidationService.ts:122-140 | The loop computes exactly the violations of one order's index-sorted steps. |
| ValidationService.CheckOrderGroups | aps-train-system/src/domain/services/ValidationService.ts:114-144 | The loop over the order groups concatenates each group's violations. |
| ValidationService.CheckProcessSequence | aps-train-system/src/domain/services/ValidationService.ts:114-144 | `checkProcessSequence` computes exactly the spec's sequence conflicts. |
| ValidationService.DatesOverlap | aps-train-system/src/domain/services/ValidationService.ts:185-197 | The half-open ranges [s1, e1) and [s2, e2) overlap iff neither ends at or before the other's start. |
| ValidationService.DatesOverlapSymmetric | aps-train-system/src/domain/services/ValidationService.ts:185-197 | Overlap is symmetric, and back-to-back ranges do not overlap. |
| ValidationService.RowConflicts | aps-train-system/src/domain/services/ValidationService.ts:157-176 | One row of the pair loop reports one conflict per later process that overlaps the row's process. |
| ValidationService.PairConflicts | aps-train-system/src/domain/services/ValidationService.ts:157-176 | The pair loops report one conflict per overlapping pair. |
| ValidationService.CheckLineRow | aps-train-system/src/domain/services/ValidationService.ts:160-175 | The inner loop appends exactly the row's conflicts. |
| ValidationService.CheckLinePairs | aps-train-system/src/domain/services/ValidationService.ts:157-176 | The nested loops compute exactly the pair conflicts of one line. |
| ValidationService.CheckLineGroups | aps-train-system/src/domain/services/ValidationService.ts:149-180 | The loop over the line groups concatenates each group's pair conflicts. |
| ValidationService.CheckLineConflicts | aps-train-system/src/domain/services/ValidationService.ts:149-180 | `checkLineConflicts` computes exactly the spec's line conflicts. |
| ValidationService.OrderViolationsNone | aps-train-system/src/domain/services/ValidationService.ts:124-140 | An order whose steps are pairwise in sequence has no violation. |
| ValidationService.OrderGroupClean | aps-train-system/src/domain/services/ValidationService.ts:114-144 | If the processes of each order are in sequence, that order's group is clean. |
| ValidationService.SequenceOverNone | aps-train-system/src/domain/services/ValidationService.ts:114-144 | If every group is clean, the concatenation over groups is empty. |
| ValidationService.NoSequenceViolations | aps-train-system/src/domain/services/ValidationService.ts:114-144 | Processes whose same-order pairs are in sequence produce no sequence conflict. |
| ValidationService.RowOverlapsNone | aps-train-system/src/domain/services/ValidationService.ts:160-175 | A row has no overlap iff its process is apart from every later one. |
| ValidationService.PairOverlapsNone | aps-train-system/src/domain/services/ValidationService.ts:157-176 | There is no overlap iff every pair examined is apart. |
| ValidationService.PairConflictsNone | aps-train-system/src/domain/services/ValidationService.ts:157-176 | A line has no conflict iff all its pairs of processes are apart. |
| ValidationService.LineGroupClean | aps-train-system/src/domain/services/ValidationService.ts:149-180 | If same-line processes end before later ones start, the line's group has no conflict. |
| ValidationService.LineOverNone | aps-train-system/src/domain/services/ValidationService.ts:149-180 | If every line group is clean, the concatenation over groups is empty. |
| ValidationService.NoLineConflicts | aps-train-system/src/domain/services/ValidationService.ts:149-180 | Processes whose same-line pairs are ordered produce no line conflict. |
| ValidationService.Validate | aps-train-system/src/domain/services/ValidationService.ts:32-62 | The conflicts are the late ones, then the overloads, then the sequence and line conflicts; the result is valid iff there are none and has no warnings. |
| ScheduleChecks.SameIdSameOwner | aps-train-system/src/domain/services/SchedulingService.ts:61-140 | For distinct order ids, two scheduled processes with the same order id come from the same order. |
| ScheduleChecks.PlacedInSequence | aps-train-system/src/domain/services/SchedulingService.ts:104-120 | The scheduler's processes of one order id are in sequence. |
| ScheduleChecks.PlacedIsConflictFree | aps-train-system/src/domain/services/ValidationService.ts:114-180 | For distinct order ids the scheduler's output has no sequence conflict and no line conflict. |
| ScheduleChecks.OnlyLateOrOverloaded | aps-train-system/src/domain/services/ValidationService.ts:32-62 | On the scheduler's output, `validate` reports only late deliveries and overloads. |
| ConfigurationService.ValidateOperation | aps-train-system/src/domain/services/ConfigurationService.ts:22-44 | Each error is reported iff its condition holds: duplicate name, default duration over 30, default crew over 10. No other error appears, none twice, and the result is valid iff there is no error. |
| ConfigurationService.LinesWithOperation | aps-train-system/src/domain/services/ConfigurationService.ts:56 | The lines using an operation are exactly the lines with that operation type. |
| ConfigurationService.CanDeleteOperation | aps-train-system/src/domain/services/ConfigurationService.ts:49-68 | Deletion is allowed iff no line uses the operation; otherwise the single error names it with the number of lines using it. |
| ConfigurationService.ValidateLine | aps-train-system/src/domain/services/ConfigurationService.ts:73-109 | Each error is reported iff its condition holds: unknown operation, line number already taken by another line of that operation, crew over 10. No other error appears, and the result is valid iff there is no error. |
| ConfigurationService.UnknownOperationsSpec | aps-train-system/src/domain/services/ConfigurationService.ts:126-133 | There is no unknown-operation error iff every step's operation exists. Each error names a step whose operation is unknown. |
| ConfigurationService.DuplicateNamesNone | aps-train-system/src/domain/services/ConfigurationService.ts:136-141 | No name is reported as duplicated iff the process names are distinct. |
| ConfigurationService.DuplicateNames | aps-train-system/src/domain/services/ConfigurationService.ts:136-141 | A name is reported iff it occurs at least twice among the process names. |
| ConfigurationService.SequenceOrders | aps-train-system/src/domain/services/ConfigurationService.ts:144-150 | The sequence orders of the steps, one per step, in step order. |
| ConfigurationService.Range | aps-train-system/src/domain/services/ConfigurationService.ts:144-150 | The indices 0 .. n-1 in order. |
| ConfigurationService.SortedIsRange | aps-train-system/src/domain/services/ConfigurationService.ts:144-150 | The sorted sequence orders equal their positions iff the sequence orders are exactly 0 .. n-1. |
| ConfigurationService.CalculateTotalDurationIsTotal | aps-train-system/src/domain/services/ConfigurationService.ts:184-186 | The total duration is the sum of the step durations. |
| ConfigurationService.CalculateTotalDuration | aps-train-system/src/domain/services/ConfigurationService.ts:184-186 | With non-negative step durations the total is non-negative and at least each step's duration. |
| ConfigurationService.CheckOperationsExist | aps-train-system/src/domain/services/ConfigurationService.ts:126-133 | The loop collects exactly the unknown-operation errors, in step order. |
| ConfigurationService.CheckSequenceConsecutive | aps-train-system/src/domain/services/ConfigurationService.ts:144-150 | The loop accepts iff the sequence orders are exactly 0 .. n-1. |
| ConfigurationService.ValidateProcessConfig | aps-train-system/src/domain/services/ConfigurationService.ts:114-162 | The errors are the spec's recipe errors in source order, and the result is valid iff there is none. |
| ConfigurationService.ProcessConfigErrorsOf | aps-train-system/src/domain/services/ConfigurationService.ts:114-162 | The recipe errors are the empty-recipe, unknown-operation, duplicate, sequence and total-duration errors, in that order. |
| ConfigurationService.ProcessConfigAccepted | aps-train-system/src/domain/services/ConfigurationService.ts:114-162 | A recipe is accepted iff it is non-empty, uses only known operations, has distinct names and sequence 0 .. n-1, and totals at most 60 days. |
| ConfigurationService.AcceptedRecipeMakesModel | aps-train-system/src/domain/entities/TrainModel.ts:29-41 | A recipe the configuration service accepts always makes a valid train model. |
| ConfigurationService.CreateDefaultProcessConfig | aps-train-system/src/domain/services/ConfigurationService.ts:167-179 | A step is created iff the name is not blank and the order is not negative; it takes the operation's name and default duration and crew. |
| ConfigurationService.MaxLineNumber | aps-train-system/src/domain/services/ConfigurationService.ts:205-209 | The largest line number, or 0 for none: at least every line's number and attained when positive. |
| ConfigurationService.SuggestLineConfiguration | aps-train-system/src/domain/services/ConfigurationService.ts:200-215 | The suggested number is 1 or one more than the largest number of the operation's lines, above all of them, with the operation's default crew. |
| ConfigurationService.SuggestionIsFree | aps-train-system/src/domain/services/ConfigurationService.ts:200-215 | A line with the suggested number is never rejected as a duplicate number. |
| ConfigurationService.FirstOccurrencesSpec | aps-train-system/src/domain/services/ConfigurationService.ts:191-195 | The distinct values, each once, in order of first appearance. |
| ConfigurationService.FirstOccurrences | aps-train-system/src/domain/services/ConfigurationService.ts:191-195 | The distinct values are no more than the input values; membership, distinctness and order are stated by `FirstOccurrencesSpec`. |
| ConfigurationService.OperationTypes | aps-train-system/src/domain/services/ConfigurationService.ts:191-195 | The operation type of each step, in step order. |
| ConfigurationService.GetUsedOperationTypes | aps-train-system/src/domain/services/ConfigurationService.ts:191-195 | The loop yields the distinct operation types in order of first use. |
| OperationType.ColorOrDefault | aps-train-system/src/domain/entities/OperationType.ts:45 | A missing or empty colour becomes the default grey `#6B7280`; any other is kept. |
| OperationType.Create | aps-train-system/src/domain/entities/OperationType.ts:39-65 | Creation succeeds iff the name and description are not blank, the duration is positive, the crew is not negative and the colour is a hex colour. The result holds the data with the colour defaulted. |
| OperationType.DefaultColorIsHex | aps-train-system/src/domain/entities/OperationType.ts:45 | The default colour is a valid hex colour. |
| OperationType.DefaultColorApplies | aps-train-system/src/domain/entities/OperationType.ts:39-47 | Valid data without a colour creates a type with the default colour. |
| OperationType.WithDefaults | aps-train-system/src/domain/entities/OperationType.ts:67-75 | The copy succeeds iff the new defaults are valid, and changes only them. |
| OperationType.WithColor | aps-train-system/src/domain/entities/OperationType.ts:77-85 | The copy succeeds iff the colour is empty or hex, and changes only the colour, defaulted when empty. |
| OperationType.Equals | aps-train-system/src/domain/entities/OperationType.ts:87-89 | Identity by name: every operation type equals itself. |
| OperationType.EqualsAcrossCopies | aps-train-system/src/domain/entities/OperationType.ts:67-89 | New defaults or a new colour keep the same operation type. |
| ProcessConfig.Create | aps-train-system/src/domain/entities/ProcessConfig.ts:39-65 | Creation succeeds iff the names are not blank, the duration is positive and the crew and sequence order are not negative; `toJSON` gives back the data. |
| ProcessConfig.CreateToJson | aps-train-system/src/domain/entities/ProcessConfig.ts:97-105 | Re-creating a valid step from its JSON returns the same step. |
| ProcessConfig.WithDuration | aps-train-system/src/domain/entities/ProcessConfig.ts:67-75 | The copy succeeds iff the duration is positive, and changes only it. |
| ProcessConfig.WithWorkers | aps-train-system/src/domain/entities/ProcessConfig.ts:77-85 | The copy succeeds iff the crew is not negative, and changes only it. |
| ProcessConfig.Equals | aps-train-system/src/domain/entities/ProcessConfig.ts:87-95 | Field-by-field equality is value equality. |
| ProcessConfig.TotalDurationAppend | aps-train-system/src/domain/entities/TrainModel.ts:56-58 | The total duration of two recipes put together is the sum of their totals. |
| ProcessConfig.TotalDurationAtLeastLength | aps-train-system/src/domain/entities/TrainModel.ts:56-58 | A recipe of valid steps lasts at least one day per step. |
| ProcessConfig.TotalDurationCoversStep | aps-train-system/src/domain/entities/TrainModel.ts:56-58 | A recipe lasts at least as long as each of its valid steps. |
| ProductionLine.Create | aps-train-system/src/domain/entities/ProductionLine.ts:39-62 | Creation succeeds iff the data is valid: non-blank id and operation, positive line number, non-negative crew. |
| ProductionLine.WithActiveStatus | aps-train-system/src/domain/entities/ProductionLine.ts:72-80 | The copy has the requested status and is otherwise the same line. |
| ProductionLine.Activate | aps-train-system/src/domain/entities/ProductionLine.ts:96-98 | The copy is active and otherwise the same. |
| ProductionLine.Deactivate | aps-train-system/src/domain/entities/ProductionLine.ts:92-94 | The copy is inactive and otherwise the same. |
| ProductionLine.ActivationIdempotent | aps-train-system/src/domain/entities/ProductionLine.ts:64-98 | Activating or deactivating twice is the same as once. An inactive line performs nothing, and an active one performs exactly its own operation. |
| ProductionLine.WithWorkers | aps-train-system/src/domain/entities/ProductionLine.ts:82-90 | The copy succeeds iff the crew is not negative, and changes only it. |
| ProductionLine.CanPerformOperation | aps-train-system/src/domain/entities/ProductionLine.ts:64-66 | No contract of its own: active and serving the type; `ActivationIdempotent` states that an inactive line performs nothing and an active one exactly its type. |
| ProductionLine.Equals | aps-train-system/src/domain/entities/ProductionLine.ts:100-102 | Identity by id: every line equals itself. |
| ProductionLine.EqualsAcrossCopies | aps-train-system/src/domain/entities/ProductionLine.ts:72-102 | A line stays the same entity through a status change, activation, deactivation and a new crew. |
| ProductionOrder.Create | aps-train-system/src/domain/entities/ProductionOrder.ts:57-85 | Creation succeeds iff the id and model are not blank, a due date is given and the priority is not negative. It is dated now unless a creation date is given, and gives back its data. |
| ProductionOrder.CanSchedule | aps-train-system/src/domain/entities/ProductionOrder.ts:87-89 | No contract of its own: only a pending order; `CanScheduleIffMarkable` ties it to `markAsScheduled`. |
| ProductionOrder.CanScheduleIffMarkable | aps-train-system/src/domain/entities/ProductionOrder.ts:87-99 | `canSchedule` is true iff `markAsScheduled` succeeds. |
| ProductionOrder.CreateToData | aps-train-system/src/domain/entities/ProductionOrder.ts:164-174 | Re-creating a valid order from its data returns the same order. |
| ProductionOrder.MarkAsScheduled | aps-train-system/src/domain/entities/ProductionOrder.ts:91-99 | Only a pending order can be scheduled; only the status changes. |
| ProductionOrder.StartProduction | aps-train-system/src/domain/entities/ProductionOrder.ts:101-109 | Only a scheduled order can start; only the status changes. |
| ProductionOrder.Complete | aps-train-system/src/domain/entities/ProductionOrder.ts:111-120 | Only an order in production can complete; it records the completion time. |
| ProductionOrder.Cancel | aps-train-system/src/domain/entities/ProductionOrder.ts:122-130 | Any order except a completed one can be cancelled; only the status changes. |
| ProductionOrder.LifecycleChain | aps-train-system/src/domain/entities/ProductionOrder.ts:91-130 | A pending order runs through scheduled, in progress and completed, keeping its id. A completed order admits no further transition. |
| ProductionOrder.DaysUntilDue | aps-train-system/src/domain/entities/ProductionOrder.ts:139-144 | The days until due, added to the current day, give the due date. |
| ProductionOrder.LateMeansOverdue | aps-train-system/src/domain/entities/ProductionOrder.ts:132-144 | A late order is overdue, and an overdue order that is not completed is late. |
| ProductionOrder.IsLate | aps-train-system/src/domain/entities/ProductionOrder.ts:132-137 | An order is late iff it is not completed and its days until due are negative. |
| ProductionOrder.WithPriority | aps-train-system/src/domain/entities/ProductionOrder.ts:146-151 | The copy succeeds iff the priority is not negative, and changes only it. |
| ProductionOrder.WithDueDate | aps-train-system/src/domain/entities/ProductionOrder.ts:153-158 | The copy succeeds iff a due date is given, and changes only it. |
| ProductionOrder.Equals | aps-train-system/src/domain/entities/ProductionOrder.ts:160-162 | Identity by id: every order equals itself. |
| ProductionOrder.EqualsAcrossTransitions | aps-train-system/src/domain/entities/ProductionOrder.ts:91-162 | An order equals each of its successful lifecycle transitions and copies. |
| TrainModel.ProcessNames | aps-train-system/src/domain/entities/TrainModel.ts:60-66 | The names of the steps, in order. |
| TrainModel.Create | aps-train-system/src/domain/entities/TrainModel.ts:29-50 | Creation succeeds iff the id and description are not blank and the recipe is non-empty with distinct step names. |
| TrainModel.GetProcess | aps-train-system/src/domain/entities/TrainModel.ts:52-54 | A step is returned iff the index is in range, and it is the step at that index. |
| TrainModel.GetTotalDuration | aps-train-system/src/domain/entities/TrainModel.ts:56-58 | The total of valid steps is at least their number of steps. |
| TrainModel.IndexFrom | aps-train-system/src/domain/entities/TrainModel.ts:64-66 | The first index from `from` on with the name, or -1 iff there is none. |
| TrainModel.GetProcessIndex | aps-train-system/src/domain/entities/TrainModel.ts:64-66 | The first index with the name, or -1 when the name is absent. |
| TrainModel.HasProcessIffIndex | aps-train-system/src/domain/entities/TrainModel.ts:60-66 | A model has a step iff its index is found; in a valid model that index is the only one with the name. |
| TrainModel.HasProcess | aps-train-system/src/domain/entities/TrainModel.ts:60-62 | A model has a step of that name iff `getProcessIndex` finds one. |
| TrainModel.WithProcesses | aps-train-system/src/domain/entities/TrainModel.ts:68-74 | The copy succeeds iff the new recipe is non-empty with distinct names, and changes only the recipe. |
| TrainModel.Equals | aps-train-system/src/domain/entities/TrainModel.ts:76-78 | Identity by id: every model equals itself. |
| TrainModel.EqualsAcrossWithProcesses | aps-train-system/src/domain/entities/TrainModel.ts:68-78 | A model with a new recipe is still the same model. |
| WorkerAllocation.Create | aps-train-system/src/domain/value-objects/WorkerAllocation.ts:20-37 | An allocation is created iff the count is a whole number in 0 .. 100. |
| WorkerAllocation.ZeroXorAvailable | aps-train-system/src/domain/value-objects/WorkerAllocation.ts:49-58 | A valid allocation is zero or available, never both. |
| WorkerAllocation.Add | aps-train-system/src/domain/value-objects/WorkerAllocation.ts:63-65 | The sum is created iff it does not exceed 100. |
| WorkerAllocation.Subtract | aps-train-system/src/domain/value-objects/WorkerAllocation.ts:70-73 | The difference is clamped at 0. |
| WorkerAllocation.IsZero | aps-train-system/src/domain/value-objects/WorkerAllocation.ts:49-51 | Zero iff equal to the empty allocation. |
| WorkerAllocation.IsAvailable | aps-train-system/src/domain/value-objects/WorkerAllocation.ts:56-58 | A valid allocation is available iff it can serve a request for one worker. |
| WorkerAllocation.CanAllocate | aps-train-system/src/domain/value-objects/WorkerAllocation.ts:78-80 | For valid allocations, a request can be served iff subtracting it needs no clamping at zero. |
| WorkerAllocation.IsGreaterThan | aps-train-system/src/domain/value-objects/WorkerAllocation.ts:85-87 | Greater is the converse of less. |
| WorkerAllocation.IsLessThan | aps-train-system/src/domain/value-objects/WorkerAllocation.ts:89-91 | Less iff the allocation cannot serve the other. |
| WorkerAllocation.Equals | aps-train-system/src/domain/value-objects/WorkerAllocation.ts:96-98 | Equality of counts is value equality. |
| WorkerAllocation.ComparisonsTrichotomy | aps-train-system/src/domain/value-objects/WorkerAllocation.ts:78-98 | The comparisons are the integer order. An allocation serves a request iff it is not less. |
| ProcessDuration.FromDays | aps-train-system/src/domain/value-objects/ProcessDuration.ts:20-37 | A duration is created iff the days are a whole number in 1 .. 365. |
| ProcessDuration.Add | aps-train-system/src/domain/value-objects/ProcessDuration.ts:49-51 | The sum is created iff it does not exceed 365. |
| ProcessDuration.Subtract | aps-train-system/src/domain/value-objects/ProcessDuration.ts:56-59 | The difference is clamped at 1 day. |
| ProcessDuration.IsGreaterThan | aps-train-system/src/domain/value-objects/ProcessDuration.ts:64-66 | Greater is the converse of less. |
| ProcessDuration.IsLessThan | aps-train-system/src/domain/value-objects/ProcessDuration.ts:68-70 | For valid durations, `a` is shorter than `b` iff subtracting `a` from `b` needs no clamping at one day. |
| ProcessDuration.Equals | aps-train-system/src/domain/value-objects/ProcessDuration.ts:75-77 | Equality of days is value equality. |
| ProcessDuration.ComparisonsTrichotomy | aps-train-system/src/domain/value-objects/ProcessDuration.ts:64-77 | The comparisons are the integer order, and equality is value equality. |
| DateRange.Create | aps-train-system/src/domain/value-objects/DateRange.ts:23-56 | A range is created iff both dates are given and the start is not after the end. |
| DateRange.DurationDays | aps-train-system/src/domain/value-objects/DateRange.ts:89-94 | The duration is non-negative and leads from the start to the end. |
| DateRange.Shift | aps-train-system/src/domain/value-objects/DateRange.ts:148-156 | Shifting moves both ends by the same days and keeps the duration. |
| DateRange.Extend | aps-train-system/src/domain/value-objects/DateRange.ts:161-166 | Extending keeps the start, moves the end, and fails iff the end would precede the start. |
| DateRange.Overlaps | aps-train-system/src/domain/value-objects/DateRange.ts:99-106 | Two valid ranges overlap iff some day lies in both. |
| DateRange.Contains | aps-train-system/src/domain/value-objects/DateRange.ts:111-117 | Only a valid range contains a day. |
| DateRange.ContainsRange | aps-train-system/src/domain/value-objects/DateRange.ts:122-129 | A valid range is contained iff each of its days is. |
| DateRange.IsBefore | aps-train-system/src/domain/value-objects/DateRange.ts:134-136 | For valid ranges, every day of the first precedes every day of the second. |
| DateRange.IsAfter | aps-train-system/src/domain/value-objects/DateRange.ts:141-143 | For valid ranges, every day of the first follows every day of the second. |
| DateRange.Equals | aps-train-system/src/domain/value-objects/DateRange.ts:171-173 | Equal ends is value equality. |
| DateRange.OverlapsSymmetric | aps-train-system/src/domain/value-objects/DateRange.ts:99-106 | Overlap is symmetric and reflexive, and closed ranges that touch overlap. |
| DateRange.ContainsRangeImpliesOverlaps | aps-train-system/src/domain/value-objects/DateRange.ts:111-129 | A contained range overlaps its container, and its days are the container's days. |
| DateRange.BeforeAfterExcludeOverlap | aps-train-system/src/domain/value-objects/DateRange.ts:99-143 | A range entirely before or after another does not overlap it, and before is the converse of after. |
| DateRange.OverlapOrSeparated | aps-train-system/src/domain/value-objects/DateRange.ts:99-143 | Two valid ranges either overlap or one is before the other. |
| JsArray.Filter | aps-train-system/src/infrastructure/persistence/memory/InMemoryOrderRepository.ts:96-100 | `filter` keeps exactly the elements satisfying the predicate. |
| JsArray.FilterMultiset | aps-train-system/src/infrastructure/persistence/memory/InMemoryOrderRepository.ts:96-100 | Filtering keeps every occurrence of a selected element and drops every occurrence of the others. |
| JsArray.FilterAppend | aps-train-system/src/infrastructure/persistence/memory/InMemoryOrderRepository.ts:96-100 | Filtering a concatenation is the concatenation of the filtered parts, so the order of the input is kept. |
| JsMap.Empty | aps-train-system/src/infrastructure/persistence/memory/InMemoryOrderRepository.ts:15-18 | A new map holds no keys. |
| JsMap.Get | aps-train-system/src/infrastructure/persistence/memory/InMemoryOrderRepository.ts:92-94 | `get` returns a value iff the key is present, and then the stored value. |
| JsMap.Has | aps-train-system/src/infrastructure/persistence/memory/InMemoryOrderRepository.ts:134-136 | `has` is true iff `get` finds the key. |
| JsMap.Set | aps-train-system/src/infrastructure/persistence/memory/InMemoryOrderRepository.ts:120-122 | `set` stores the value under the key, leaves the other keys, and appends a new key at the end of the insertion order. |
| JsMap.RemoveKey | aps-train-system/src/infrastructure/persistence/memory/InMemoryOrderRepository.ts:130-132 | Removing a key from the insertion order keeps every other key and their distinctness. |
| JsMap.Delete | aps-train-system/src/infrastructure/persistence/memory/InMemoryOrderRepository.ts:130-132 | `delete` removes the key, leaves the others, and drops it from the insertion order. |
| JsMap.Values | aps-train-system/src/infrastructure/persistence/memory/InMemoryOrderRepository.ts:88-90 | `values()` lists the stored values in insertion order. |
| JsMap.ValuesMembers | aps-train-system/src/infrastructure/persistence/memory/InMemoryOrderRepository.ts:88-90 | A value is listed iff some key maps to it. |
| JsMap.SetAllUntouched | aps-train-system/src/infrastructure/persistence/memory/InMemoryOrderRepository.ts:124-128 | A sequence of `set` calls leaves untouched the keys it does not name. |
| JsMap.SetAll | aps-train-system/src/infrastructure/persistence/memory/InMemoryOrderRepository.ts:124-128 | A sequence of `set` calls keeps a valid map valid (distinct insertion order matching the keys). |
| JsMap.SetAllLast | aps-train-system/src/infrastructure/persistence/memory/InMemoryOrderRepository.ts:124-128 | After a sequence of `set` calls, a key holds the value of its last `set`. |
| JsMap.SetAllFreshKeys | aps-train-system/src/infrastructure/persistence/memory/InMemoryOrderRepository.ts:124-128 | Setting fresh distinct keys appends them to the insertion order. |
| JsMap.SetDeleteFresh | aps-train-system/src/infrastructure/persistence/memory/InMemoryOrderRepository.ts:120-132 | Setting a fresh key and deleting it restores the map. |
| OrderRepository.Lookup | aps-train-system/src/infrastructure/persistence/memory/InMemoryOrderRepository.ts:92-94 | A stored order is found under its own id. |
| OrderRepository.Put | aps-train-system/src/infrastructure/persistence/memory/InMemoryOrderRepository.ts:120-122 | Saving stores the order under its id and changes no other id. |
| OrderRepository.PutAllUntouched | aps-train-system/src/infrastructure/persistence/memory/InMemoryOrderRepository.ts:124-128 | Saving many leaves the ids not among them untouched. |
| OrderRepository.PutAll | aps-train-system/src/infrastructure/persistence/memory/InMemoryOrderRepository.ts:124-128 | Saving many orders keeps a valid store valid. |
| OrderRepository.PutAllLast | aps-train-system/src/infrastructure/persistence/memory/InMemoryOrderRepository.ts:124-128 | Saving many leaves each id with its last saved order. |
| OrderRepository.Values | aps-train-system/src/infrastructure/persistence/memory/InMemoryOrderRepository.ts:88-90 | The listing holds one order per stored id, exactly the stored orders. |
| OrderRepository.ValuesIdsDistinct | aps-train-system/src/infrastructure/persistence/memory/InMemoryOrderRepository.ts:88-90 | The listed orders have distinct ids. |
| OrderRepository.SampleOrder | aps-train-system/src/infrastructure/persistence/memory/InMemoryOrderRepository.ts:24-71 | A sample order is valid, pending, created today and due the given days ahead. |
| OrderRepository.SampleOrders | aps-train-system/src/infrastructure/persistence/memory/InMemoryOrderRepository.ts:24-71 | There are five samples, all valid, pending and created today. |
| OrderRepository.SampleStoreListing | aps-train-system/src/infrastructure/persistence/memory/InMemoryOrderRepository.ts:73-77 | The seeded store lists the five samples in insertion order. |
| OrderRepository.PutAllFreshKeys | aps-train-system/src/infrastructure/persistence/memory/InMemoryOrderRepository.ts:124-128 | Saving fresh distinct orders appends their ids to the insertion order. |
| OrderRepository.PutAllKeepsOld | aps-train-system/src/infrastructure/persistence/memory/InMemoryOrderRepository.ts:124-128 | Saving fresh orders leaves the stored ones untouched. |
| OrderRepository.PutAllDistinctLast | aps-train-system/src/infrastructure/persistence/memory/InMemoryOrderRepository.ts:124-128 | Saving orders with distinct ids stores each of them. |
| OrderRepository.PutAllFresh | aps-train-system/src/infrastructure/persistence/memory/InMemoryOrderRepository.ts:124-128 | Saving fresh distinct orders appends them to the listing. |
| OrderRepository.FilterAll | aps-train-system/src/infrastructure/persistence/memory/InMemoryOrderRepository.ts:96-100 | A filter every element passes returns the whole list. |
| OrderRepository.SortFiveSamples | aps-train-system/src/infrastructure/persistence/memory/InMemoryOrderRepository.ts:108-118 | Five orders with the samples' priorities and due dates sort to positions 3, 1, 5, 2, 4. |
| OrderRepository.SortLastFour | aps-train-system/src/infrastructure/persistence/memory/InMemoryOrderRepository.ts:108-118 | The last four samples sort to positions 3, 5, 2, 4. |
| OrderRepository.SamplesSorted | aps-train-system/src/infrastructure/persistence/memory/InMemoryOrderRepository.ts:108-118 | The samples sort by priority then due date to ORD-003, ORD-001, ORD-005, ORD-002, ORD-004. |
| OrderRepository.SamplesPendingOrder | aps-train-system/src/infrastructure/persistence/memory/InMemoryOrderRepository.ts:108-118 | The seeded repository's pending queue is ORD-003, ORD-001, ORD-005, ORD-002, ORD-004. |
| OrderRepository.InMemoryOrderRepository.constructor | aps-train-system/src/infrastructure/persistence/memory/InMemoryOrderRepository.ts:15-18 | The repository starts with the five seeded samples. |
| OrderRepository.InMemoryOrderRepository.GetAll | aps-train-system/src/infrastructure/persistence/memory/InMemoryOrderRepository.ts:88-90 | The listing holds exactly the stored orders, one per id. |
| OrderRepository.InMemoryOrderRepository.GetById | aps-train-system/src/infrastructure/persistence/memory/InMemoryOrderRepository.ts:92-94 | An order is found iff its id is stored, and then it is the stored one. |
| OrderRepository.InMemoryOrderRepository.GetByStatus | aps-train-system/src/infrastructure/persistence/memory/InMemoryOrderRepository.ts:96-100 | Exactly the stored orders with the status. |
| OrderRepository.InMemoryOrderRepository.GetByModelType | aps-train-system/src/infrastructure/persistence/memory/InMemoryOrderRepository.ts:102-106 | Exactly the stored orders of the model. |
| OrderRepository.InMemoryOrderRepository.GetPendingOrdersSorted | aps-train-system/src/infrastructure/persistence/memory/InMemoryOrderRepository.ts:108-118 | Exactly the pending orders, sorted by priority then due date. |
| OrderRepository.InMemoryOrderRepository.Save | aps-train-system/src/infrastructure/persistence/memory/InMemoryOrderRepository.ts:120-122 | The store becomes the old store with the order set under its id. |
| OrderRepository.InMemoryOrderRepository.SaveMany | aps-train-system/src/infrastructure/persistence/memory/InMemoryOrderRepository.ts:124-128 | The store becomes the old store with each order set in turn. |
| OrderRepository.InMemoryOrderRepository.Delete | aps-train-system/src/infrastructure/persistence/memory/InMemoryOrderRepository.ts:130-132 | The store becomes the old store without the id. |
| OrderRepository.InMemoryOrderRepository.Exists | aps-train-system/src/infrastructure/persistence/memory/InMemoryOrderRepository.ts:134-136 | True iff an order with the id is stored. |
| OrderRepository.InMemoryOrderRepository.GetOrdersDueBefore | aps-train-system/src/infrastructure/persistence/memory/InMemoryOrderRepository.ts:138-143 | Exactly the stored orders due strictly before the date; none for an unparsable date. |
| OrderRepository.InMemoryOrderRepository.GetOrdersCreatedBetween | aps-train-system/src/infrastructure/persistence/memory/InMemoryOrderRepository.ts:145-153 | Exactly the stored orders created within the inclusive range; none if either date is unparsable. |
| ConfigRepository.DefaultsAreValid | aps-train-system/src/infrastructure/persistence/memory/InMemoryConfigRepository.ts:26-166 | All seeded operations, lines and recipe steps are valid entities. |
| ConfigRepository.HexColors | aps-train-system/src/infrastructure/persistence/memory/InMemoryConfigRepository.ts:28-54 | The seeded colours are hex colours. |
| ConfigRepository.NotBlank | aps-train-system/src/infrastructure/persistence/memory/InMemoryConfigRepository.ts:28-92 | The seeded names, descriptions and line ids are not blank. |
| ConfigRepository.DefaultKeysDistinct | aps-train-system/src/infrastructure/persistence/memory/InMemoryConfigRepository.ts:26-166 | The seeded operation names, line ids and model ids are distinct. |
| ConfigRepository.FilledFromDistinct | aps-train-system/src/infrastructure/persistence/memory/InMemoryConfigRepository.ts:163-165 | Setting distinct keys into an empty map keeps them in order, each with its value. |
| ConfigRepository.FilledByKey | aps-train-system/src/infrastructure/persistence/memory/InMemoryConfigRepository.ts:26-166 | A map filled under each value's own key stores every value under its key. |
| ConfigRepository.DefaultOperationsKeyed | aps-train-system/src/infrastructure/persistence/memory/InMemoryConfigRepository.ts:28-54 | The default operations are stored under their own names. |
| ConfigRepository.DefaultLinesKeyed | aps-train-system/src/infrastructure/persistence/memory/InMemoryConfigRepository.ts:57-92 | The default lines are stored under their own ids. |
| ConfigRepository.DefaultsKeyed | aps-train-system/src/infrastructure/persistence/memory/InMemoryConfigRepository.ts:19-24 | The seeded maps are stored under each entity's own key. |
| ConfigRepository.DefaultsReferToKnownOperations | aps-train-system/src/infrastructure/persistence/memory/InMemoryConfigRepository.ts:57-161 | Every seeded line and recipe step uses a seeded operation. |
| ConfigRepository.RecipeAccepted | aps-train-system/src/domain/services/ConfigurationService.ts:114-162 | A well-formed recipe (known operations, distinct names, sequence 0 .. n-1, total up to 60) has no error. |
| ConfigRepository.DefaultRecipesUseKnownOperations | aps-train-system/src/infrastructure/persistence/memory/InMemoryConfigRepository.ts:96-161 | The seeded recipes reference no unknown operation. |
| ConfigRepository.ModelAShape | aps-train-system/src/infrastructure/persistence/memory/InMemoryConfigRepository.ts:96-118 | Model A runs the three operations in order and lasts 5 days. |
| ConfigRepository.ModelBShape | aps-train-system/src/infrastructure/persistence/memory/InMemoryConfigRepository.ts:121-143 | Model B runs the three operations in order and lasts 5 days. |
| ConfigRepository.ModelCShape | aps-train-system/src/infrastructure/persistence/memory/InMemoryConfigRepository.ts:146-161 | Model C runs Preparación then Pintado and lasts 3 days. |
| ConfigRepository.ModelAWellFormed | aps-train-system/src/infrastructure/persistence/memory/InMemoryConfigRepository.ts:96-118 | Model A's recipe is well formed. |
| ConfigRepository.ModelBWellFormed | aps-train-system/src/infrastructure/persistence/memory/InMemoryConfigRepository.ts:121-143 | Model B's recipe is well formed. |
| ConfigRepository.ModelCWellFormed | aps-train-system/src/infrastructure/persistence/memory/InMemoryConfigRepository.ts:146-161 | Model C's recipe is well formed. |
| ConfigRepository.ModelARecipeValid | aps-train-system/src/infrastructure/persistence/memory/InMemoryConfigRepository.ts:96-118 | `validateProcessConfig` accepts model A's recipe. |
| ConfigRepository.ModelBRecipeValid | aps-train-system/src/infrastructure/persistence/memory/InMemoryConfigRepository.ts:121-143 | `validateProcessConfig` accepts model B's recipe. |
| ConfigRepository.ModelCRecipeValid | aps-train-system/src/infrastructure/persistence/memory/InMemoryConfigRepository.ts:146-161 | `validateProcessConfig` accepts model C's recipe. |
| ConfigRepository.InMemoryConfigRepository.constructor | aps-train-system/src/infrastructure/persistence/memory/InMemoryConfigRepository.ts:19-24 | The repository starts with the seeded operations, lines and recipes. |
| ConfigRepository.InMemoryConfigRepository.GetLines | aps-train-system/src/infrastructure/persistence/memory/InMemoryConfigRepository.ts:170-172 | Exactly the stored lines, one per id. |
| ConfigRepository.InMemoryConfigRepository.GetLinesByOperation | aps-train-system/src/infrastructure/persistence/memory/InMemoryConfigRepository.ts:174-178 | Exactly the stored lines of the operation. |
| ConfigRepository.InMemoryConfigRepository.SaveLine | aps-train-system/src/infrastructure/persistence/memory/InMemoryConfigRepository.ts:180-182 | Sets the line under its id and changes nothing else. |
| ConfigRepository.InMemoryConfigRepository.DeleteLine | aps-train-system/src/infrastructure/persistence/memory/InMemoryConfigRepository.ts:184-186 | Deletes the line id and changes nothing else. |
| ConfigRepository.InMemoryConfigRepository.GetOperations | aps-train-system/src/infrastructure/persistence/memory/InMemoryConfigRepository.ts:190-192 | Exactly the stored operations, one per name. |
| ConfigRepository.InMemoryConfigRepository.GetOperation | aps-train-system/src/infrastructure/persistence/memory/InMemoryConfigRepository.ts:194-196 | Found iff the name exists, and then it is the stored operation with that name. |
| ConfigRepository.InMemoryConfigRepository.SaveOperation | aps-train-system/src/infrastructure/persistence/memory/InMemoryConfigRepository.ts:198-200 | Sets the operation under its name and changes nothing else. |
| ConfigRepository.InMemoryConfigRepository.DeleteOperation | aps-train-system/src/infrastructure/persistence/memory/InMemoryConfigRepository.ts:202-204 | Deletes the operation name and changes nothing else. |
| ConfigRepository.InMemoryConfigRepository.OperationExists | aps-train-system/src/infrastructure/persistence/memory/InMemoryConfigRepository.ts:206-208 | True iff a listed operation has the name. |
| ConfigRepository.InMemoryConfigRepository.GetProcessConfig | aps-train-system/src/infrastructure/persistence/memory/InMemoryConfigRepository.ts:212-214 | The stored recipe of the model, or the empty recipe for an unknown model. |
| ConfigRepository.InMemoryConfigRepository.SaveProcessConfig | aps-train-system/src/infrastructure/persistence/memory/InMemoryConfigRepository.ts:216-218 | Sets the recipe under the model id and changes nothing else. |
| ConfigRepository.InMemoryConfigRepository.GetConfiguredModels | aps-train-system/src/infrastructure/persistence/memory/InMemoryConfigRepository.ts:220-222 | The model ids with a recipe, each once. |
| DemoScenario.ModelBLines | aps-train-system/src/infrastructure/persistence/memory/InMemoryConfigRepository.ts:57-92 | In the repository's seeded lines, each of the three steps of the repository's model B finds its line: preparacion-line-1, torneado-line-1 and pintado-line-1. |
| DemoScenario.B1Shape | aps-train-system/src/data/mockData.ts:85-92 | Scheduling the demo order B1 on the repository's lines and model B recipe yields three processes, one per step, on the Preparación, Torneado and Pintado lines, lasting 1, 3 and 1 days with crews 1, 2 and 2. |
| DemoScenario.DemoAvailabilityAt | aps-train-system/src/data/mockData.ts:70-81 | The availability on day i of the demo is the i-th entry. |
| DemoScenario.B1Start0 | aps-train-system/src/data/mockData.ts:70-81 | B1's first step starts on 2026-01-10. |
| DemoScenario.B1Start1 | aps-train-system/src/data/mockData.ts:70-81 | B1's second step starts on 2026-01-11. |
| DemoScenario.B1Start2 | aps-train-system/src/data/mockData.ts:70-81 | B1's third step starts on 2026-01-14. |
| DemoScenario.B1Placement | aps-train-system/src/data/mockData.ts:85-92 | The schedule of B1 is exactly the computed three processes. |
| DemoScenario.B1NeverOverloaded | aps-train-system/src/data/mockData.ts:70-81 | No day of the demo has more busy workers than available. |
| DemoScenario.RunDemo | aps-train-system/src/infrastructure/persistence/memory/InMemoryConfigRepository.ts:121-143 | `schedule` on a constructed input (the demo order B1 and availability table, the repository's lines and model B recipe, from 2026-01-10 over ten days) gives the computed processes and completes on 2026-01-15. Its ten usage entries are never overloaded. |
| DemoScenario.ModelFromRepositoryValid | aps-train-system/src/infrastructure/persistence/memory/InMemoryConfigRepository.ts:121-143 | Model B from the repository has valid steps only. |
| DemoScenario.ModelBCreated | aps-train-system/src/data/mockData.ts:17-27 | `TrainModel.create` accepts model B with its demo description and the repository recipe, and the result is valid. |
| DemoScenario.ValidateDemo | aps-train-system/src/domain/services/ValidationService.ts:32-62 | The validator finds no conflict in the demo schedule. |
| DemoScenario.DemoConflictFree | aps-train-system/src/domain/services/ValidationService.ts:114-180 | The demo schedule has no sequence and no line conflict. |
| TicTacToe.EmptyBoard | tic-tac-toe/src/App.jsx:53 | Nine empty squares. |
| TicTacToe.FirstCompleted | tic-tac-toe/src/App.jsx:121-139 | The first of the eight lines, from an index on, that one mark completes. |
| TicTacToe.Winner | tic-tac-toe/src/App.jsx:121-139 | There is a winner iff some line is completed, and the winner is the mark on a completed line. |
| TicTacToe.WinningLine | tic-tac-toe/src/App.jsx:121-139 | There is a winning line iff there is a winner, and it is completed with the winner's mark. |
| TicTacToe.CalculateWinner | tic-tac-toe/src/App.jsx:121-139 | The result is null iff there is no winner; otherwise it gives the line when asked for one and the mark when not. |
| TicTacToe.HandleClick | tic-tac-toe/src/App.jsx:16-23 | A click is ignored iff the game is won or the square is taken; otherwise only that square changes, to the mark of the player to move. |
| TicTacToe.StatusOf | tic-tac-toe/src/App.jsx:25-33 | The status is the winner, a draw iff the board is full without one, or the player to move. |
| TicTacToe.ClickMovesOnlyWhenInPlay | tic-tac-toe/src/App.jsx:16-33 | A click places a mark iff the status shows a player to move and the square is empty. |
| TicTacToe.Tally | tic-tac-toe/src/App.jsx:64-69 | A win adds one to the winner, a full board without one adds one draw, otherwise the scores stay; a finished game counts once. |
| TicTacToe.CountUpdate | tic-tac-toe/src/App.jsx:20-21 | Changing one square changes each mark's count by that square alone. |
| TicTacToe.MoveKeepsAlternating | tic-tac-toe/src/App.jsx:56 | A move by the player to move keeps X with one mark more than O, or the same number. |
| TicTacToe.Game.constructor | tic-tac-toe/src/App.jsx:53-55 | The game starts with one empty board at move 0 and zero scores. |
| TicTacToe.Game.HandlePlay | tic-tac-toe/src/App.jsx:59-70 | The history keeps the boards up to the one shown and appends the new one, which becomes shown. The scores are tallied. |
| TicTacToe.Game.Click | tic-tac-toe/src/App.jsx:16-23 | A click either changes nothing or appends the clicked board, advances the move and tallies it; the players still alternate. |
| TicTacToe.Game.ResetGame | tic-tac-toe/src/App.jsx:72-75 | One empty board at move 0; the scores stay. |
| TicTacToe.Game.ResetScores | tic-tac-toe/src/App.jsx:77-80 | Zero scores and one empty board at move 0. |
| TicTacToe.Game.XIsNext | tic-tac-toe/src/App.jsx:56 | In a valid game, X moves next iff the board shown holds as many X marks as O marks. |
| TicTacToe.Game.CurrentSquares | tic-tac-toe/src/App.jsx:57 | In a valid game, the board shown is the last board of the history and has nine squares. |
| TicTacToe.XIsNextWhenBalanced | tic-tac-toe/src/App.jsx:56 | X moves next exactly when both players have placed the same number of marks. |

## Left out

- DemoScenario: the demo is a constructed scenario, not a run the program makes. The dashboard runs the legacy engine on the demo data's own configuration (model B lasting 2, 2 and 1 days; lines PREP-L1, PREP-L2, TORN-L1 and PINT-L1) with all five sample orders, and the use case runs `schedule` on the repository data with 5 workers every day. Neither of those two runs is modelled as a concrete scenario; both are covered only by the general contracts of the engine and the scheduler.
- Dates: JavaScript `Date` parsing, time zones and ISO string formatting are not modelled. All dates are whole days, and `addDays`, `addWorkingDays`, `getLatestDate` and `isDateInRange` become integer operations. An unparsable date argument becomes `None`.
- DateRange.DurationDays: the millisecond difference rounded up is not modelled; with whole days it is the plain difference.
- ProductionOrder.DaysUntilDue: likewise a plain day difference instead of rounding milliseconds up.
- The wall clock (`new Date()` in `create`, the lifecycle methods and the sample orders) is a parameter (`now`, `today`), and `updatedAt` is not tracked.
- Message strings, `console.error` calls, the display colour of the legacy engine's scheduled processes, and all React rendering and CSS are not modelled; conflicts and errors are datatypes.
- `async`/`Promise` wrappers of the repositories are not modelled; every method is synchronous.
- Floating-point counts: `WorkerAllocation` and `ProcessDuration` take a `real` and test wholeness exactly; JavaScript's floating-point rounding is not modelled.
- ProcessConfig.Create: durations, crews and sequence orders are whole numbers (`int`). A JavaScript `NaN` or fractional value, which the source's `<= 0` and `< 0` checks let through, cannot be represented.
- OperationType.Create: the default duration and crew are whole numbers; `NaN` and fractions are not represented.
- ProductionLine.Create: the line number and crew are whole numbers; `NaN` and fractions are not represented.
- ProductionOrder.Create: the priority is a whole number; `NaN` and fractions are not represented.
- ConfigurationService.CreateDefaultProcessConfig: inherits the whole-number fields of `ProcessConfig.Create`.
- EngineSpec: the durations, crews, line numbers, horizon and worker counts of the legacy engine's plain records are whole numbers; `NaN` and fractions are not represented.
- SchedulingService.Schedule: requires every model's steps to be valid `ProcessConfig`s (positive durations). The source gets this from the entity's own validation in `ProcessConfig.create`.
- EngineSpec.NoOverlap: requires non-negative durations, because the legacy engine's plain `ProcessDefinition` records carry no validation.
- EngineSpec.EndsAfterStarts: the same non-negative-duration requirement.
- ScheduleChecks.PlacedIsConflictFree: requires distinct order ids. With repeated ids the validator groups two orders together and can report a sequence violation between them.
- OrderRepository.InMemoryOrderRepository.GetPendingOrdersSorted: states order and membership, not which of two orders with equal priority and due date comes first.
- ConfigurationService: the editor component (`ProcessConfigEditor.tsx:53`) numbers steps from 1, while `validateProcessConfig` demands 0 .. n-1. The model follows the service, and the editor is not part of this model.
- The routes, the PostgreSQL and Redis repositories, the use cases, the React presentation layer and the rest of the repository are not part of this model.
