/** The forward scheduler with earliest-due-date priority
    (aps-train-system/src/domain/services/SchedulingService.ts).

    Orders are taken in due-date order (stable). For each step of an order's
    train model the first active line serving the step's operation type is
    chosen; the step may start once the previous step of the same order has
    ended and the line is free, and is then pushed forward day by day (at
    most 100 times) until every day of its duration has enough workers.
    Finally a per-day usage table is built over the planning horizon.

    Dates are day ordinals, so `addDays` is `+`, `getLatestDate` is `Max`
    and `isDateInRange` is half-open containment on integers. */
module SchedulingService {
  import opened Common
  import Sorting
  import PO = ProductionOrder
  import PL = ProductionLine
  import TM = TrainModel
  import PC = ProcessConfig
  import DR = DateRange

  /** Workers assumed on a day that has no availability entry. */
  const DefaultAvailableWorkers: int := 5

  /** The safety bound of the day-by-day search for a start date. */
  const MaxIterations: int := 100

  datatype ScheduledProcess = ScheduledProcess(
    orderId: string,
    modelType: string,
    processName: string,
    processIndex: int,
    productionLineId: string,
    startDate: Day,
    endDate: Day,
    workersAssigned: int)

  datatype WorkerAvailability = WorkerAvailability(date: Day, availableWorkers: int)

  datatype SchedulingInput = SchedulingInput(
    orders: seq<PO.ProductionOrder>,
    lines: seq<PL.ProductionLine>,
    models: seq<TM.TrainModel>,
    workerAvailability: seq<WorkerAvailability>,
    startDate: Day,
    horizonDays: int)

  datatype DailyResourceUsage = DailyResourceUsage(
    date: Day,
    availableWorkers: int,
    assignedWorkers: int,
    isOverloaded: bool)

  datatype SchedulingResult = SchedulingResult(
    scheduledProcesses: seq<ScheduledProcess>,
    completionDates: map<string, Day>,
    resourceUsage: seq<DailyResourceUsage>)

  // ---------------------------------------------------------------------
  // Lookups

  function DueKey(o: PO.ProductionOrder): int
  {
    o.dueDate
  }

  /** `sortOrdersByDueDate`: a copy of the orders, stably sorted by due date. */
  function SortOrdersByDueDate(orders: seq<PO.ProductionOrder>): (r: seq<PO.ProductionOrder>)
    ensures |r| == |orders| && multiset(r) == multiset(orders)
    ensures forall i, j :: 0 <= i < j < |r| ==> r[i].dueDate <= r[j].dueDate
  {
    Sorting.SortBySpec(orders, DueKey);
    var r := Sorting.SortBy(orders, DueKey);
    assert forall i, j :: 0 <= i < j < |r| ==> DueKey(r[i]) <= DueKey(r[j]);
    r
  }

  /** Orders with the same due date keep their input order. */
  lemma SortOrdersByDueDateStable(orders: seq<PO.ProductionOrder>, due: Day)
    ensures Sorting.WithKey(SortOrdersByDueDate(orders), DueKey, due) == Sorting.WithKey(orders, DueKey, due)
  {
    Sorting.SortByStable(orders, DueKey, due);
  }

  /** `findModel`: the first model whose id is the order's model type. */
  function FindModel(models: seq<TM.TrainModel>, modelType: string): (r: Option<TM.TrainModel>)
    ensures r.Some? ==> r.value.id == modelType
  {
    if models == [] then None
    else if models[0].id == modelType then Some(models[0])
    else FindModel(models[1..], modelType)
  }

  /** `find` semantics: no model exactly when no id matches, otherwise the
      first model whose id matches. */
  lemma {:induction false} FindModelFirst(models: seq<TM.TrainModel>, modelType: string)
    ensures FindModel(models, modelType).None? <==> forall i :: 0 <= i < |models| ==> models[i].id != modelType
    ensures FindModel(models, modelType).Some? ==>
              exists i :: 0 <= i < |models| && models[i] == FindModel(models, modelType).value &&
                          forall j :: 0 <= j < i ==> models[j].id != modelType
  {
    if models != [] && models[0].id != modelType {
      FindModelFirst(models[1..], modelType);
      if FindModel(models, modelType).Some? {
        var i :| 0 <= i < |models[1..]| && models[1..][i] == FindModel(models, modelType).value &&
                 forall j :: 0 <= j < i ==> models[1..][j].id != modelType;
        assert models[i + 1] == FindModel(models, modelType).value;
        assert forall j :: 0 <= j < i + 1 ==> models[j].id != modelType by {
          forall j | 0 <= j < i + 1 ensures models[j].id != modelType {
            if j > 0 { assert models[j] == models[1..][j - 1]; }
          }
        }
      } else {
        assert forall i :: 1 <= i < |models| ==> models[i] == models[1..][i - 1];
      }
    }
  }

  /** `findSuitableLine`: the first line that is active and can perform the operation. */
  function FindSuitableLine(lines: seq<PL.ProductionLine>, operationType: string): (r: Option<PL.ProductionLine>)
    ensures r.Some? ==> r.value.isActive && PL.CanPerformOperation(r.value, operationType)
  {
    if lines == [] then None
    else if lines[0].isActive && PL.CanPerformOperation(lines[0], operationType) then Some(lines[0])
    else FindSuitableLine(lines[1..], operationType)
  }

  /** `filter(...)[0]` semantics: no line exactly when none qualifies,
      otherwise the first line that does. */
  lemma {:induction false} FindSuitableLineFirst(lines: seq<PL.ProductionLine>, operationType: string)
    ensures FindSuitableLine(lines, operationType).None? <==>
              forall i :: 0 <= i < |lines| ==> !(lines[i].isActive && PL.CanPerformOperation(lines[i], operationType))
    ensures FindSuitableLine(lines, operationType).Some? ==>
              exists i :: 0 <= i < |lines| && lines[i] == FindSuitableLine(lines, operationType).value &&
                          forall j :: 0 <= j < i ==> !(lines[j].isActive && PL.CanPerformOperation(lines[j], operationType))
  {
    if lines != [] && !(lines[0].isActive && PL.CanPerformOperation(lines[0], operationType)) {
      FindSuitableLineFirst(lines[1..], operationType);
      if FindSuitableLine(lines, operationType).Some? {
        var i :| 0 <= i < |lines[1..]| && lines[1..][i] == FindSuitableLine(lines, operationType).value &&
                 forall j :: 0 <= j < i ==> !(lines[1..][j].isActive && PL.CanPerformOperation(lines[1..][j], operationType));
        assert lines[i + 1] == FindSuitableLine(lines, operationType).value;
        forall j | 0 <= j < i + 1
          ensures !(lines[j].isActive && PL.CanPerformOperation(lines[j], operationType))
        {
          if j > 0 { assert lines[j] == lines[1..][j - 1]; }
        }
      } else {
        assert forall i :: 1 <= i < |lines| ==> lines[i] == lines[1..][i - 1];
      }
    }
  }

  /** `getAvailableWorkers`: the first entry for day `d`, or 5 when there is none. */
  function AvailableWorkers(avail: seq<WorkerAvailability>, d: Day): int
  {
    if avail == [] then DefaultAvailableWorkers
    else if avail[0].date == d then avail[0].availableWorkers
    else AvailableWorkers(avail[1..], d)
  }

  /** The availability of a day is the default or the count of some entry for that day. */
  lemma {:induction false} AvailableWorkersFromTable(avail: seq<WorkerAvailability>, d: Day)
    ensures AvailableWorkers(avail, d) == DefaultAvailableWorkers ||
            exists k :: 0 <= k < |avail| && avail[k].date == d && avail[k].availableWorkers == AvailableWorkers(avail, d)
  {
    if avail != [] && avail[0].date != d {
      AvailableWorkersFromTable(avail[1..], d);
      assert forall k :: 0 <= k < |avail| - 1 ==> avail[1..][k] == avail[k + 1];
    }
  }

  /** The availability found is the first entry for the day; without one it is 5. */
  lemma {:induction false} AvailableWorkersFirst(avail: seq<WorkerAvailability>, d: Day)
    ensures (forall i :: 0 <= i < |avail| ==> avail[i].date != d) ==> AvailableWorkers(avail, d) == DefaultAvailableWorkers
    ensures forall i :: 0 <= i < |avail| && avail[i].date == d && (forall j :: 0 <= j < i ==> avail[j].date != d) ==>
              AvailableWorkers(avail, d) == avail[i].availableWorkers
  {
    if avail != [] && avail[0].date != d {
      AvailableWorkersFirst(avail[1..], d);
      assert forall i :: 1 <= i < |avail| ==> avail[i] == avail[1..][i - 1];
    }
  }

  /** `isDateInRange`: `d` lies in the half-open interval `[start, end)`. */
  predicate IsDateInRange(d: Day, start: Day, end: Day)
  {
    start <= d < end
  }

  /** On whole days the half-open `[start, end)` of the scheduler is the
      inclusive range from `start` to the day before `end` of `DateRange`. */
  lemma IsDateInRangeAsDateRange(d: Day, start: Day, end: Day)
    ensures IsDateInRange(d, start, end) <==> DR.Contains(DR.DateRange(start, end - 1), d)
    ensures DR.Valid(DR.DateRange(start, end - 1)) <==> start < end
  {
  }

  // ---------------------------------------------------------------------
  // The search for a start date

  /** Every day of `[d, d + durationDays)` has at least `needed` workers. */
  predicate WindowFits(d: Day, durationDays: int, needed: int, avail: seq<WorkerAvailability>)
  {
    forall t :: d <= t < d + durationDays ==> AvailableWorkers(avail, t) >= needed
  }

  /** What `findDateWithWorkers` returns: the first day of the 100 days from
      `earliest` whose window fits, or `earliest` itself when none does. */
  predicate ChosenStart(earliest: Day, durationDays: int, needed: int, avail: seq<WorkerAvailability>, r: Day)
  {
    earliest <= r < earliest + MaxIterations &&
    (forall t :: earliest <= t < r ==> !WindowFits(t, durationDays, needed, avail)) &&
    (WindowFits(r, durationDays, needed, avail) ||
     (r == earliest && forall t :: earliest <= t < earliest + MaxIterations ==> !WindowFits(t, durationDays, needed, avail)))
  }

  /** The choice is determined by its inputs. */
  lemma ChosenStartUnique(earliest: Day, durationDays: int, needed: int, avail: seq<WorkerAvailability>, r1: Day, r2: Day)
    requires ChosenStart(earliest, durationDays, needed, avail, r1)
    requires ChosenStart(earliest, durationDays, needed, avail, r2)
    ensures r1 == r2
  {
  }

  /** `findDateWithWorkers`: scans at most 100 candidate days from `earliest`;
      a candidate is rejected at its first day short of workers. */
  method FindDateWithWorkers(earliest: Day, durationDays: int, workersNeeded: int, avail: seq<WorkerAvailability>)
    returns (date: Day)
    ensures ChosenStart(earliest, durationDays, workersNeeded, avail, date)
  {
    var current := earliest;
    var iterations := 0;
    while iterations < MaxIterations
      invariant 0 <= iterations <= MaxIterations
      invariant current == earliest + iterations
      invariant forall t :: earliest <= t < current ==> !WindowFits(t, durationDays, workersNeeded, avail)
    {
      var hasEnoughWorkers := true;
      var i := 0;
      while i < durationDays
        invariant 0 <= i
        invariant hasEnoughWorkers ==> forall t :: current <= t < current + i ==> AvailableWorkers(avail, t) >= workersNeeded
        invariant !hasEnoughWorkers ==> !WindowFits(current, durationDays, workersNeeded, avail)
      {
        var available := AvailableWorkers(avail, current + i);
        if available < workersNeeded {
          hasEnoughWorkers := false;
          break;
        }
        i := i + 1;
      }
      if hasEnoughWorkers {
        return current;
      }
      current := current + 1;
      iterations := iterations + 1;
    }
    return earliest;
  }

  // ---------------------------------------------------------------------
  // Resource usage

  /** The workers busy on day `d`: the sum over processes covering `d`. */
  function AssignedOn(ps: seq<ScheduledProcess>, d: Day): int
  {
    if ps == [] then 0
    else
      var p := ps[|ps| - 1];
      AssignedOn(ps[..|ps| - 1], d) + (if IsDateInRange(d, p.startDate, p.endDate) then p.workersAssigned else 0)
  }

  /** Nobody is busy on a day no process covers; with non-negative
      crews nobody is busy a negative number of workers. */
  lemma {:induction false} AssignedOnBounds(ps: seq<ScheduledProcess>, d: Day)
    ensures (forall k :: 0 <= k < |ps| ==> !IsDateInRange(d, ps[k].startDate, ps[k].endDate)) ==> AssignedOn(ps, d) == 0
    ensures (forall k :: 0 <= k < |ps| ==> ps[k].workersAssigned >= 0) ==> AssignedOn(ps, d) >= 0
  {
    if ps != [] {
      AssignedOnBounds(ps[..|ps| - 1], d);
    }
  }

  /** The busy count is additive over a split of the process list. */
  lemma {:induction false} AssignedOnAppend(ps: seq<ScheduledProcess>, qs: seq<ScheduledProcess>, d: Day)
    ensures AssignedOn(ps + qs, d) == AssignedOn(ps, d) + AssignedOn(qs, d)
  {
    if qs == [] {
      assert ps + qs == ps;
    } else {
      var n := |qs| - 1;
      assert (ps + qs)[..|ps + qs| - 1] == ps + qs[..n];
      assert (ps + qs)[|ps + qs| - 1] == qs[n];
      AssignedOnAppend(ps, qs[..n], d);
    }
  }

  /** Each covering process contributes its crew: the day's total is at least
      any one covering crew when crews are non-negative. */
  lemma {:induction false} AssignedOnCovers(ps: seq<ScheduledProcess>, d: Day, k: nat)
    requires k < |ps| && IsDateInRange(d, ps[k].startDate, ps[k].endDate)
    requires forall i :: 0 <= i < |ps| ==> ps[i].workersAssigned >= 0
    ensures AssignedOn(ps, d) >= ps[k].workersAssigned
  {
    var n := |ps| - 1;
    AssignedOnBounds(ps[..n], d);
    if k < n {
      AssignedOnCovers(ps[..n], d, k);
    }
  }

  /** The usage entry of day `d`: its availability, the summed crews of the
      processes covering it, and the overload flag `busy > available`. */
  function UsageOn(ps: seq<ScheduledProcess>, avail: seq<WorkerAvailability>, d: Day): (u: DailyResourceUsage)
    ensures u.isOverloaded <==> u.assignedWorkers > u.availableWorkers
    ensures (forall k :: 0 <= k < |ps| ==> !IsDateInRange(d, ps[k].startDate, ps[k].endDate)) && u.availableWorkers >= 0 ==> !u.isOverloaded
  {
    AssignedOnBounds(ps, d);
    var available := AvailableWorkers(avail, d);
    var busy := AssignedOn(ps, d);
    DailyResourceUsage(d, available, busy, busy > available)
  }

  /** `calculateResourceUsage`: one entry per horizon day `startDate + i`. */
  method CalculateResourceUsage(ps: seq<ScheduledProcess>, avail: seq<WorkerAvailability>, startDate: Day, horizonDays: int)
    returns (usage: seq<DailyResourceUsage>)
    ensures |usage| == Max(0, horizonDays)
    ensures forall i :: 0 <= i < |usage| ==> usage[i] == UsageOn(ps, avail, startDate + i)
  {
    usage := [];
    var i := 0;
    while i < horizonDays
      invariant 0 <= i && |usage| == i
      invariant i <= Max(0, horizonDays)
      invariant forall k :: 0 <= k < i ==> usage[k] == UsageOn(ps, avail, startDate + k)
    {
      var date := startDate + i;
      var available := AvailableWorkers(avail, date);
      var busy := 0;
      var j := 0;
      while j < |ps|
        invariant 0 <= j <= |ps|
        invariant busy == AssignedOn(ps[..j], date)
      {
        assert ps[..j + 1][..j] == ps[..j];
        if IsDateInRange(date, ps[j].startDate, ps[j].endDate) {
          busy := busy + ps[j].workersAssigned;
        }
        j := j + 1;
      }
      assert ps[..|ps|] == ps;
      usage := usage + [DailyResourceUsage(date, available, busy, busy > available)];
      i := i + 1;
    }
  }

  // ---------------------------------------------------------------------
  // What the scheduler has emitted so far

  /** `initializeLineAvailability`: every configured line is free from `startDate`. */
  method InitializeLineAvailability(lines: seq<PL.ProductionLine>, startDate: Day) returns (m: map<string, Day>)
    ensures forall id :: id in m <==> exists i :: 0 <= i < |lines| && lines[i].id == id
    ensures forall id :: id in m ==> m[id] == startDate
  {
    m := map[];
    var i := 0;
    while i < |lines|
      invariant 0 <= i <= |lines|
      invariant forall id :: id in m <==> exists k :: 0 <= k < i && lines[k].id == id
      invariant forall id :: id in m ==> m[id] == startDate
    {
      m := m[lines[i].id := startDate];
      i := i + 1;
    }
  }

  /** The step indices of `steps[..n]` for which some line is suitable, ascending. */
  function MatchedSteps(steps: seq<PC.ProcessConfig>, lines: seq<PL.ProductionLine>, n: nat): seq<int>
    requires n <= |steps|
  {
    if n == 0 then []
    else MatchedSteps(steps, lines, n - 1) + (if FindSuitableLine(lines, steps[n - 1].operationType).Some? then [n - 1] else [])
  }

  /** `MatchedSteps` lists exactly the step indices below `n` that have a
      suitable line, each once, in increasing order. */
  lemma {:induction false} MatchedStepsSpec(steps: seq<PC.ProcessConfig>, lines: seq<PL.ProductionLine>, n: nat)
    requires n <= |steps|
    ensures var r := MatchedSteps(steps, lines, n);
            (forall x :: 0 <= x < |r| ==> 0 <= r[x] < n && FindSuitableLine(lines, steps[r[x]].operationType).Some?) &&
            (forall i :: 0 <= i < n && FindSuitableLine(lines, steps[i].operationType).Some? ==> i in r) &&
            (forall x, y :: 0 <= x < y < |r| ==> r[x] < r[y])
  {
    if n > 0 {
      MatchedStepsSpec(steps, lines, n - 1);
      var prev := MatchedSteps(steps, lines, n - 1);
      var r := MatchedSteps(steps, lines, n);
      assert r == prev + (if FindSuitableLine(lines, steps[n - 1].operationType).Some? then [n - 1] else []);
      assert forall x :: 0 <= x < |prev| ==> r[x] == prev[x];
    }
  }

  /** The step indices the scheduler must emit for an order: those of its
      model that have a suitable line, in recipe order; none without a model. */
  function ExpectedIndices(input: SchedulingInput, o: PO.ProductionOrder): seq<int>
  {
    match FindModel(input.models, o.modelType)
    case None => []
    case Some(m) => MatchedSteps(m.processes, input.lines, |m.processes|)
  }

  /** The step indices of the processes in `ps` that `owner` attributes to order `j`. */
  function OwnedIndices(ps: seq<ScheduledProcess>, owner: seq<nat>, j: nat): seq<int>
    requires |owner| == |ps|
  {
    if ps == [] then []
    else
      var n := |ps| - 1;
      OwnedIndices(ps[..n], owner[..n], j) + (if owner[n] == j then [ps[n].processIndex] else [])
  }

  /** The end of the last process in `ps` attributed to order `j`, or `s`. */
  function LastOrderEnd(ps: seq<ScheduledProcess>, owner: seq<nat>, j: nat, s: Day): Day
    requires |owner| == |ps|
  {
    if ps == [] then s
    else
      var n := |ps| - 1;
      if owner[n] == j then ps[n].endDate else LastOrderEnd(ps[..n], owner[..n], j, s)
  }

  /** The end of the last process in `ps` on line `lineId`, or `s`. */
  function LastLineEnd(ps: seq<ScheduledProcess>, lineId: string, s: Day): Day
  {
    if ps == [] then s
    else
      var n := |ps| - 1;
      if ps[n].productionLineId == lineId then ps[n].endDate else LastLineEnd(ps[..n], lineId, s)
  }

  lemma SnocPrefix<T>(s: seq<T>, x: T)
    ensures (s + [x])[..|s|] == s
  {
  }

  lemma {:induction false} NotOwned(ps: seq<ScheduledProcess>, owner: seq<nat>, j: nat, s: Day)
    requires |owner| == |ps|
    requires forall k :: 0 <= k < |owner| ==> owner[k] != j
    ensures OwnedIndices(ps, owner, j) == []
    ensures LastOrderEnd(ps, owner, j, s) == s
  {
    if ps != [] {
      NotOwned(ps[..|ps| - 1], owner[..|ps| - 1], j, s);
    }
  }

  /** Step `p.processIndex` of the model of order `sorted[j]`, placed as the
      source places it: the order's fields, the step's name, the chosen
      line's id and crew, and an end `durationDays` after the start. */
  ghost predicate WellFormed(input: SchedulingInput, sorted: seq<PO.ProductionOrder>, p: ScheduledProcess, j: nat)
  {
    j < |sorted| && p.orderId == sorted[j].id && p.modelType == sorted[j].modelType &&
    var m := FindModel(input.models, sorted[j].modelType);
    m.Some? && 0 <= p.processIndex < |m.value.processes| &&
    var step := m.value.processes[p.processIndex];
    var line := FindSuitableLine(input.lines, step.operationType);
    line.Some? && p.processName == step.processName && p.productionLineId == line.value.id &&
    p.workersAssigned == line.value.workersRequired && p.endDate == p.startDate + step.durationDays
  }

  /** Process `k` starts where `findDateWithWorkers` puts it, searching from
      the later of its order's previous end and its line's previous end
      (both `s` when there is none) among the processes emitted before it. */
  ghost predicate StartChosen(ps: seq<ScheduledProcess>, owner: seq<nat>, k: nat, avail: seq<WorkerAvailability>, s: Day)
  {
    k < |ps| && |owner| == |ps| &&
    var p := ps[k];
    ChosenStart(Max(LastOrderEnd(ps[..k], owner[..k], owner[k], s), LastLineEnd(ps[..k], p.productionLineId, s)),
                p.endDate - p.startDate, p.workersAssigned, avail, p.startDate)
  }

  /** Processes of one order do not overlap and follow the recipe order. */
  ghost predicate OrderChained(ps: seq<ScheduledProcess>, owner: seq<nat>)
  {
    |owner| == |ps| &&
    forall a, b :: 0 <= a < b < |ps| && owner[a] == owner[b] ==>
      ps[a].endDate <= ps[b].startDate && ps[a].processIndex < ps[b].processIndex
  }

  /** Processes on one line do not overlap. */
  ghost predicate LineDisjoint(ps: seq<ScheduledProcess>)
  {
    forall a, b :: 0 <= a < b < |ps| && ps[a].productionLineId == ps[b].productionLineId ==>
      ps[a].endDate <= ps[b].startDate
  }

  /** Every step of every model is a valid `ProcessConfig` (durations are positive). */
  ghost predicate ModelsValid(models: seq<TM.TrainModel>)
  {
    forall i :: 0 <= i < |models| ==> forall k :: 0 <= k < |models[i].processes| ==> PC.Valid(models[i].processes[k])
  }

  ghost predicate HasModel(input: SchedulingInput, o: PO.ProductionOrder)
  {
    FindModel(input.models, o.modelType).Some?
  }

  /** No order after position `j` with the same id has a model, so `j` is the
      one whose completion date the map keeps. */
  ghost predicate LastWithId(input: SchedulingInput, sorted: seq<PO.ProductionOrder>, j: nat, bound: nat)
    requires j < |sorted| && bound <= |sorted|
  {
    forall j2 :: j < j2 < bound && sorted[j2].id == sorted[j].id ==> !HasModel(input, sorted[j2])
  }

  lemma SnocFacts(ps: seq<ScheduledProcess>, owner: seq<nat>, p: ScheduledProcess, j: nat, s: Day)
    requires |owner| == |ps|
    ensures forall j2: nat :: OwnedIndices(ps + [p], owner + [j], j2) ==
              OwnedIndices(ps, owner, j2) + (if j2 == j then [p.processIndex] else [])
    ensures forall j2: nat :: LastOrderEnd(ps + [p], owner + [j], j2, s) ==
              if j2 == j then p.endDate else LastOrderEnd(ps, owner, j2, s)
    ensures forall id :: LastLineEnd(ps + [p], id, s) ==
              if p.productionLineId == id then p.endDate else LastLineEnd(ps, id, s)
  {
    SnocPrefix(ps, p);
    SnocPrefix(owner, j);
  }

  /** Appending a process leaves how earlier processes were placed unchanged. */
  lemma StartChosenSnoc(ps: seq<ScheduledProcess>, owner: seq<nat>, p: ScheduledProcess, j: nat,
                        avail: seq<WorkerAvailability>, s: Day)
    requires |owner| == |ps|
    requires forall k :: 0 <= k < |ps| ==> StartChosen(ps, owner, k, avail, s)
    ensures forall k :: 0 <= k < |ps| ==> StartChosen(ps + [p], owner + [j], k, avail, s)
  {
    forall k | 0 <= k < |ps|
      ensures StartChosen(ps + [p], owner + [j], k, avail, s)
    {
      assert (ps + [p])[..k] == ps[..k];
      assert (owner + [j])[..k] == owner[..k];
      assert StartChosen(ps, owner, k, avail, s);
    }
  }

  // ---------------------------------------------------------------------
  // The scheduling loop

  /** The process the source pushes for step `i` of order `o` on `line`. */
  function Emit(o: PO.ProductionOrder, step: PC.ProcessConfig, i: int, line: PL.ProductionLine, start: Day): (p: ScheduledProcess)
    ensures p.endDate - p.startDate == step.durationDays
  {
    ScheduledProcess(o.id, o.modelType, step.processName, i, line.id, start, start + step.durationDays, line.workersRequired)
  }

  /** Every entry of `owner` is below `bound`. */
  ghost predicate OwnedBelow(owner: seq<nat>, bound: nat)
  {
    forall k :: 0 <= k < |owner| ==> owner[k] < bound
  }

  /** Orders are served one after another in sorted-list order. */
  ghost predicate Served(owner: seq<nat>)
  {
    forall a, b :: 0 <= a < b < |owner| ==> owner[a] <= owner[b]
  }

  ghost predicate AllWellFormed(input: SchedulingInput, sorted: seq<PO.ProductionOrder>, ps: seq<ScheduledProcess>, owner: seq<nat>)
  {
    |owner| == |ps| && forall k :: 0 <= k < |ps| ==> WellFormed(input, sorted, ps[k], owner[k])
  }

  ghost predicate AllStartsChosen(ps: seq<ScheduledProcess>, owner: seq<nat>, avail: seq<WorkerAvailability>, s: Day)
  {
    forall k :: 0 <= k < |ps| ==> StartChosen(ps, owner, k, avail, s)
  }

  /** No process starts before the schedule's start date or ends before it starts. */
  ghost predicate WithinSchedule(ps: seq<ScheduledProcess>, s: Day)
  {
    forall k :: 0 <= k < |ps| ==> s <= ps[k].startDate <= ps[k].endDate
  }

  /** The line table holds every configured line's previous end. */
  ghost predicate LinesTracked(input: SchedulingInput, ps: seq<ScheduledProcess>, lineNext: map<string, Day>)
  {
    (forall id :: id in lineNext <==> exists i :: 0 <= i < |input.lines| && input.lines[i].id == id) &&
    (forall id :: id in lineNext ==> lineNext[id] == LastLineEnd(ps, id, input.startDate)) &&
    (forall k :: 0 <= k < |ps| ==> ps[k].productionLineId in lineNext && ps[k].endDate <= lineNext[ps[k].productionLineId])
  }

  /** The completion-date map after the orders before position `n`: each
      order with a model writes its id with the end of its last process, a
      later order with the same id overwriting an earlier one. */
  ghost function Completions(input: SchedulingInput, sorted: seq<PO.ProductionOrder>, ps: seq<ScheduledProcess>,
                             owner: seq<nat>, n: nat): map<string, Day>
    requires n <= |sorted| && |owner| == |ps|
  {
    if n == 0 then map[]
    else
      var c := Completions(input, sorted, ps, owner, n - 1);
      if HasModel(input, sorted[n - 1]) then c[sorted[n - 1].id := LastOrderEnd(ps, owner, n - 1, input.startDate)] else c
  }

  /** The map holds exactly the ids of the orders before `n` that have a model. */
  lemma {:induction false} CompletionsKeys(input: SchedulingInput, sorted: seq<PO.ProductionOrder>,
                                           ps: seq<ScheduledProcess>, owner: seq<nat>, n: nat)
    requires n <= |sorted| && |owner| == |ps|
    ensures forall id :: id in Completions(input, sorted, ps, owner, n) <==>
              exists j :: 0 <= j < n && HasModel(input, sorted[j]) && sorted[j].id == id
  {
    if n > 0 {
      CompletionsKeys(input, sorted, ps, owner, n - 1);
      var c := Completions(input, sorted, ps, owner, n);
      forall id | id in c
        ensures exists j :: 0 <= j < n && HasModel(input, sorted[j]) && sorted[j].id == id
      {
        if HasModel(input, sorted[n - 1]) && sorted[n - 1].id == id {
          assert 0 <= n - 1 < n && HasModel(input, sorted[n - 1]) && sorted[n - 1].id == id;
        } else {
          assert id in Completions(input, sorted, ps, owner, n - 1);
        }
      }
    }
  }

  /** For each order before `n` that has a model and that no later order
      with its id overwrites, the map holds the end of its last process. */
  lemma {:induction false} CompletionsValues(input: SchedulingInput, sorted: seq<PO.ProductionOrder>,
                                             ps: seq<ScheduledProcess>, owner: seq<nat>, n: nat)
    requires n <= |sorted| && |owner| == |ps|
    ensures var c := Completions(input, sorted, ps, owner, n);
            forall j :: 0 <= j < n && HasModel(input, sorted[j]) && LastWithId(input, sorted, j, n) ==>
              sorted[j].id in c && c[sorted[j].id] == LastOrderEnd(ps, owner, j, input.startDate)
  {
    if n > 0 {
      CompletionsValues(input, sorted, ps, owner, n - 1);
      var c := Completions(input, sorted, ps, owner, n);
      forall j | 0 <= j < n && HasModel(input, sorted[j]) && LastWithId(input, sorted, j, n)
        ensures sorted[j].id in c && c[sorted[j].id] == LastOrderEnd(ps, owner, j, input.startDate)
      {
        if j < n - 1 {
          assert LastWithId(input, sorted, j, n - 1);
        }
      }
    }
  }

  /** Appending a process of order `j` does not change the dates of the orders before `j`. */
  lemma {:induction false} CompletionsSnoc(input: SchedulingInput, sorted: seq<PO.ProductionOrder>, ps: seq<ScheduledProcess>,
                                            owner: seq<nat>, p: ScheduledProcess, j: nat, n: nat)
    requires n <= j && n <= |sorted| && |owner| == |ps|
    ensures Completions(input, sorted, ps + [p], owner + [j], n) == Completions(input, sorted, ps, owner, n)
  {
    if n > 0 {
      CompletionsSnoc(input, sorted, ps, owner, p, j, n - 1);
      SnocFacts(ps, owner, p, j, input.startDate);
    }
  }

  /** The completion map of `schedule` after the orders before position `oi`. */
  ghost predicate CompletionsRecorded(input: SchedulingInput, sorted: seq<PO.ProductionOrder>, ps: seq<ScheduledProcess>,
                                      owner: seq<nat>, completion: map<string, Day>, oi: nat)
  {
    oi <= |sorted| && |owner| == |ps| && completion == Completions(input, sorted, ps, owner, oi)
  }

  /** Orders before position `oi` have emitted exactly their expected steps. */
  ghost predicate OrdersDone(input: SchedulingInput, sorted: seq<PO.ProductionOrder>, ps: seq<ScheduledProcess>, owner: seq<nat>, oi: nat)
  {
    oi <= |sorted| && |owner| == |ps| &&
    forall j :: 0 <= j < oi ==> OwnedIndices(ps, owner, j) == ExpectedIndices(input, sorted[j])
  }

  /** Order `oi`, whose model's recipe is `steps`, is placed up to step `i`. */
  ghost predicate OrderInProgress(input: SchedulingInput, ps: seq<ScheduledProcess>, owner: seq<nat>, oi: nat,
                                  steps: seq<PC.ProcessConfig>, i: nat, previousEnd: Day)
  {
    |owner| == |ps| && i <= |steps| &&
    OwnedIndices(ps, owner, oi) == MatchedSteps(steps, input.lines, i) &&
    previousEnd == LastOrderEnd(ps, owner, oi, input.startDate) && input.startDate <= previousEnd &&
    forall k :: 0 <= k < |ps| && owner[k] == oi ==> ps[k].endDate <= previousEnd && ps[k].processIndex < i
  }

  lemma EmitWellFormed(input: SchedulingInput, sorted: seq<PO.ProductionOrder>, ps: seq<ScheduledProcess>, owner: seq<nat>,
                       oi: nat, m: TM.TrainModel, i: nat, line: PL.ProductionLine, start: Day)
    requires oi < |sorted| && FindModel(input.models, sorted[oi].modelType) == Some(m) && i < |m.processes|
    requires FindSuitableLine(input.lines, m.processes[i].operationType) == Some(line)
    requires AllWellFormed(input, sorted, ps, owner) && OwnedBelow(owner, oi + 1) && Served(owner)
    ensures var p := Emit(sorted[oi], m.processes[i], i, line, start);
            AllWellFormed(input, sorted, ps + [p], owner + [oi]) && OwnedBelow(owner + [oi], oi + 1) && Served(owner + [oi])
  {
    var p := Emit(sorted[oi], m.processes[i], i, line, start);
    assert WellFormed(input, sorted, p, oi);
    assert forall k :: 0 <= k < |ps| ==> (ps + [p])[k] == ps[k] && (owner + [oi])[k] == owner[k];
  }

  lemma EmitStartChosen(ps: seq<ScheduledProcess>, owner: seq<nat>, oi: nat, p: ScheduledProcess,
                        avail: seq<WorkerAvailability>, s: Day, previousEnd: Day, lineNextAvailable: Day)
    requires |owner| == |ps| && AllStartsChosen(ps, owner, avail, s)
    requires previousEnd == LastOrderEnd(ps, owner, oi, s)
    requires lineNextAvailable == LastLineEnd(ps, p.productionLineId, s)
    requires ChosenStart(Max(previousEnd, lineNextAvailable), p.endDate - p.startDate, p.workersAssigned, avail, p.startDate)
    ensures AllStartsChosen(ps + [p], owner + [oi], avail, s)
  {
    StartChosenSnoc(ps, owner, p, oi, avail, s);
    SnocPrefix(ps, p);
    SnocPrefix(owner, oi);
    assert StartChosen(ps + [p], owner + [oi], |ps|, avail, s);
  }

  lemma EmitChained(ps: seq<ScheduledProcess>, owner: seq<nat>, oi: nat, p: ScheduledProcess, previousEnd: Day, i: int)
    requires OrderChained(ps, owner)
    requires forall k :: 0 <= k < |ps| && owner[k] == oi ==> ps[k].endDate <= previousEnd && ps[k].processIndex < i
    requires previousEnd <= p.startDate && p.processIndex == i
    ensures OrderChained(ps + [p], owner + [oi])
  {
    var ps', owner' := ps + [p], owner + [oi];
    forall a, b | 0 <= a < b < |ps'| && owner'[a] == owner'[b]
      ensures ps'[a].endDate <= ps'[b].startDate && ps'[a].processIndex < ps'[b].processIndex
    {
      if b == |ps| {
        assert owner[a] == oi;
      }
    }
  }

  lemma EmitDisjoint(ps: seq<ScheduledProcess>, p: ScheduledProcess, lineNextAvailable: Day)
    requires LineDisjoint(ps)
    requires forall k :: 0 <= k < |ps| && ps[k].productionLineId == p.productionLineId ==> ps[k].endDate <= lineNextAvailable
    requires lineNextAvailable <= p.startDate
    ensures LineDisjoint(ps + [p])
  {
    var ps' := ps + [p];
    forall a, b | 0 <= a < b < |ps'| && ps'[a].productionLineId == ps'[b].productionLineId
      ensures ps'[a].endDate <= ps'[b].startDate
    {
      if b == |ps| {
        assert ps[a].endDate <= lineNextAvailable;
      }
    }
  }

  /** Emitting step `i` of order `oi` on `line` keeps the line table. */
  lemma EmitLinesTracked(input: SchedulingInput, ps: seq<ScheduledProcess>, p: ScheduledProcess,
                         lineNext: map<string, Day>, line: PL.ProductionLine)
    requires LinesTracked(input, ps, lineNext)
    requires p.productionLineId == line.id && line.id in lineNext && lineNext[line.id] <= p.startDate <= p.endDate
    ensures LinesTracked(input, ps + [p], lineNext[line.id := p.endDate])
  {
    var ps' := ps + [p];
    var lineNext' := lineNext[line.id := p.endDate];
    forall id | id in lineNext'
      ensures lineNext'[id] == LastLineEnd(ps', id, input.startDate)
    {
      SnocPrefix(ps, p);
    }
    forall k | 0 <= k < |ps'|
      ensures ps'[k].productionLineId in lineNext' && ps'[k].endDate <= lineNext'[ps'[k].productionLineId]
    {
      if k < |ps| {
        assert ps'[k] == ps[k];
      }
    }
  }

  /** Emitting step `i` of order `oi` keeps the order's progress and leaves
      the earlier orders' records unchanged. */
  lemma EmitProgress(input: SchedulingInput, sorted: seq<PO.ProductionOrder>, ps: seq<ScheduledProcess>, owner: seq<nat>,
                     completion: map<string, Day>, oi: nat, m: TM.TrainModel, i: nat, previousEnd: Day, p: ScheduledProcess)
    requires oi < |sorted| && i < |m.processes| && |owner| == |ps|
    requires FindSuitableLine(input.lines, m.processes[i].operationType).Some?
    requires p.processIndex == i && previousEnd <= p.startDate <= p.endDate
    requires OrdersDone(input, sorted, ps, owner, oi) && CompletionsRecorded(input, sorted, ps, owner, completion, oi)
    requires OrderInProgress(input, ps, owner, oi, m.processes, i, previousEnd)
    ensures OrdersDone(input, sorted, ps + [p], owner + [oi], oi)
    ensures CompletionsRecorded(input, sorted, ps + [p], owner + [oi], completion, oi)
    ensures OrderInProgress(input, ps + [p], owner + [oi], oi, m.processes, i + 1, p.endDate)
  {
    SnocFacts(ps, owner, p, oi, input.startDate);
    CompletionsSnoc(input, sorted, ps, owner, p, oi, oi);
  }

  /** A step without a suitable line is skipped but consumes its index. */
  lemma SkipStep(input: SchedulingInput, ps: seq<ScheduledProcess>, owner: seq<nat>, oi: nat,
                 steps: seq<PC.ProcessConfig>, i: nat, previousEnd: Day)
    requires i < |steps| && FindSuitableLine(input.lines, steps[i].operationType).None?
    requires OrderInProgress(input, ps, owner, oi, steps, i, previousEnd)
    ensures OrderInProgress(input, ps, owner, oi, steps, i + 1, previousEnd)
  {
  }

  /** Before its first step, an order owns nothing and its chain starts at the start date. */
  lemma BeginOrder(input: SchedulingInput, ps: seq<ScheduledProcess>, owner: seq<nat>, oi: nat, steps: seq<PC.ProcessConfig>)
    requires |owner| == |ps| && OwnedBelow(owner, oi)
    ensures OwnedBelow(owner, oi + 1)
    ensures OrderInProgress(input, ps, owner, oi, steps, 0, input.startDate)
  {
    NotOwned(ps, owner, oi, input.startDate);
  }

  /** After its last step, an order has emitted its expected steps and its
      completion date is its chain's end. */
  lemma FinishOrder(input: SchedulingInput, sorted: seq<PO.ProductionOrder>, ps: seq<ScheduledProcess>, owner: seq<nat>,
                    completion: map<string, Day>, oi: nat, m: TM.TrainModel, previousEnd: Day)
    requires oi < |sorted| && FindModel(input.models, sorted[oi].modelType) == Some(m)
    requires OrdersDone(input, sorted, ps, owner, oi) && CompletionsRecorded(input, sorted, ps, owner, completion, oi)
    requires OrderInProgress(input, ps, owner, oi, m.processes, |m.processes|, previousEnd)
    ensures OrdersDone(input, sorted, ps, owner, oi + 1)
    ensures CompletionsRecorded(input, sorted, ps, owner, completion[sorted[oi].id := previousEnd], oi + 1)
  {
    assert HasModel(input, sorted[oi]);
  }

  /** An order without a model emits nothing and records no completion date. */
  lemma SkipOrder(input: SchedulingInput, sorted: seq<PO.ProductionOrder>, ps: seq<ScheduledProcess>, owner: seq<nat>,
                  completion: map<string, Day>, oi: nat)
    requires oi < |sorted| && FindModel(input.models, sorted[oi].modelType).None?
    requires OwnedBelow(owner, oi)
    requires OrdersDone(input, sorted, ps, owner, oi) && CompletionsRecorded(input, sorted, ps, owner, completion, oi)
    ensures OwnedBelow(owner, oi + 1)
    ensures OrdersDone(input, sorted, ps, owner, oi + 1) && CompletionsRecorded(input, sorted, ps, owner, completion, oi + 1)
  {
    NotOwned(ps, owner, oi, input.startDate);
  }

  /** What holds of the processes once the orders before `oi` are done,
      while the processes are owned by orders below `bound`: serving order,
      fields, start dates, the two no-overlap rules, and each finished
      order's exact set of steps. */
  ghost predicate Progress(input: SchedulingInput, sorted: seq<PO.ProductionOrder>, ps: seq<ScheduledProcess>,
                           owner: seq<nat>, oi: nat, bound: nat)
  {
    |owner| == |ps| && OwnedBelow(owner, bound) && Served(owner) && AllWellFormed(input, sorted, ps, owner) &&
    AllStartsChosen(ps, owner, input.workerAvailability, input.startDate) &&
    OrderChained(ps, owner) && LineDisjoint(ps) && WithinSchedule(ps, input.startDate) &&
    OrdersDone(input, sorted, ps, owner, oi)
  }

  /** The outcome `schedule` promises for the due-date-sorted orders `sorted`. */
  ghost predicate Placed(input: SchedulingInput, sorted: seq<PO.ProductionOrder>, ps: seq<ScheduledProcess>, owner: seq<nat>)
  {
    Progress(input, sorted, ps, owner, |sorted|, |sorted|)
  }

  /** The loop state: the processes so far, the line table and the completion map. */
  ghost predicate StateOk(input: SchedulingInput, sorted: seq<PO.ProductionOrder>, ps: seq<ScheduledProcess>,
                          owner: seq<nat>, lineNext: map<string, Day>, completion: map<string, Day>, oi: nat, bound: nat)
  {
    Progress(input, sorted, ps, owner, oi, bound) &&
    LinesTracked(input, ps, lineNext) && CompletionsRecorded(input, sorted, ps, owner, completion, oi)
  }

  /** The model found for an order is one of the configured models. */
  lemma FoundModelValid(models: seq<TM.TrainModel>, modelType: string)
    requires ModelsValid(models) && FindModel(models, modelType).Some?
    ensures var m := FindModel(models, modelType).value;
            forall k :: 0 <= k < |m.processes| ==> PC.Valid(m.processes[k])
  {
    FindModelFirst(models, modelType);
    var mi :| 0 <= mi < |models| && models[mi] == FindModel(models, modelType).value;
  }

  /** Nothing is placed yet; every configured line is free from the start date. */
  lemma InitialState(input: SchedulingInput, sorted: seq<PO.ProductionOrder>, lineNext: map<string, Day>)
    requires forall id :: id in lineNext <==> exists k :: 0 <= k < |input.lines| && input.lines[k].id == id
    requires forall id :: id in lineNext ==> lineNext[id] == input.startDate
    ensures StateOk(input, sorted, [], [], lineNext, map[], 0, 0)
  {
  }

  /** Placing step `i` of order `oi` on `line` at a start chosen from the
      order's and the line's previous ends keeps the loop state. */
  lemma EmitPreserves(input: SchedulingInput, sorted: seq<PO.ProductionOrder>, ps: seq<ScheduledProcess>, owner: seq<nat>,
                      lineNext: map<string, Day>, completion: map<string, Day>, oi: nat, m: TM.TrainModel, i: nat,
                      previousEnd: Day, line: PL.ProductionLine, lineNextAvailable: Day, start: Day)
    requires oi < |sorted| && FindModel(input.models, sorted[oi].modelType) == Some(m)
    requires i < |m.processes| && PC.Valid(m.processes[i])
    requires FindSuitableLine(input.lines, m.processes[i].operationType) == Some(line)
    requires StateOk(input, sorted, ps, owner, lineNext, completion, oi, oi + 1)
    requires OrderInProgress(input, ps, owner, oi, m.processes, i, previousEnd)
    requires lineNextAvailable == if line.id in lineNext then lineNext[line.id] else input.startDate
    requires ChosenStart(Max(previousEnd, lineNextAvailable), m.processes[i].durationDays, line.workersRequired,
                         input.workerAvailability, start)
    ensures var p := Emit(sorted[oi], m.processes[i], i, line, start);
            StateOk(input, sorted, ps + [p], owner + [oi], lineNext[line.id := p.endDate], completion, oi, oi + 1) &&
            OrderInProgress(input, ps + [p], owner + [oi], oi, m.processes, i + 1, p.endDate)
  {
    var p := Emit(sorted[oi], m.processes[i], i, line, start);
    FindSuitableLineFirst(input.lines, m.processes[i].operationType);
    assert line.id in lineNext;
    EmitKeepsProgress(input, sorted, ps, owner, lineNext, completion, oi, m, i, previousEnd, line, lineNextAvailable, start);
    EmitLinesTracked(input, ps, p, lineNext, line);
  }

  /** The part of `EmitPreserves` that does not concern the line table. */
  lemma EmitKeepsProgress(input: SchedulingInput, sorted: seq<PO.ProductionOrder>, ps: seq<ScheduledProcess>, owner: seq<nat>,
                          lineNext: map<string, Day>, completion: map<string, Day>, oi: nat, m: TM.TrainModel, i: nat,
                          previousEnd: Day, line: PL.ProductionLine, lineNextAvailable: Day, start: Day)
    requires oi < |sorted| && FindModel(input.models, sorted[oi].modelType) == Some(m)
    requires i < |m.processes| && PC.Valid(m.processes[i])
    requires FindSuitableLine(input.lines, m.processes[i].operationType) == Some(line)
    requires StateOk(input, sorted, ps, owner, lineNext, completion, oi, oi + 1) && line.id in lineNext
    requires OrderInProgress(input, ps, owner, oi, m.processes, i, previousEnd)
    requires lineNextAvailable == lineNext[line.id]
    requires ChosenStart(Max(previousEnd, lineNextAvailable), m.processes[i].durationDays, line.workersRequired,
                         input.workerAvailability, start)
    ensures var p := Emit(sorted[oi], m.processes[i], i, line, start);
            Progress(input, sorted, ps + [p], owner + [oi], oi, oi + 1) &&
            CompletionsRecorded(input, sorted, ps + [p], owner + [oi], completion, oi) &&
            OrderInProgress(input, ps + [p], owner + [oi], oi, m.processes, i + 1, p.endDate)
  {
    var p := Emit(sorted[oi], m.processes[i], i, line, start);
    EmitWellFormed(input, sorted, ps, owner, oi, m, i, line, start);
    EmitStartChosen(ps, owner, oi, p, input.workerAvailability, input.startDate, previousEnd, lineNextAvailable);
    EmitChained(ps, owner, oi, p, previousEnd, i);
    EmitDisjoint(ps, p, lineNextAvailable);
    EmitProgress(input, sorted, ps, owner, completion, oi, m, i, previousEnd, p);
    EmitWithin(ps, p, input.startDate);
  }

  lemma EmitWithin(ps: seq<ScheduledProcess>, p: ScheduledProcess, s: Day)
    requires WithinSchedule(ps, s) && s <= p.startDate <= p.endDate
    ensures WithinSchedule(ps + [p], s)
  {
    assert forall k :: 0 <= k < |ps| ==> (ps + [p])[k] == ps[k];
  }

  /** One iteration of the step loop of `schedule` (lines 83-120). */
  method PlaceStep(input: SchedulingInput, sorted: seq<PO.ProductionOrder>, ps: seq<ScheduledProcess>, ghost owner: seq<nat>,
                   lineNext: map<string, Day>, ghost completion: map<string, Day>, oi: nat, m: TM.TrainModel, i: nat,
                   previousEnd: Day)
    returns (ps': seq<ScheduledProcess>, ghost owner': seq<nat>, lineNext': map<string, Day>, previousEnd': Day)
    requires oi < |sorted| && FindModel(input.models, sorted[oi].modelType) == Some(m)
    requires i < |m.processes| && PC.Valid(m.processes[i])
    requires StateOk(input, sorted, ps, owner, lineNext, completion, oi, oi + 1)
    requires OrderInProgress(input, ps, owner, oi, m.processes, i, previousEnd)
    ensures StateOk(input, sorted, ps', owner', lineNext', completion, oi, oi + 1)
    ensures OrderInProgress(input, ps', owner', oi, m.processes, i + 1, previousEnd')
  {
    var step := m.processes[i];
    var line := FindSuitableLine(input.lines, step.operationType);
    if line.None? {
      SkipStep(input, ps, owner, oi, m.processes, i, previousEnd);
      return ps, owner, lineNext, previousEnd;
    }
    var lineId := line.value.id;
    var lineNextAvailable := if lineId in lineNext then lineNext[lineId] else input.startDate;
    var earliestStart := Max(previousEnd, lineNextAvailable);
    var startDate := FindDateWithWorkers(earliestStart, step.durationDays, line.value.workersRequired, input.workerAvailability);
    EmitPreserves(input, sorted, ps, owner, lineNext, completion, oi, m, i, previousEnd, line.value, lineNextAvailable, startDate);
    var p := Emit(sorted[oi], step, i, line.value, startDate);
    ps' := ps + [p];
    owner' := owner + [oi];
    lineNext' := lineNext[lineId := p.endDate];
    previousEnd' := p.endDate;
  }

  /** One iteration of the order loop of `schedule` (lines 73-124). */
  method ScheduleOrder(input: SchedulingInput, sorted: seq<PO.ProductionOrder>, ps: seq<ScheduledProcess>, ghost owner: seq<nat>,
                       lineNext: map<string, Day>, completion: map<string, Day>, oi: nat)
    returns (ps': seq<ScheduledProcess>, ghost owner': seq<nat>, lineNext': map<string, Day>, completion': map<string, Day>)
    requires ModelsValid(input.models) && oi < |sorted|
    requires StateOk(input, sorted, ps, owner, lineNext, completion, oi, oi)
    ensures StateOk(input, sorted, ps', owner', lineNext', completion', oi + 1, oi + 1)
  {
    var order := sorted[oi];
    var model := FindModel(input.models, order.modelType);
    if model.None? {
      SkipOrder(input, sorted, ps, owner, completion, oi);
      return ps, owner, lineNext, completion;
    }
    var steps := model.value.processes;
    FoundModelValid(input.models, order.modelType);
    BeginOrder(input, ps, owner, oi, steps);
    ps', owner', lineNext' := ps, owner, lineNext;
    var previousEnd := input.startDate;
    var i := 0;
    while i < |steps|
      invariant 0 <= i <= |steps|
      invariant StateOk(input, sorted, ps', owner', lineNext', completion, oi, oi + 1)
      invariant OrderInProgress(input, ps', owner', oi, steps, i, previousEnd)
    {
      ps', owner', lineNext', previousEnd := PlaceStep(input, sorted, ps', owner', lineNext', completion, oi, model.value, i, previousEnd);
      i := i + 1;
    }
    FinishOrder(input, sorted, ps', owner', completion, oi, model.value, previousEnd);
    completion' := completion[order.id := previousEnd];
  }

  /** The end of `schedule`: the placed processes, the completion dates and
      the resource usage over the horizon. */
  method AssembleResult(input: SchedulingInput, procs: seq<ScheduledProcess>, completion: map<string, Day>)
    returns (result: SchedulingResult)
    ensures result.scheduledProcesses == procs && result.completionDates == completion
    ensures |result.resourceUsage| == if input.horizonDays > 0 then input.horizonDays else 0
    ensures forall i :: 0 <= i < |result.resourceUsage| ==>
              result.resourceUsage[i] == UsageOn(result.scheduledProcesses, input.workerAvailability, input.startDate + i)
  {
    var usage := CalculateResourceUsage(procs, input.workerAvailability, input.startDate, input.horizonDays);
    result := SchedulingResult(procs, completion, usage);
  }

  /** `schedule`. Besides the result it returns, as a proof device, `owner`:
      for each emitted process, the position in the sorted order list of the
      order that emitted it. */
  method Schedule(input: SchedulingInput) returns (result: SchedulingResult, ghost owner: seq<nat>)
    requires ModelsValid(input.models)
    ensures |owner| == |result.scheduledProcesses|
    ensures Placed(input, SortOrdersByDueDate(input.orders), result.scheduledProcesses, owner)
    ensures result.completionDates == Completions(input, SortOrdersByDueDate(input.orders), result.scheduledProcesses, owner, |input.orders|)
    ensures |result.resourceUsage| == if input.horizonDays > 0 then input.horizonDays else 0
    ensures forall i :: 0 <= i < |result.resourceUsage| ==>
              result.resourceUsage[i] == UsageOn(result.scheduledProcesses, input.workerAvailability, input.startDate + i)
  {
    var sorted := SortOrdersByDueDate(input.orders);
    var procs: seq<ScheduledProcess> := [];
    var completion: map<string, Day> := map[];
    var lineNext := InitializeLineAvailability(input.lines, input.startDate);
    owner := [];
    InitialState(input, sorted, lineNext);
    var oi := 0;
    while oi < |sorted|
      invariant 0 <= oi <= |sorted|
      invariant StateOk(input, sorted, procs, owner, lineNext, completion, oi, oi)
    {
      procs, owner, lineNext, completion := ScheduleOrder(input, sorted, procs, owner, lineNext, completion, oi);
      oi := oi + 1;
    }
    result := AssembleResult(input, procs, completion);
  }
}
