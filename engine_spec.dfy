/** The records, helpers and proof vocabulary of the legacy scheduler
    (aps-train-system/src/engine/SchedulingEngine.ts and
    src/types/interfaces.ts): the lookups, the conflict lists, and the
    predicates that describe what its loops have emitted so far, with the
    lemmas that show each step keeps them. The loops themselves are in
    module SchedulingEngine. */
module EngineSpec {
  import opened Common
  import Sorting
  import SS = SchedulingService

  type ScheduledProcess = SS.ScheduledProcess
  type WorkerAvailability = SS.WorkerAvailability
  type DailyResourceUsage = SS.DailyResourceUsage

  datatype ProcessDefinition = ProcessDefinition(name: string, durationDays: int)

  datatype TrainModel = TrainModel(
    id: string,
    color: string,
    description: string,
    processes: seq<ProcessDefinition>,
    totalDurationDays: int)

  datatype ProductionLine = ProductionLine(id: string, processType: string, lineNumber: int, workersRequired: int)

  datatype OrderStatus = Pending | InProgress | Completed

  datatype ProductionOrder = ProductionOrder(
    id: string,
    modelType: string,
    dueDate: Day,
    priority: int,
    status: OrderStatus,
    createdAt: string)

  datatype SystemConfiguration = SystemConfiguration(
    startDate: Day,
    horizonDays: int,
    trainModels: seq<TrainModel>,
    productionLines: seq<ProductionLine>,
    workerAvailability: seq<WorkerAvailability>)

  datatype ConflictKind = LateDelivery | ResourceOverload | WorkerShortage | SequentialViolation

  datatype Severity = Error | Warning

  /** What a conflict's message reports. */
  datatype Detail = DaysLate(days: int) | WorkersOverloaded(assignedWorkers: int, availableWorkers: int)

  datatype Conflict = Conflict(kind: ConflictKind, orderId: Option<string>, date: Option<Day>, detail: Detail, severity: Severity)

  datatype WarningKind = TightSchedule | WorkerUtilization

  datatype ScheduleWarning = ScheduleWarning(kind: WarningKind, date: Option<Day>)

  datatype ScheduleValidation = ScheduleValidation(isValid: bool, conflicts: seq<Conflict>, warnings: seq<ScheduleWarning>)

  datatype ScheduleResult = ScheduleResult(
    scheduledProcesses: seq<ScheduledProcess>,
    validation: ScheduleValidation,
    resourceUsage: seq<DailyResourceUsage>,
    completionDates: map<string, Day>)

  // ---------------------------------------------------------------------
  // Lookups

  function DueKey(o: ProductionOrder): int
  {
    o.dueDate
  }

  /** `[...orders].sort(by due date)`: a stably sorted copy. */
  function SortByDueDate(orders: seq<ProductionOrder>): (r: seq<ProductionOrder>)
    ensures |r| == |orders| && multiset(r) == multiset(orders)
    ensures forall i, j :: 0 <= i < j < |r| ==> r[i].dueDate <= r[j].dueDate
  {
    Sorting.SortBySpec(orders, DueKey);
    var r := Sorting.SortBy(orders, DueKey);
    assert forall i, j :: 0 <= i < j < |r| ==> DueKey(r[i]) <= DueKey(r[j]);
    r
  }

  /** Orders due on the same day keep their input order. */
  lemma SortByDueDateStable(orders: seq<ProductionOrder>, due: Day)
    ensures Sorting.WithKey(SortByDueDate(orders), DueKey, due) == Sorting.WithKey(orders, DueKey, due)
  {
    Sorting.SortByStable(orders, DueKey, due);
  }

  /** `getTrainModel`: the first model with the given id; throws when there is none. */
  function GetTrainModel(models: seq<TrainModel>, modelType: string): (r: Result<TrainModel>)
    ensures r.Ok? ==> r.value.id == modelType
  {
    if models == [] then Err("Train model " + modelType + " not found")
    else if models[0].id == modelType then Ok(models[0])
    else GetTrainModel(models[1..], modelType)
  }

  /** `find` semantics: an error exactly when no model has the id, otherwise
      the first model that has it. */
  lemma {:induction false} GetTrainModelFirst(models: seq<TrainModel>, modelType: string)
    ensures GetTrainModel(models, modelType).Err? <==> forall i :: 0 <= i < |models| ==> models[i].id != modelType
    ensures GetTrainModel(models, modelType).Ok? ==>
              exists i :: 0 <= i < |models| && models[i] == GetTrainModel(models, modelType).value &&
                          forall j :: 0 <= j < i ==> models[j].id != modelType
  {
    if models != [] && models[0].id != modelType {
      GetTrainModelFirst(models[1..], modelType);
      if GetTrainModel(models, modelType).Ok? {
        var i :| 0 <= i < |models[1..]| && models[1..][i] == GetTrainModel(models, modelType).value &&
                 forall j :: 0 <= j < i ==> models[1..][j].id != modelType;
        assert models[i + 1] == GetTrainModel(models, modelType).value;
        forall j | 0 <= j < i + 1
          ensures models[j].id != modelType
        {
          if j > 0 { assert models[j] == models[1..][j - 1]; }
        }
      } else {
        assert forall i :: 1 <= i < |models| ==> models[i] == models[1..][i - 1];
      }
    }
  }

  /** `findProductionLine`: the first line whose process type is the step's name. */
  function FindProductionLine(lines: seq<ProductionLine>, processName: string): (r: Option<ProductionLine>)
    ensures r.Some? ==> r.value.processType == processName
  {
    if lines == [] then None
    else if lines[0].processType == processName then Some(lines[0])
    else FindProductionLine(lines[1..], processName)
  }

  /** `filter(...)[0]` semantics: no line exactly when none has the type,
      otherwise the first one that has it. */
  lemma {:induction false} FindProductionLineFirst(lines: seq<ProductionLine>, processName: string)
    ensures FindProductionLine(lines, processName).None? <==> forall i :: 0 <= i < |lines| ==> lines[i].processType != processName
    ensures FindProductionLine(lines, processName).Some? ==>
              exists i :: 0 <= i < |lines| && lines[i] == FindProductionLine(lines, processName).value &&
                          forall j :: 0 <= j < i ==> lines[j].processType != processName
  {
    if lines != [] && lines[0].processType != processName {
      FindProductionLineFirst(lines[1..], processName);
      if FindProductionLine(lines, processName).Some? {
        var i :| 0 <= i < |lines[1..]| && lines[1..][i] == FindProductionLine(lines, processName).value &&
                 forall j :: 0 <= j < i ==> lines[1..][j].processType != processName;
        assert lines[i + 1] == FindProductionLine(lines, processName).value;
        forall j | 0 <= j < i + 1
          ensures lines[j].processType != processName
        {
          if j > 0 { assert lines[j] == lines[1..][j - 1]; }
        }
      } else {
        assert forall i :: 1 <= i < |lines| ==> lines[i] == lines[1..][i - 1];
      }
    }
  }

  // ---------------------------------------------------------------------
  // Validation

  /** The late-delivery conflict for order `o`, if any: its completion date is
      after its due date, by `completion - due` days. */
  function LateFor(o: ProductionOrder, completion: map<string, Day>): (r: seq<Conflict>)
    ensures |r| <= 1
    ensures r != [] <==> o.id in completion && completion[o.id] > o.dueDate
    ensures r != [] ==> r[0].kind == LateDelivery && r[0].orderId == Some(o.id) && r[0].severity == Error &&
                        r[0].detail == DaysLate(completion[o.id] - o.dueDate) && completion[o.id] - o.dueDate > 0
  {
    if o.id in completion && completion[o.id] > o.dueDate then
      [Conflict(LateDelivery, Some(o.id), None, DaysLate(completion[o.id] - o.dueDate), Error)]
    else []
  }

  function LateConflicts(orders: seq<ProductionOrder>, completion: map<string, Day>): seq<Conflict>
  {
    if orders == [] then []
    else LateConflicts(orders[..|orders| - 1], completion) + LateFor(orders[|orders| - 1], completion)
  }

  /** The late-delivery conflicts are exactly those of the late orders. */
  lemma {:induction false} LateConflictsSpec(orders: seq<ProductionOrder>, completion: map<string, Day>)
    ensures |LateConflicts(orders, completion)| <= |orders|
    ensures forall c :: c in LateConflicts(orders, completion) <==>
              exists i :: 0 <= i < |orders| && c in LateFor(orders[i], completion)
  {
    if orders != [] {
      var n := |orders| - 1;
      LateConflictsSpec(orders[..n], completion);
      forall c | c in LateConflicts(orders, completion)
        ensures exists i :: 0 <= i < |orders| && c in LateFor(orders[i], completion)
      {
        if c in LateConflicts(orders[..n], completion) {
          var i :| 0 <= i < n && c in LateFor(orders[..n][i], completion);
          assert orders[i] == orders[..n][i];
        } else {
          assert c in LateFor(orders[n], completion);
        }
      }
      forall c, i | 0 <= i < |orders| && c in LateFor(orders[i], completion)
        ensures c in LateConflicts(orders, completion)
      {
        if i < n {
          assert orders[..n][i] == orders[i];
        }
      }
    }
  }

  /** The resource-overload conflict for a usage entry, if it is overloaded. */
  function OverloadFor(u: DailyResourceUsage): (r: seq<Conflict>)
    ensures |r| <= 1 && (r != [] <==> u.isOverloaded)
    ensures r != [] ==> r[0].kind == ResourceOverload && r[0].date == Some(u.date) && r[0].orderId.None? &&
                        r[0].severity == Error && r[0].detail == WorkersOverloaded(u.assignedWorkers, u.availableWorkers)
  {
    if u.isOverloaded then [Conflict(ResourceOverload, None, Some(u.date), WorkersOverloaded(u.assignedWorkers, u.availableWorkers), Error)]
    else []
  }

  function OverloadConflicts(usage: seq<DailyResourceUsage>): seq<Conflict>
  {
    if usage == [] then []
    else OverloadConflicts(usage[..|usage| - 1]) + OverloadFor(usage[|usage| - 1])
  }

  /** No overload conflict exactly when no day of the table is overloaded. */
  lemma {:induction false} OverloadConflictsNone(usage: seq<DailyResourceUsage>)
    ensures |OverloadConflicts(usage)| == 0 <==> forall i :: 0 <= i < |usage| ==> !usage[i].isOverloaded
  {
    if usage != [] {
      var n := |usage| - 1;
      OverloadConflictsNone(usage[..n]);
      assert forall i :: 0 <= i < n ==> usage[..n][i] == usage[i];
      assert |OverloadConflicts(usage)| == |OverloadConflicts(usage[..n])| + |OverloadFor(usage[n])|;
    }
  }

  // ---------------------------------------------------------------------
  // What the engine has emitted so far

  /** The process the engine pushes for step `i` of order `o` on `line`
      (the model's color is not modelled). */
  function Emit(o: ProductionOrder, step: ProcessDefinition, i: int, line: ProductionLine, start: Day): (p: ScheduledProcess)
    ensures p.endDate - p.startDate == step.durationDays
  {
    SS.ScheduledProcess(o.id, o.modelType, step.name, i, line.id, start, start + step.durationDays, line.workersRequired)
  }

  /** Step `p.processIndex` of the model of order `sorted[j]`, placed as the
      engine places it. */
  ghost predicate WellFormed(cfg: SystemConfiguration, sorted: seq<ProductionOrder>, p: ScheduledProcess, j: nat)
  {
    j < |sorted| && p.orderId == sorted[j].id && p.modelType == sorted[j].modelType &&
    var m := GetTrainModel(cfg.trainModels, sorted[j].modelType);
    m.Ok? && 0 <= p.processIndex < |m.value.processes| &&
    var step := m.value.processes[p.processIndex];
    var line := FindProductionLine(cfg.productionLines, step.name);
    line.Some? && p.processName == step.name && p.productionLineId == line.value.id &&
    p.workersAssigned == line.value.workersRequired && p.endDate == p.startDate + step.durationDays
  }

  ghost predicate AllWellFormed(cfg: SystemConfiguration, sorted: seq<ProductionOrder>, ps: seq<ScheduledProcess>, owner: seq<nat>)
  {
    |owner| == |ps| && forall k :: 0 <= k < |ps| ==> WellFormed(cfg, sorted, ps[k], owner[k])
  }

  /** The processes of one order follow the recipe order. */
  ghost predicate IndexOrdered(ps: seq<ScheduledProcess>, owner: seq<nat>)
  {
    |owner| == |ps| &&
    forall a, b :: 0 <= a < b < |ps| && owner[a] == owner[b] ==> ps[a].processIndex < ps[b].processIndex
  }

  /** The step indices of `steps[..n]` for which some line has the step's name as its type. */
  function MatchedSteps(steps: seq<ProcessDefinition>, lines: seq<ProductionLine>, n: nat): seq<int>
    requires n <= |steps|
  {
    if n == 0 then []
    else MatchedSteps(steps, lines, n - 1) + (if FindProductionLine(lines, steps[n - 1].name).Some? then [n - 1] else [])
  }

  /** The steps an order must emit: every step of its model that has a line. */
  ghost function ExpectedIndices(cfg: SystemConfiguration, o: ProductionOrder): seq<int>
  {
    match GetTrainModel(cfg.trainModels, o.modelType)
    case Err(_) => []
    case Ok(m) => MatchedSteps(m.processes, cfg.productionLines, |m.processes|)
  }

  /** The orders before `oi` have a model and have emitted exactly their expected steps. */
  ghost predicate OrdersDone(cfg: SystemConfiguration, sorted: seq<ProductionOrder>, ps: seq<ScheduledProcess>, owner: seq<nat>, oi: nat)
  {
    oi <= |sorted| && |owner| == |ps| &&
    forall j :: 0 <= j < oi ==>
      GetTrainModel(cfg.trainModels, sorted[j].modelType).Ok? && SS.OwnedIndices(ps, owner, j) == ExpectedIndices(cfg, sorted[j])
  }

  /** The completion-date map after the orders before position `n`: every
      order writes its id with the end of its last process, or the start
      date when it has none; a later order with the same id overwrites. */
  ghost function Completions(cfg: SystemConfiguration, sorted: seq<ProductionOrder>, ps: seq<ScheduledProcess>,
                             owner: seq<nat>, n: nat): map<string, Day>
    requires n <= |sorted| && |owner| == |ps|
  {
    if n == 0 then map[]
    else Completions(cfg, sorted, ps, owner, n - 1)[sorted[n - 1].id := SS.LastOrderEnd(ps, owner, n - 1, cfg.startDate)]
  }

  /** No later order before `bound` has the same id as the one at `j`. */
  ghost predicate LastWithId(sorted: seq<ProductionOrder>, j: nat, bound: nat)
    requires j < |sorted| && bound <= |sorted|
  {
    forall j2 :: j < j2 < bound ==> sorted[j2].id != sorted[j].id
  }

  /** The map holds exactly the ids of the orders before `n`; the value for
      an id is the chain end of the last of those orders with that id. */
  lemma {:induction false} CompletionsMeaning(cfg: SystemConfiguration, sorted: seq<ProductionOrder>,
                                               ps: seq<ScheduledProcess>, owner: seq<nat>, n: nat)
    requires n <= |sorted| && |owner| == |ps|
    ensures var c := Completions(cfg, sorted, ps, owner, n);
            (forall id :: id in c <==> exists j :: 0 <= j < n && sorted[j].id == id) &&
            (forall j :: 0 <= j < n && LastWithId(sorted, j, n) ==>
               sorted[j].id in c && c[sorted[j].id] == SS.LastOrderEnd(ps, owner, j, cfg.startDate))
  {
    if n > 0 {
      CompletionsMeaning(cfg, sorted, ps, owner, n - 1);
      var c := Completions(cfg, sorted, ps, owner, n);
      forall id | id in c
        ensures exists j :: 0 <= j < n && sorted[j].id == id
      {
        if sorted[n - 1].id != id {
          assert id in Completions(cfg, sorted, ps, owner, n - 1);
        }
      }
      forall j | 0 <= j < n && LastWithId(sorted, j, n)
        ensures sorted[j].id in c && c[sorted[j].id] == SS.LastOrderEnd(ps, owner, j, cfg.startDate)
      {
        if j < n - 1 {
          assert LastWithId(sorted, j, n - 1);
        }
      }
    }
  }

  lemma {:induction false} CompletionsSnoc(cfg: SystemConfiguration, sorted: seq<ProductionOrder>, ps: seq<ScheduledProcess>,
                                            owner: seq<nat>, p: ScheduledProcess, j: nat, n: nat)
    requires n <= j && n <= |sorted| && |owner| == |ps|
    ensures Completions(cfg, sorted, ps + [p], owner + [j], n) == Completions(cfg, sorted, ps, owner, n)
  {
    if n > 0 {
      CompletionsSnoc(cfg, sorted, ps, owner, p, j, n - 1);
      SS.SnocFacts(ps, owner, p, j, cfg.startDate);
    }
  }

  /** Order `oi`, whose model's recipe is `steps`, is placed up to step `i`. */
  ghost predicate OrderInProgress(cfg: SystemConfiguration, ps: seq<ScheduledProcess>, owner: seq<nat>, oi: nat,
                                  steps: seq<ProcessDefinition>, i: nat, previousEnd: Day)
  {
    |owner| == |ps| && i <= |steps| &&
    SS.OwnedIndices(ps, owner, oi) == MatchedSteps(steps, cfg.productionLines, i) &&
    previousEnd == SS.LastOrderEnd(ps, owner, oi, cfg.startDate) &&
    forall k :: 0 <= k < |ps| && owner[k] == oi ==> ps[k].processIndex < i
  }

  /** The line table holds every configured line's previous end. */
  ghost predicate LinesTracked(cfg: SystemConfiguration, ps: seq<ScheduledProcess>, lineNext: map<string, Day>)
  {
    (forall id :: id in lineNext <==> exists i :: 0 <= i < |cfg.productionLines| && cfg.productionLines[i].id == id) &&
    (forall id :: id in lineNext ==> lineNext[id] == SS.LastLineEnd(ps, id, cfg.startDate))
  }

  /** What holds of the processes once the orders before `oi` are done,
      while they are owned by orders below `bound`. */
  ghost predicate Progress(cfg: SystemConfiguration, sorted: seq<ProductionOrder>, ps: seq<ScheduledProcess>,
                           owner: seq<nat>, oi: nat, bound: nat)
  {
    |owner| == |ps| && SS.OwnedBelow(owner, bound) && SS.Served(owner) && AllWellFormed(cfg, sorted, ps, owner) &&
    SS.AllStartsChosen(ps, owner, cfg.workerAvailability, cfg.startDate) && IndexOrdered(ps, owner) &&
    OrdersDone(cfg, sorted, ps, owner, oi)
  }

  /** The outcome `scheduleOrders` promises for the sorted orders when it does not throw. */
  ghost predicate Placed(cfg: SystemConfiguration, sorted: seq<ProductionOrder>, ps: seq<ScheduledProcess>, owner: seq<nat>)
  {
    Progress(cfg, sorted, ps, owner, |sorted|, |sorted|)
  }

  ghost predicate StateOk(cfg: SystemConfiguration, sorted: seq<ProductionOrder>, ps: seq<ScheduledProcess>,
                          owner: seq<nat>, lineNext: map<string, Day>, completion: map<string, Day>, oi: nat, bound: nat)
  {
    Progress(cfg, sorted, ps, owner, oi, bound) && LinesTracked(cfg, ps, lineNext) &&
    completion == Completions(cfg, sorted, ps, owner, oi)
  }

  // ---------------------------------------------------------------------
  // Steps of the loop

  lemma EmitWellFormed(cfg: SystemConfiguration, sorted: seq<ProductionOrder>, ps: seq<ScheduledProcess>, owner: seq<nat>,
                       oi: nat, m: TrainModel, i: nat, line: ProductionLine, start: Day)
    requires oi < |sorted| && GetTrainModel(cfg.trainModels, sorted[oi].modelType) == Ok(m) && i < |m.processes|
    requires FindProductionLine(cfg.productionLines, m.processes[i].name) == Some(line)
    requires AllWellFormed(cfg, sorted, ps, owner) && SS.OwnedBelow(owner, oi + 1) && SS.Served(owner)
    ensures var p := Emit(sorted[oi], m.processes[i], i, line, start);
            AllWellFormed(cfg, sorted, ps + [p], owner + [oi]) && SS.OwnedBelow(owner + [oi], oi + 1) && SS.Served(owner + [oi])
  {
    var p := Emit(sorted[oi], m.processes[i], i, line, start);
    assert WellFormed(cfg, sorted, p, oi);
    assert forall k :: 0 <= k < |ps| ==> (ps + [p])[k] == ps[k] && (owner + [oi])[k] == owner[k];
  }

  lemma EmitStartChosen(ps: seq<ScheduledProcess>, owner: seq<nat>, oi: nat, p: ScheduledProcess,
                        avail: seq<WorkerAvailability>, s: Day, previousEnd: Day, lineNextAvailable: Day)
    requires |owner| == |ps| && SS.AllStartsChosen(ps, owner, avail, s)
    requires previousEnd == SS.LastOrderEnd(ps, owner, oi, s)
    requires lineNextAvailable == SS.LastLineEnd(ps, p.productionLineId, s)
    requires SS.ChosenStart(Max(previousEnd, lineNextAvailable), p.endDate - p.startDate, p.workersAssigned, avail, p.startDate)
    ensures SS.AllStartsChosen(ps + [p], owner + [oi], avail, s)
  {
    SS.StartChosenSnoc(ps, owner, p, oi, avail, s);
    SS.SnocPrefix(ps, p);
    SS.SnocPrefix(owner, oi);
    assert SS.StartChosen(ps + [p], owner + [oi], |ps|, avail, s);
  }

  lemma EmitIndexOrdered(ps: seq<ScheduledProcess>, owner: seq<nat>, oi: nat, p: ScheduledProcess, i: int)
    requires IndexOrdered(ps, owner)
    requires forall k :: 0 <= k < |ps| && owner[k] == oi ==> ps[k].processIndex < i
    requires p.processIndex == i
    ensures IndexOrdered(ps + [p], owner + [oi])
  {
    var ps', owner' := ps + [p], owner + [oi];
    forall a, b | 0 <= a < b < |ps'| && owner'[a] == owner'[b]
      ensures ps'[a].processIndex < ps'[b].processIndex
    {
      if b == |ps| {
        assert owner[a] == oi;
      }
    }
  }

  lemma EmitLinesTracked(cfg: SystemConfiguration, ps: seq<ScheduledProcess>, p: ScheduledProcess,
                         lineNext: map<string, Day>, line: ProductionLine)
    requires LinesTracked(cfg, ps, lineNext)
    requires p.productionLineId == line.id && line.id in lineNext
    ensures LinesTracked(cfg, ps + [p], lineNext[line.id := p.endDate])
  {
    SS.SnocPrefix(ps, p);
  }

  lemma EmitOrdersDone(cfg: SystemConfiguration, sorted: seq<ProductionOrder>, ps: seq<ScheduledProcess>, owner: seq<nat>,
                       oi: nat, p: ScheduledProcess)
    requires |owner| == |ps| && OrdersDone(cfg, sorted, ps, owner, oi)
    ensures OrdersDone(cfg, sorted, ps + [p], owner + [oi], oi)
  {
    SS.SnocFacts(ps, owner, p, oi, cfg.startDate);
  }

  lemma EmitInProgress(cfg: SystemConfiguration, ps: seq<ScheduledProcess>, owner: seq<nat>, oi: nat,
                       steps: seq<ProcessDefinition>, i: nat, previousEnd: Day, p: ScheduledProcess)
    requires i < |steps| && FindProductionLine(cfg.productionLines, steps[i].name).Some?
    requires p.processIndex == i
    requires OrderInProgress(cfg, ps, owner, oi, steps, i, previousEnd)
    ensures OrderInProgress(cfg, ps + [p], owner + [oi], oi, steps, i + 1, p.endDate)
  {
    SS.SnocFacts(ps, owner, p, oi, cfg.startDate);
  }

  /** Placing step `i` of order `oi` on `line` at a start chosen from the
      order's and the line's previous ends keeps the loop state. */
  lemma EmitPreserves(cfg: SystemConfiguration, sorted: seq<ProductionOrder>, ps: seq<ScheduledProcess>, owner: seq<nat>,
                      lineNext: map<string, Day>, completion: map<string, Day>, oi: nat, m: TrainModel, i: nat,
                      previousEnd: Day, line: ProductionLine, lineNextAvailable: Day, start: Day)
    requires oi < |sorted| && GetTrainModel(cfg.trainModels, sorted[oi].modelType) == Ok(m) && i < |m.processes|
    requires FindProductionLine(cfg.productionLines, m.processes[i].name) == Some(line)
    requires StateOk(cfg, sorted, ps, owner, lineNext, completion, oi, oi + 1)
    requires OrderInProgress(cfg, ps, owner, oi, m.processes, i, previousEnd)
    requires lineNextAvailable == if line.id in lineNext then lineNext[line.id] else cfg.startDate
    requires SS.ChosenStart(Max(previousEnd, lineNextAvailable), m.processes[i].durationDays, line.workersRequired,
                            cfg.workerAvailability, start)
    ensures var p := Emit(sorted[oi], m.processes[i], i, line, start);
            StateOk(cfg, sorted, ps + [p], owner + [oi], lineNext[line.id := p.endDate], completion, oi, oi + 1) &&
            OrderInProgress(cfg, ps + [p], owner + [oi], oi, m.processes, i + 1, p.endDate)
  {
    var p := Emit(sorted[oi], m.processes[i], i, line, start);
    FindProductionLineFirst(cfg.productionLines, m.processes[i].name);
    assert line.id in lineNext;
    EmitProgress(cfg, sorted, ps, owner, lineNext, oi, m, i, previousEnd, line, lineNextAvailable, start);
    EmitLinesTracked(cfg, ps, p, lineNext, line);
    EmitInProgress(cfg, ps, owner, oi, m.processes, i, previousEnd, p);
    CompletionsSnoc(cfg, sorted, ps, owner, p, oi, oi);
  }

  /** The `Progress` part of `EmitPreserves`. */
  lemma EmitProgress(cfg: SystemConfiguration, sorted: seq<ProductionOrder>, ps: seq<ScheduledProcess>, owner: seq<nat>,
                     lineNext: map<string, Day>, oi: nat, m: TrainModel, i: nat,
                     previousEnd: Day, line: ProductionLine, lineNextAvailable: Day, start: Day)
    requires oi < |sorted| && GetTrainModel(cfg.trainModels, sorted[oi].modelType) == Ok(m) && i < |m.processes|
    requires FindProductionLine(cfg.productionLines, m.processes[i].name) == Some(line)
    requires Progress(cfg, sorted, ps, owner, oi, oi + 1) && LinesTracked(cfg, ps, lineNext) && line.id in lineNext
    requires OrderInProgress(cfg, ps, owner, oi, m.processes, i, previousEnd)
    requires lineNextAvailable == lineNext[line.id]
    requires SS.ChosenStart(Max(previousEnd, lineNextAvailable), m.processes[i].durationDays, line.workersRequired,
                            cfg.workerAvailability, start)
    ensures var p := Emit(sorted[oi], m.processes[i], i, line, start);
            Progress(cfg, sorted, ps + [p], owner + [oi], oi, oi + 1)
  {
    var p := Emit(sorted[oi], m.processes[i], i, line, start);
    EmitWellFormed(cfg, sorted, ps, owner, oi, m, i, line, start);
    EmitStartChosen(ps, owner, oi, p, cfg.workerAvailability, cfg.startDate, previousEnd, lineNextAvailable);
    EmitIndexOrdered(ps, owner, oi, p, i);
    EmitOrdersDone(cfg, sorted, ps, owner, oi, p);
  }

  /** Before its first step, an order owns nothing and its chain starts at the start date. */
  lemma BeginOrder(cfg: SystemConfiguration, sorted: seq<ProductionOrder>, ps: seq<ScheduledProcess>, owner: seq<nat>,
                   lineNext: map<string, Day>, completion: map<string, Day>, oi: nat, steps: seq<ProcessDefinition>)
    requires StateOk(cfg, sorted, ps, owner, lineNext, completion, oi, oi)
    ensures StateOk(cfg, sorted, ps, owner, lineNext, completion, oi, oi + 1)
    ensures OrderInProgress(cfg, ps, owner, oi, steps, 0, cfg.startDate)
  {
    SS.NotOwned(ps, owner, oi, cfg.startDate);
  }

  /** After its last step, an order has emitted its expected steps and its
      completion date is its chain's end. */
  lemma FinishOrder(cfg: SystemConfiguration, sorted: seq<ProductionOrder>, ps: seq<ScheduledProcess>, owner: seq<nat>,
                    lineNext: map<string, Day>, completion: map<string, Day>, oi: nat, m: TrainModel, previousEnd: Day)
    requires oi < |sorted| && GetTrainModel(cfg.trainModels, sorted[oi].modelType) == Ok(m)
    requires StateOk(cfg, sorted, ps, owner, lineNext, completion, oi, oi + 1)
    requires OrderInProgress(cfg, ps, owner, oi, m.processes, |m.processes|, previousEnd)
    ensures StateOk(cfg, sorted, ps, owner, lineNext, completion[sorted[oi].id := previousEnd], oi + 1, oi + 1)
  {
    assert SS.OwnedIndices(ps, owner, oi) == ExpectedIndices(cfg, sorted[oi]);
    assert OrdersDone(cfg, sorted, ps, owner, oi + 1) by {
      forall j | 0 <= j < oi + 1
        ensures GetTrainModel(cfg.trainModels, sorted[j].modelType).Ok? &&
                SS.OwnedIndices(ps, owner, j) == ExpectedIndices(cfg, sorted[j])
      {
        if j < oi {
          assert OrdersDone(cfg, sorted, ps, owner, oi);
        }
      }
    }
    assert Completions(cfg, sorted, ps, owner, oi + 1) == completion[sorted[oi].id := previousEnd];
  }

  /** Before the first order nothing is placed, no order is done and every
      line is free from the start date. */
  lemma InitialState(cfg: SystemConfiguration, sorted: seq<ProductionOrder>, lineNext: map<string, Day>)
    requires forall id :: id in lineNext <==> exists i :: 0 <= i < |cfg.productionLines| && cfg.productionLines[i].id == id
    requires forall id :: id in lineNext ==> lineNext[id] == cfg.startDate
    ensures StateOk(cfg, sorted, [], [], lineNext, map[], 0, 0)
  {
    assert forall id :: SS.LastLineEnd([], id, cfg.startDate) == cfg.startDate;
  }

  /** Once every sorted order is done, the state is the promised outcome. */
  lemma AllOrdersPlaced(cfg: SystemConfiguration, sorted: seq<ProductionOrder>, procs: seq<ScheduledProcess>, owner: seq<nat>,
                        lineNext: map<string, Day>, completion: map<string, Day>, oi: nat)
    requires oi == |sorted|
    requires StateOk(cfg, sorted, procs, owner, lineNext, completion, oi, oi)
    ensures Placed(cfg, sorted, procs, owner) && completion == Completions(cfg, sorted, procs, owner, |sorted|)
  {
  }

  /** Some order in `orders` names a model the configuration does not have. */
  ghost predicate SomeModelMissing(cfg: SystemConfiguration, orders: seq<ProductionOrder>)
  {
    exists i :: 0 <= i < |orders| && GetTrainModel(cfg.trainModels, orders[i].modelType).Err?
  }

  /** A missing model found in the sorted copy is one of the input's. */
  lemma MissingInSorted(cfg: SystemConfiguration, orders: seq<ProductionOrder>, oi: nat)
    requires oi < |orders| && GetTrainModel(cfg.trainModels, SortByDueDate(orders)[oi].modelType).Err?
    ensures SomeModelMissing(cfg, orders)
  {
    var sorted := SortByDueDate(orders);
    assert sorted[oi] in multiset(orders);
    var i :| 0 <= i < |orders| && orders[i] == sorted[oi];
  }

  /** When every order of the sorted copy has a model, so has every input order. */
  lemma NoneMissing(cfg: SystemConfiguration, orders: seq<ProductionOrder>)
    requires forall j :: 0 <= j < |orders| ==> GetTrainModel(cfg.trainModels, SortByDueDate(orders)[j].modelType).Ok?
    ensures !SomeModelMissing(cfg, orders)
  {
    var sorted := SortByDueDate(orders);
    forall i | 0 <= i < |orders|
      ensures GetTrainModel(cfg.trainModels, orders[i].modelType).Ok?
    {
      assert orders[i] in multiset(sorted);
      var j :| 0 <= j < |sorted| && sorted[j] == orders[i];
    }
  }

  /** Every input order's id gets a completion date. */
  lemma EveryOrderCompleted(cfg: SystemConfiguration, orders: seq<ProductionOrder>, ps: seq<ScheduledProcess>, owner: seq<nat>)
    requires |owner| == |ps|
    ensures var c := Completions(cfg, SortByDueDate(orders), ps, owner, |orders|);
            forall i :: 0 <= i < |orders| ==> orders[i].id in c
  {
    var sorted := SortByDueDate(orders);
    CompletionsMeaning(cfg, sorted, ps, owner, |orders|);
    forall i | 0 <= i < |orders|
      ensures orders[i].id in Completions(cfg, sorted, ps, owner, |orders|)
    {
      assert orders[i] in multiset(sorted);
      var j :| 0 <= j < |sorted| && sorted[j] == orders[i];
    }
  }

  // ---------------------------------------------------------------------
  // No overlap

  /** Every step of every configured model lasts a non-negative number of days. */
  ghost predicate DurationsNonNegative(cfg: SystemConfiguration)
  {
    forall i, k :: 0 <= i < |cfg.trainModels| && 0 <= k < |cfg.trainModels[i].processes| ==>
      cfg.trainModels[i].processes[k].durationDays >= 0
  }

  /** With non-negative durations no placed process ends before it starts. */
  lemma EndsAfterStarts(cfg: SystemConfiguration, sorted: seq<ProductionOrder>, ps: seq<ScheduledProcess>, owner: seq<nat>)
    requires AllWellFormed(cfg, sorted, ps, owner) && DurationsNonNegative(cfg)
    ensures forall k :: 0 <= k < |ps| ==> ps[k].startDate <= ps[k].endDate
  {
    forall k | 0 <= k < |ps|
      ensures ps[k].startDate <= ps[k].endDate
    {
      assert WellFormed(cfg, sorted, ps[k], owner[k]);
      GetTrainModelFirst(cfg.trainModels, sorted[owner[k]].modelType);
    }
  }

  lemma {:induction false} LastEndsFloor(ps: seq<ScheduledProcess>, owner: seq<nat>, j: nat, lineId: string, s: Day)
    requires |owner| == |ps|
    requires forall k :: 0 <= k < |ps| ==> s <= ps[k].endDate
    ensures s <= SS.LastOrderEnd(ps, owner, j, s) && s <= SS.LastLineEnd(ps, lineId, s)
  {
    if ps != [] {
      var n := |ps| - 1;
      LastEndsFloor(ps[..n], owner[..n], j, lineId, s);
    }
  }

  lemma {:induction false} LastOrderEndCovers(ps: seq<ScheduledProcess>, owner: seq<nat>, j: nat, s: Day, a: nat)
    requires |owner| == |ps| && a < |ps| && owner[a] == j
    requires forall k :: 0 <= k < |ps| ==> ps[k].startDate <= ps[k].endDate
    requires forall x, y :: 0 <= x < y < |ps| && owner[x] == owner[y] ==> ps[x].endDate <= ps[y].startDate
    ensures ps[a].endDate <= SS.LastOrderEnd(ps, owner, j, s)
  {
    var n := |ps| - 1;
    if owner[n] != j {
      LastOrderEndCovers(ps[..n], owner[..n], j, s, a);
    } else if a < n {
      assert ps[a].endDate <= ps[n].startDate;
    }
  }

  lemma {:induction false} LastLineEndCovers(ps: seq<ScheduledProcess>, lineId: string, s: Day, a: nat)
    requires a < |ps| && ps[a].productionLineId == lineId
    requires forall k :: 0 <= k < |ps| ==> ps[k].startDate <= ps[k].endDate
    requires SS.LineDisjoint(ps)
    ensures ps[a].endDate <= SS.LastLineEnd(ps, lineId, s)
  {
    var n := |ps| - 1;
    if ps[n].productionLineId != lineId {
      LastLineEndCovers(ps[..n], lineId, s, a);
    } else if a < n {
      assert ps[a].endDate <= ps[n].startDate;
    }
  }

  /** Starts chosen after the previous ends, with no process ending before
      it starts, give the two no-overlap rules and no start before `s`. */
  lemma {:induction false} ChoicesChain(ps: seq<ScheduledProcess>, owner: seq<nat>, avail: seq<WorkerAvailability>, s: Day)
    requires |owner| == |ps| && SS.AllStartsChosen(ps, owner, avail, s)
    requires forall k :: 0 <= k < |ps| ==> ps[k].startDate <= ps[k].endDate
    ensures forall k :: 0 <= k < |ps| ==> s <= ps[k].startDate
    ensures forall a, b :: 0 <= a < b < |ps| && owner[a] == owner[b] ==> ps[a].endDate <= ps[b].startDate
    ensures SS.LineDisjoint(ps)
  {
    if ps != [] {
      var n := |ps| - 1;
      var ps0, ow0 := ps[..n], owner[..n];
      forall k | 0 <= k < n
        ensures SS.StartChosen(ps0, ow0, k, avail, s)
      {
        assert ps0[..k] == ps[..k] && ow0[..k] == owner[..k];
        assert SS.StartChosen(ps, owner, k, avail, s);
      }
      ChoicesChain(ps0, ow0, avail, s);
      var p := ps[n];
      assert SS.StartChosen(ps, owner, n, avail, s);
      assert SS.LastOrderEnd(ps0, ow0, owner[n], s) <= p.startDate;
      assert SS.LastLineEnd(ps0, p.productionLineId, s) <= p.startDate;
      LastEndsFloor(ps0, ow0, owner[n], p.productionLineId, s);
      forall a | 0 <= a < n && owner[a] == owner[n]
        ensures ps[a].endDate <= p.startDate
      {
        LastOrderEndCovers(ps0, ow0, owner[n], s, a);
      }
      forall a | 0 <= a < n && ps[a].productionLineId == p.productionLineId
        ensures ps[a].endDate <= p.startDate
      {
        LastLineEndCovers(ps0, p.productionLineId, s, a);
      }
    }
  }

  /** Given non-negative step durations, the engine's schedule never runs
      two steps of one order, or two steps on one line, at the same time,
      and nothing starts before the configured start date. */
  lemma NoOverlap(cfg: SystemConfiguration, sorted: seq<ProductionOrder>, ps: seq<ScheduledProcess>, owner: seq<nat>)
    requires Placed(cfg, sorted, ps, owner) && DurationsNonNegative(cfg)
    ensures SS.OrderChained(ps, owner) && SS.LineDisjoint(ps) && SS.WithinSchedule(ps, cfg.startDate)
  {
    EndsAfterStarts(cfg, sorted, ps, owner);
    ChoicesChain(ps, owner, cfg.workerAvailability, cfg.startDate);
  }
}
