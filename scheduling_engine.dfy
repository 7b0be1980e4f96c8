/** The legacy scheduler (aps-train-system/src/engine/SchedulingEngine.ts),
    which works on the plain records of src/types/interfaces.ts.

    It differs from the domain scheduler in four ways the model keeps: a
    step is matched to the first line whose `processType` is the step's
    name (there is no notion of an inactive line); an order whose model is
    missing makes the whole call throw; every order gets a completion date,
    the start date when none of its steps could be placed; and the result
    carries its own validation (late orders and overloaded days).

    The start-date search, the usage table and the bookkeeping of previous
    ends are the same as the domain scheduler's and are shared with it. */
module SchedulingEngine {
  import opened Common
  import SS = SchedulingService
  import opened EngineSpec

  /** `validateSchedule` (lines 208-252): the late orders of the input list,
      then the overloaded days of a freshly computed usage table. */
  method ValidateSchedule(cfg: SystemConfiguration, ps: seq<ScheduledProcess>, orders: seq<ProductionOrder>,
                          completion: map<string, Day>)
    returns (validation: ScheduleValidation, ghost usage: seq<DailyResourceUsage>)
    ensures |usage| == Max(0, cfg.horizonDays)
    ensures forall i :: 0 <= i < |usage| ==> usage[i] == SS.UsageOn(ps, cfg.workerAvailability, cfg.startDate + i)
    ensures validation.conflicts == LateConflicts(orders, completion) + OverloadConflicts(usage)
    ensures validation.isValid <==> validation.conflicts == []
    ensures validation.warnings == []
  {
    var late := CheckLateOrders(orders, completion);
    var resourceUsage := SS.CalculateResourceUsage(ps, cfg.workerAvailability, cfg.startDate, cfg.horizonDays);
    usage := resourceUsage;
    var conflicts := CheckOverloadedDays(late, resourceUsage);
    validation := ScheduleValidation(|conflicts| == 0, conflicts, []);
  }

  /** The first loop of `validateSchedule`: one late-delivery conflict per
      order that finishes after its due date. */
  method CheckLateOrders(orders: seq<ProductionOrder>, completion: map<string, Day>) returns (conflicts: seq<Conflict>)
    ensures conflicts == LateConflicts(orders, completion)
  {
    conflicts := [];
    var i := 0;
    while i < |orders|
      invariant 0 <= i <= |orders|
      invariant conflicts == LateConflicts(orders[..i], completion)
    {
      assert orders[..i + 1][..i] == orders[..i];
      var order := orders[i];
      if order.id in completion {
        var actual := completion[order.id];
        if actual > order.dueDate {
          conflicts := conflicts + [Conflict(LateDelivery, Some(order.id), None, DaysLate(actual - order.dueDate), Error)];
        }
      }
      i := i + 1;
    }
    assert orders[..|orders|] == orders;
  }

  /** The second loop of `validateSchedule`: one overload conflict per
      overloaded day, after the late deliveries `late`. */
  method CheckOverloadedDays(late: seq<Conflict>, resourceUsage: seq<DailyResourceUsage>) returns (conflicts: seq<Conflict>)
    ensures conflicts == late + OverloadConflicts(resourceUsage)
  {
    conflicts := late;
    var j := 0;
    while j < |resourceUsage|
      invariant 0 <= j <= |resourceUsage|
      invariant conflicts == late + OverloadConflicts(resourceUsage[..j])
    {
      assert resourceUsage[..j + 1][..j] == resourceUsage[..j];
      var u := resourceUsage[j];
      if u.isOverloaded {
        conflicts := conflicts + [Conflict(ResourceOverload, None, Some(u.date), WorkersOverloaded(u.assignedWorkers, u.availableWorkers), Error)];
      }
      j := j + 1;
    }
    assert resourceUsage[..|resourceUsage|] == resourceUsage;
  }

  // ---------------------------------------------------------------------
  // The loops

  /** One iteration of the step loop (lines 44-84). */
  method PlaceStep(cfg: SystemConfiguration, sorted: seq<ProductionOrder>, ps: seq<ScheduledProcess>, ghost owner: seq<nat>,
                   lineNext: map<string, Day>, ghost completion: map<string, Day>, oi: nat, m: TrainModel, i: nat,
                   previousEnd: Day)
    returns (ps': seq<ScheduledProcess>, ghost owner': seq<nat>, lineNext': map<string, Day>, previousEnd': Day)
    requires oi < |sorted| && GetTrainModel(cfg.trainModels, sorted[oi].modelType) == Ok(m) && i < |m.processes|
    requires StateOk(cfg, sorted, ps, owner, lineNext, completion, oi, oi + 1)
    requires OrderInProgress(cfg, ps, owner, oi, m.processes, i, previousEnd)
    ensures StateOk(cfg, sorted, ps', owner', lineNext', completion, oi, oi + 1)
    ensures OrderInProgress(cfg, ps', owner', oi, m.processes, i + 1, previousEnd')
  {
    var process := m.processes[i];
    var productionLine := FindProductionLine(cfg.productionLines, process.name);
    if productionLine.None? {
      return ps, owner, lineNext, previousEnd;
    }
    var line := productionLine.value;
    var lineNextAvailable := if line.id in lineNext then lineNext[line.id] else cfg.startDate;
    var earliestStart := Max(previousEnd, lineNextAvailable);
    var startDate := SS.FindDateWithWorkers(earliestStart, process.durationDays, line.workersRequired, cfg.workerAvailability);
    EmitPreserves(cfg, sorted, ps, owner, lineNext, completion, oi, m, i, previousEnd, line, lineNextAvailable, startDate);
    var p := Emit(sorted[oi], process, i, line, startDate);
    ps' := ps + [p];
    owner' := owner + [oi];
    lineNext' := lineNext[line.id := p.endDate];
    previousEnd' := p.endDate;
  }

  /** The step loop of order `oi` (lines 44-84), from its first step to its last. */
  method PlaceSteps(cfg: SystemConfiguration, sorted: seq<ProductionOrder>, ps: seq<ScheduledProcess>, ghost owner: seq<nat>,
                    lineNext: map<string, Day>, ghost completion: map<string, Day>, oi: nat, m: TrainModel)
    returns (ps': seq<ScheduledProcess>, ghost owner': seq<nat>, lineNext': map<string, Day>, previousEnd: Day)
    requires oi < |sorted| && GetTrainModel(cfg.trainModels, sorted[oi].modelType) == Ok(m)
    requires StateOk(cfg, sorted, ps, owner, lineNext, completion, oi, oi + 1)
    requires OrderInProgress(cfg, ps, owner, oi, m.processes, 0, cfg.startDate)
    ensures StateOk(cfg, sorted, ps', owner', lineNext', completion, oi, oi + 1)
    ensures OrderInProgress(cfg, ps', owner', oi, m.processes, |m.processes|, previousEnd)
  {
    ps', owner', lineNext' := ps, owner, lineNext;
    previousEnd := cfg.startDate;
    var i := 0;
    while i < |m.processes|
      invariant 0 <= i <= |m.processes|
      invariant StateOk(cfg, sorted, ps', owner', lineNext', completion, oi, oi + 1)
      invariant OrderInProgress(cfg, ps', owner', oi, m.processes, i, previousEnd)
    {
      ps', owner', lineNext', previousEnd := PlaceStep(cfg, sorted, ps', owner', lineNext', completion, oi, m, i, previousEnd);
      i := i + 1;
    }
    assert i == |m.processes|;
  }

  /** The steps of order `oi`, whose model is `m` (lines 41-86). */
  method ScheduleOrder(cfg: SystemConfiguration, sorted: seq<ProductionOrder>, ps: seq<ScheduledProcess>, ghost owner: seq<nat>,
                       lineNext: map<string, Day>, completion: map<string, Day>, oi: nat, m: TrainModel)
    returns (ps': seq<ScheduledProcess>, ghost owner': seq<nat>, lineNext': map<string, Day>, completion': map<string, Day>)
    requires oi < |sorted| && GetTrainModel(cfg.trainModels, sorted[oi].modelType) == Ok(m)
    requires StateOk(cfg, sorted, ps, owner, lineNext, completion, oi, oi)
    ensures StateOk(cfg, sorted, ps', owner', lineNext', completion', oi + 1, oi + 1)
  {
    BeginOrder(cfg, sorted, ps, owner, lineNext, completion, oi, m.processes);
    var previousEnd;
    ps', owner', lineNext', previousEnd := PlaceSteps(cfg, sorted, ps, owner, lineNext, completion, oi, m);
    FinishOrder(cfg, sorted, ps', owner', lineNext', completion, oi, m, previousEnd);
    completion' := completion[sorted[oi].id := previousEnd];
  }

  /** `lineAvailability` at the start: every configured line is free from the start date. */
  method InitLineAvailability(lines: seq<ProductionLine>, startDate: Day) returns (m: map<string, Day>)
    ensures forall id :: id in m <==> exists i :: 0 <= i < |lines| && lines[i].id == id
    ensures forall id :: id in m ==> m[id] == startDate
  {
    m := map[];
    var i := 0;
    while i < |lines|
      invariant 0 <= i <= |lines|
      invariant forall id :: id in m <==> exists k :: 0 <= k < i && lines[k].id == id
      invariant forall id :: id in m ==> m[id] == startDate
    {
      m := m[lines[i].id := startDate];
      i := i + 1;
    }
  }

  /** One iteration of the order loop (lines 40-86): the error when the
      order's model is missing, otherwise the order's steps placed. */
  method PlaceOrder(cfg: SystemConfiguration, sorted: seq<ProductionOrder>, procs: seq<ScheduledProcess>, ghost owner: seq<nat>,
                    lineNext: map<string, Day>, completion: map<string, Day>, oi: nat)
    returns (missing: Option<string>, procs': seq<ScheduledProcess>, ghost owner': seq<nat>, lineNext': map<string, Day>,
             completion': map<string, Day>)
    requires oi < |sorted|
    requires StateOk(cfg, sorted, procs, owner, lineNext, completion, oi, oi)
    ensures missing.Some? <==> GetTrainModel(cfg.trainModels, sorted[oi].modelType).Err?
    ensures missing.None? ==> StateOk(cfg, sorted, procs', owner', lineNext', completion', oi + 1, oi + 1)
  {
    var model := GetTrainModel(cfg.trainModels, sorted[oi].modelType);
    if model.Err? {
      return Some(model.error), procs, owner, lineNext, completion;
    }
    missing := None;
    procs', owner', lineNext', completion' := ScheduleOrder(cfg, sorted, procs, owner, lineNext, completion, oi, model.value);
  }

  /** The state before the order loop (lines 29-36). */
  method InitialLoopState(cfg: SystemConfiguration, sorted: seq<ProductionOrder>)
    returns (procs: seq<ScheduledProcess>, ghost owner: seq<nat>, lineNext: map<string, Day>, completion: map<string, Day>)
    ensures procs == [] && completion == map[]
    ensures StateOk(cfg, sorted, procs, owner, lineNext, completion, 0, 0)
  {
    procs, completion := [], map[];
    lineNext := InitLineAvailability(cfg.productionLines, cfg.startDate);
    owner := [];
    InitialState(cfg, sorted, lineNext);
  }

  // ---------------------------------------------------------------------
  // The engine

  class SchedulingEngine {
    const config: SystemConfiguration

    constructor(config: SystemConfiguration)
      ensures this.config == config
    {
      this.config := config;
    }

    /** `scheduleOrders`. It throws iff some order's model is missing;
        otherwise it returns the placed processes, a completion date for
        every order, the usage table over the horizon and the validation of
        the schedule. As a proof device it also returns `owner`: for each
        placed process, the position in the sorted order list of the order
        that placed it. */
    method ScheduleOrders(orders: seq<ProductionOrder>) returns (r: Result<ScheduleResult>, ghost owner: seq<nat>)
      ensures r.Err? <==> SomeModelMissing(config, orders)
      ensures r.Ok? ==> |owner| == |r.value.scheduledProcesses| &&
                        Placed(config, SortByDueDate(orders), r.value.scheduledProcesses, owner)
      ensures r.Ok? ==> r.value.completionDates ==
                          Completions(config, SortByDueDate(orders), r.value.scheduledProcesses, owner, |orders|)
      ensures r.Ok? ==> forall i :: 0 <= i < |orders| ==> orders[i].id in r.value.completionDates
      ensures r.Ok? ==> |r.value.resourceUsage| == Max(0, config.horizonDays)
      ensures r.Ok? ==> forall i :: 0 <= i < |r.value.resourceUsage| ==>
                          r.value.resourceUsage[i] == SS.UsageOn(r.value.scheduledProcesses, config.workerAvailability, config.startDate + i)
      ensures r.Ok? ==> r.value.validation.conflicts ==
                          LateConflicts(orders, r.value.completionDates) + OverloadConflicts(r.value.resourceUsage)
      ensures r.Ok? ==> (r.value.validation.isValid <==> r.value.validation.conflicts == []) && r.value.validation.warnings == []
    {
      var sorted := SortByDueDate(orders);
      var error, procs, completion;
      ghost var failedAt;
      error, procs, owner, completion, failedAt := PlaceOrders(config, sorted);
      if error.Some? {
        MissingInSorted(config, orders, failedAt);
        return Err(error.value), owner;
      }
      NoneMissing(config, orders);
      var result := AssembleResult(config, orders, procs, owner, completion);
      r := Ok(result);
    }
  }

  /** The end of `scheduleOrders` once every order is placed: the usage
      table over the horizon and the validation of the schedule. */
  method AssembleResult(cfg: SystemConfiguration, orders: seq<ProductionOrder>, procs: seq<ScheduledProcess>,
                        ghost owner: seq<nat>, completion: map<string, Day>)
    returns (result: ScheduleResult)
    requires |owner| == |procs| && completion == Completions(cfg, SortByDueDate(orders), procs, owner, |orders|)
    ensures result.scheduledProcesses == procs && result.completionDates == completion
    ensures forall i :: 0 <= i < |orders| ==> orders[i].id in completion
    ensures |result.resourceUsage| == Max(0, cfg.horizonDays)
    ensures forall i :: 0 <= i < |result.resourceUsage| ==>
              result.resourceUsage[i] == SS.UsageOn(procs, cfg.workerAvailability, cfg.startDate + i)
    ensures result.validation.conflicts == LateConflicts(orders, completion) + OverloadConflicts(result.resourceUsage)
    ensures (result.validation.isValid <==> result.validation.conflicts == []) && result.validation.warnings == []
  {
    EveryOrderCompleted(cfg, orders, procs, owner);
    var resourceUsage := SS.CalculateResourceUsage(procs, cfg.workerAvailability, cfg.startDate, cfg.horizonDays);
    var validation;
    ghost var usage;
    validation, usage := ValidateSchedule(cfg, procs, orders, completion);
    assert usage == resourceUsage;
    result := ScheduleResult(procs, validation, resourceUsage, completion);
  }

  /** The order loop of `scheduleOrders` (lines 39-87) on the sorted orders:
      either the error of the first order without a model, or the placed
      processes and the completion dates. */
  method PlaceOrders(cfg: SystemConfiguration, sorted: seq<ProductionOrder>)
    returns (error: Option<string>, procs: seq<ScheduledProcess>, ghost owner: seq<nat>, completion: map<string, Day>,
             ghost failedAt: nat)
    ensures error.Some? ==> failedAt < |sorted| && GetTrainModel(cfg.trainModels, sorted[failedAt].modelType).Err?
    ensures error.None? ==> Placed(cfg, sorted, procs, owner) && completion == Completions(cfg, sorted, procs, owner, |sorted|)
  {
    var lineNext;
    procs, owner, lineNext, completion := InitialLoopState(cfg, sorted);
    failedAt := 0;
    var oi := 0;
    while oi < |sorted|
      invariant 0 <= oi <= |sorted|
      invariant StateOk(cfg, sorted, procs, owner, lineNext, completion, oi, oi)
    {
      var missing;
      missing, procs, owner, lineNext, completion := PlaceOrder(cfg, sorted, procs, owner, lineNext, completion, oi);
      if missing.Some? {
        return missing, procs, owner, completion, oi;
      }
      oi := oi + 1;
    }
    AllOrdersPlaced(cfg, sorted, procs, owner, lineNext, completion, oi);
    error := None;
  }
}
