/** A constructed scenario: the demo data's order B1 (model B, due
    2026-01-15) and its ten-day worker availability table, scheduled from
    2026-01-10 on the configuration repository's seeded lines and model B
    recipe. Day 20463 is 2026-01-10. */
module DemoScenario {
  import opened Common
  import PO = ProductionOrder
  import TM = TrainModel
  import SS = SchedulingService
  import VS = ValidationService
  import CR = ConfigRepository

  const Jan10: Day := 20463

  /** Workers per day from 2026-01-10 to 2026-01-19. */
  function DemoAvailability(): seq<SS.WorkerAvailability>
  {
    [SS.WorkerAvailability(Jan10, 5), SS.WorkerAvailability(Jan10 + 1, 5),
     SS.WorkerAvailability(Jan10 + 2, 4), SS.WorkerAvailability(Jan10 + 3, 5),
     SS.WorkerAvailability(Jan10 + 4, 5), SS.WorkerAvailability(Jan10 + 5, 3),
     SS.WorkerAvailability(Jan10 + 6, 5), SS.WorkerAvailability(Jan10 + 7, 5),
     SS.WorkerAvailability(Jan10 + 8, 5), SS.WorkerAvailability(Jan10 + 9, 4)]
  }

  /** Order B1: model B, due 2026-01-15, priority 1, pending since 2026-01-10. */
  function B1(): PO.ProductionOrder
  {
    PO.ProductionOrder("B1", "B", Jan10 + 5, 1, PO.Pending, Jan10, None)
  }

  /** Model B as the demo data describes it, with the repository's recipe. */
  function ModelB(): TM.TrainModel
  {
    TM.TrainModel("B", "Tren Modelo B - Regional", CR.ModelBProcesses())
  }

  function DemoInput(): SS.SchedulingInput
  {
    SS.SchedulingInput([B1()], CR.DefaultLines(), [ModelB()], DemoAvailability(), Jan10, 10)
  }

  /** Preparación on 01-10, Torneado 01-11 to 01-13, Pintado on 01-14. */
  function B1Schedule(): seq<SS.ScheduledProcess>
  {
    [SS.ScheduledProcess("B1", "B", CR.Preparacion, 0, "preparacion-line-1", Jan10, Jan10 + 1, 1),
     SS.ScheduledProcess("B1", "B", CR.Torneado, 1, "torneado-line-1", Jan10 + 1, Jan10 + 4, 2),
     SS.ScheduledProcess("B1", "B", CR.Pintado, 2, "pintado-line-1", Jan10 + 4, Jan10 + 5, 2)]
  }

  /** A start whose own window already fits is not pushed. */
  lemma FitsAtOnce(earliest: Day, durationDays: int, needed: int, avail: seq<SS.WorkerAvailability>, r: Day)
    requires SS.WindowFits(earliest, durationDays, needed, avail)
    requires SS.ChosenStart(earliest, durationDays, needed, avail, r)
    ensures r == earliest
  {
  }

  /** With every step owned by one order, its owned indices are all the indices, in order. */
  lemma {:induction false} OwnedBySingleOrder(ps: seq<SS.ScheduledProcess>, owner: seq<nat>)
    requires |owner| == |ps| && forall k :: 0 <= k < |owner| ==> owner[k] == 0
    ensures |SS.OwnedIndices(ps, owner, 0)| == |ps|
    ensures forall k :: 0 <= k < |ps| ==> SS.OwnedIndices(ps, owner, 0)[k] == ps[k].processIndex
  {
    if ps != [] {
      var n := |ps| - 1;
      OwnedBySingleOrder(ps[..n], owner[..n]);
    }
  }

  /** Each step of model B has a line: the first Preparación line, the
      Torneado line and the Pintado line. */
  lemma ModelBLines()
    ensures SS.FindSuitableLine(CR.DefaultLines(), CR.Preparacion) == Some(CR.DefaultLines()[0])
    ensures SS.FindSuitableLine(CR.DefaultLines(), CR.Torneado) == Some(CR.DefaultLines()[2])
    ensures SS.FindSuitableLine(CR.DefaultLines(), CR.Pintado) == Some(CR.DefaultLines()[3])
    ensures SS.MatchedSteps(CR.ModelBProcesses(), CR.DefaultLines(), 3) == [0, 1, 2]
  {
    var ls := CR.DefaultLines();
    assert CR.Preparacion[0] != CR.Torneado[0] && CR.Preparacion[1] != CR.Pintado[1] && CR.Torneado[0] != CR.Pintado[0];
    assert ls[1..][1..] == ls[2..] && ls[2..][1..] == ls[3..];
  }

  /** The demo availability has at least three workers on every day. */
  lemma {:induction false} AtLeastThree(avail: seq<SS.WorkerAvailability>, d: Day)
    requires forall i :: 0 <= i < |avail| ==> avail[i].availableWorkers >= 3
    ensures SS.AvailableWorkers(avail, d) >= 3
  {
    if avail != [] && avail[0].date != d {
      assert forall i :: 0 <= i < |avail| - 1 ==> avail[1..][i] == avail[i + 1];
      AtLeastThree(avail[1..], d);
    }
  }

  /** The shape the scheduler's specification forces: three processes of
      B1, steps 0, 1, 2, on the lines and with the crews and durations of the recipe. */
  lemma B1Shape(ps: seq<SS.ScheduledProcess>, owner: seq<nat>)
    requires SS.Placed(DemoInput(), [B1()], ps, owner)
    ensures |ps| == 3 && owner == [0, 0, 0]
    ensures forall k :: 0 <= k < 3 ==> ps[k].orderId == "B1" && ps[k].modelType == "B" && ps[k].processIndex == k
    ensures ps[0].processName == CR.Preparacion && ps[0].productionLineId == "preparacion-line-1" &&
            ps[0].workersAssigned == 1 && ps[0].endDate == ps[0].startDate + 1
    ensures ps[1].processName == CR.Torneado && ps[1].productionLineId == "torneado-line-1" &&
            ps[1].workersAssigned == 2 && ps[1].endDate == ps[1].startDate + 3
    ensures ps[2].processName == CR.Pintado && ps[2].productionLineId == "pintado-line-1" &&
            ps[2].workersAssigned == 2 && ps[2].endDate == ps[2].startDate + 1
  {
    var input := DemoInput();
    ModelBLines();
    assert SS.FindModel(input.models, "B") == Some(ModelB());
    assert SS.ExpectedIndices(input, B1()) == [0, 1, 2];
    assert forall k :: 0 <= k < |owner| ==> owner[k] < 1;
    OwnedBySingleOrder(ps, owner);
    assert SS.OwnedIndices(ps, owner, 0) == [0, 1, 2];
    assert owner == [0, 0, 0];
    var steps := CR.ModelBProcesses();
    forall k | 0 <= k < 3
      ensures ps[k].orderId == "B1" && ps[k].modelType == "B" && ps[k].processIndex == k
      ensures ps[k].processName == steps[k].processName && ps[k].endDate == ps[k].startDate + steps[k].durationDays
      ensures ps[k].productionLineId == SS.FindSuitableLine(input.lines, steps[k].operationType).value.id
      ensures ps[k].workersAssigned == SS.FindSuitableLine(input.lines, steps[k].operationType).value.workersRequired
    {
      assert SS.WellFormed(input, [B1()], ps[k], owner[k]);
    }
  }

  /** The table has one entry per day, so each of the ten days reads its own entry. */
  lemma DemoAvailabilityAt(i: nat)
    requires i < 10
    ensures SS.AvailableWorkers(DemoAvailability(), Jan10 + i) == DemoAvailability()[i].availableWorkers
  {
    var avail := DemoAvailability();
    assert forall j :: 0 <= j < 10 ==> avail[j].date == Jan10 + j;
    SS.AvailableWorkersFirst(avail, Jan10 + i);
  }

  lemma B1Start0(ps: seq<SS.ScheduledProcess>, owner: seq<nat>)
    requires SS.Placed(DemoInput(), [B1()], ps, owner)
    ensures |ps| == 3 && ps[0].startDate == Jan10
  {
    B1Shape(ps, owner);
    var avail := DemoAvailability();
    assert SS.StartChosen(ps, owner, 0, avail, Jan10);
    DemoAvailabilityAt(0);
    FitsAtOnce(Jan10, 1, 1, avail, ps[0].startDate);
  }

  lemma B1Start1(ps: seq<SS.ScheduledProcess>, owner: seq<nat>)
    requires SS.Placed(DemoInput(), [B1()], ps, owner)
    ensures |ps| == 3 && ps[1].startDate == Jan10 + 1
  {
    B1Shape(ps, owner);
    B1Start0(ps, owner);
    assert SS.StartChosen(ps, owner, 1, DemoAvailability(), Jan10);
    SecondStart(ps, owner);
  }

  /** Torneado, chosen after Preparación ends on its own line, starts at once. */
  lemma SecondStart(ps: seq<SS.ScheduledProcess>, owner: seq<nat>)
    requires |ps| == 3 && owner == [0, 0, 0]
    requires ps[0].productionLineId == "preparacion-line-1" && ps[0].endDate == Jan10 + 1
    requires ps[1].productionLineId == "torneado-line-1" && ps[1].workersAssigned == 2 && ps[1].endDate == ps[1].startDate + 3
    requires SS.StartChosen(ps, owner, 1, DemoAvailability(), Jan10)
    ensures ps[1].startDate == Jan10 + 1
  {
    var avail := DemoAvailability();
    assert ps[..1][..0] == [] && owner[..1][..0] == [];
    assert "preparacion-line-1"[0] != "torneado-line-1"[0];
    assert SS.LastLineEnd(ps[..1], ps[1].productionLineId, Jan10) == Jan10;
    DemoAvailabilityAt(1);
    DemoAvailabilityAt(2);
    DemoAvailabilityAt(3);
    FitsAtOnce(Jan10 + 1, 3, 2, avail, ps[1].startDate);
  }

  lemma B1Start2(ps: seq<SS.ScheduledProcess>, owner: seq<nat>)
    requires SS.Placed(DemoInput(), [B1()], ps, owner)
    ensures |ps| == 3 && ps[2].startDate == Jan10 + 4
  {
    B1Shape(ps, owner);
    B1Start1(ps, owner);
    assert SS.StartChosen(ps, owner, 2, DemoAvailability(), Jan10);
    ThirdStart(ps, owner);
  }

  /** Pintado, chosen after Torneado ends, starts at once. */
  lemma ThirdStart(ps: seq<SS.ScheduledProcess>, owner: seq<nat>)
    requires |ps| == 3 && owner == [0, 0, 0]
    requires ps[0].productionLineId == "preparacion-line-1" && ps[1].productionLineId == "torneado-line-1"
    requires ps[1].endDate == Jan10 + 4
    requires ps[2].productionLineId == "pintado-line-1" && ps[2].workersAssigned == 2 && ps[2].endDate == ps[2].startDate + 1
    requires SS.StartChosen(ps, owner, 2, DemoAvailability(), Jan10)
    ensures ps[2].startDate == Jan10 + 4
  {
    var avail := DemoAvailability();
    var ps2, owner2 := ps[..2], owner[..2];
    assert ps2[..1] == ps[..1] && owner2[..1] == owner[..1] && ps[..1][..0] == [];
    assert SS.LastOrderEnd(ps2, owner2, 0, Jan10) == Jan10 + 4;
    assert "preparacion-line-1"[1] != "pintado-line-1"[1] && "torneado-line-1"[0] != "pintado-line-1"[0];
    assert SS.LastLineEnd(ps[..1], ps[2].productionLineId, Jan10) == Jan10;
    assert SS.LastLineEnd(ps2, ps[2].productionLineId, Jan10) == Jan10;
    DemoAvailabilityAt(4);
    FitsAtOnce(Jan10 + 4, 1, 2, avail, ps[2].startDate);
  }

  /** Every placement that meets the scheduler's specification on the demo
      input is the demo schedule: each step starts as soon as the one
      before it ends, because every window has enough workers. */
  lemma B1Placement(ps: seq<SS.ScheduledProcess>, owner: seq<nat>)
    requires SS.Placed(DemoInput(), [B1()], ps, owner)
    ensures ps == B1Schedule()
  {
    B1Shape(ps, owner);
    B1Start0(ps, owner);
    B1Start1(ps, owner);
    B1Start2(ps, owner);
  }

  /** No day of the demo has more workers booked than available. */
  lemma B1NeverOverloaded(d: Day)
    ensures SS.AssignedOn(B1Schedule(), d) <= SS.AvailableWorkers(DemoAvailability(), d)
  {
    AtLeastThree(DemoAvailability(), d);
    var ps := B1Schedule();
    assert ps[..3] == ps && ps[..2][..1] == ps[..1] && ps[..3][..2] == ps[..2] && ps[..1][..0] == [];
    assert SS.AssignedOn(ps[..1], d) <= 1;
    assert SS.AssignedOn(ps[..2], d) <= 2;
  }

  /** `schedule` on the demo input: B1 runs Preparación on 2026-01-10,
      Torneado from 2026-01-11 and Pintado on 2026-01-14, and completes on
      2026-01-15, its due date. */
  method RunDemo() returns (result: SS.SchedulingResult)
    ensures result.scheduledProcesses == B1Schedule()
    ensures result.completionDates == map["B1" := Jan10 + 5]
    ensures |result.resourceUsage| == 10
    ensures forall i :: 0 <= i < 10 ==> !result.resourceUsage[i].isOverloaded
  {
    var input := DemoInput();
    ModelFromRepositoryValid();
    ghost var owner;
    result, owner := SS.Schedule(input);
    assert SS.SortOrdersByDueDate(input.orders) == [B1()];
    B1Placement(result.scheduledProcesses, owner);
    assert SS.HasModel(input, B1());
    assert SS.LastOrderEnd(result.scheduledProcesses, owner, 0, Jan10) == Jan10 + 5;
    assert result.completionDates == SS.Completions(input, [B1()], result.scheduledProcesses, owner, 1);
    forall i | 0 <= i < 10
      ensures !result.resourceUsage[i].isOverloaded
    {
      B1NeverOverloaded(Jan10 + i);
    }
  }

  /** The model's steps are valid recipe steps. */
  lemma ModelFromRepositoryValid()
    ensures SS.ModelsValid([ModelB()])
  {
    CR.DefaultStepsValid();
    assert CR.DefaultRecipes()[1] == ModelB().processes;
  }

  /** `TrainModel.create` accepts model B: its id and description are not
      blank and its three steps have distinct names. */
  lemma ModelBCreated()
    ensures TM.Create("B", "Tren Modelo B - Regional", CR.ModelBProcesses()) == Ok(ModelB())
    ensures TM.Valid(ModelB())
  {
    var steps := CR.ModelBProcesses();
    assert !IsJsWhitespace("B"[0]) && !IsJsWhitespace(ModelB().description[0]);
    assert steps[0].processName[0] != steps[1].processName[0];
    assert steps[0].processName[1] != steps[2].processName[1];
    assert steps[1].processName[0] != steps[2].processName[0];
  }

  /** `validate` on the demo result finds nothing: B1 is on time, no day is
      overloaded, and the schedule has no sequence or line conflict. */
  method ValidateDemo() returns (report: VS.ValidationResult)
    ensures report.isValid && report.conflicts == [] && report.warnings == []
  {
    var result := RunDemo();
    var input := DemoInput();
    report := VS.Validate(result.scheduledProcesses, input.orders, result.completionDates, result.resourceUsage);
    VS.LateConflictsNone(input.orders, result.completionDates);
    VS.OverloadConflictsNone(result.resourceUsage);
    DemoConflictFree();
  }

  /** The demo schedule passes the sequence and line checks. */
  lemma DemoConflictFree()
    ensures VS.SequenceConflicts(B1Schedule()) == [] && VS.LineConflicts(B1Schedule()) == []
  {
    var ps := B1Schedule();
    VS.NoSequenceViolations(ps);
    VS.NoLineConflicts(ps);
  }
}
