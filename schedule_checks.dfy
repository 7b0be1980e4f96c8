/** How the scheduler and the independent checker fit together: a schedule
    that `schedule` produces never shows a sequence violation or a line
    conflict, so `validate` can only report late deliveries and overloads. */
module ScheduleChecks {
  import opened Common
  import Sorting
  import PO = ProductionOrder
  import SS = SchedulingService
  import VS = ValidationService

  function OrderId(o: PO.ProductionOrder): string
  {
    o.id
  }

  /** The orders handed to `schedule` have distinct ids, as orders stored
      in the order repository (keyed by id) do. */
  ghost predicate DistinctIds(orders: seq<PO.ProductionOrder>)
  {
    Sorting.InjectiveOn(orders, OrderId)
  }

  /** In the scheduler's outcome two processes with the same order id were
      emitted by the same order: the sorted list keeps the ids distinct. */
  lemma SameIdSameOwner(input: SS.SchedulingInput, ps: seq<SS.ScheduledProcess>, owner: seq<nat>, a: nat, b: nat)
    requires DistinctIds(input.orders)
    requires SS.Placed(input, SS.SortOrdersByDueDate(input.orders), ps, owner)
    requires a < b < |ps| && ps[a].orderId == ps[b].orderId
    ensures owner[a] == owner[b]
  {
    var sorted := SS.SortOrdersByDueDate(input.orders);
    Sorting.SortByInjective(input.orders, SS.DueKey, OrderId);
    assert sorted == Sorting.SortBy(input.orders, SS.DueKey);
    assert SS.WellFormed(input, sorted, ps[a], owner[a]) && SS.WellFormed(input, sorted, ps[b], owner[b]);
    assert forall i, j :: 0 <= i < j < |sorted| ==> OrderId(sorted[i]) != OrderId(sorted[j]);
    assert OrderId(sorted[owner[a]]) == OrderId(sorted[owner[b]]);
  }

  /** Within one order id, the scheduler's processes are in recipe order and
      each ends before the next starts. */
  lemma PlacedInSequence(input: SS.SchedulingInput, ps: seq<SS.ScheduledProcess>, owner: seq<nat>)
    requires DistinctIds(input.orders)
    requires SS.Placed(input, SS.SortOrdersByDueDate(input.orders), ps, owner)
    ensures forall a, b :: 0 <= a < b < |ps| && ps[a].orderId == ps[b].orderId ==> VS.InSequence(ps[a], ps[b])
  {
    forall a, b | 0 <= a < b < |ps| && ps[a].orderId == ps[b].orderId
      ensures VS.InSequence(ps[a], ps[b])
    {
      SameIdSameOwner(input, ps, owner, a, b);
    }
  }

  /** The scheduler's outcome passes `checkProcessSequence` and
      `checkLineConflicts`: it never delays a step behind another step of
      its order wrongly, and never books a line twice on one day. */
  lemma PlacedIsConflictFree(input: SS.SchedulingInput, ps: seq<SS.ScheduledProcess>, owner: seq<nat>)
    requires DistinctIds(input.orders)
    requires SS.Placed(input, SS.SortOrdersByDueDate(input.orders), ps, owner)
    ensures VS.SequenceConflicts(ps) == []
    ensures VS.LineConflicts(ps) == []
  {
    PlacedInSequence(input, ps, owner);
    VS.NoSequenceViolations(ps);
    assert forall a, b :: 0 <= a < b < |ps| && ps[a].productionLineId == ps[b].productionLineId ==> VS.EndsBefore(ps[a], ps[b]);
    VS.NoLineConflicts(ps);
  }

  /** Every conflict `validate` reports on the scheduler's output is a late
      delivery or an overload. */
  lemma OnlyLateOrOverloaded(input: SS.SchedulingInput, ps: seq<SS.ScheduledProcess>, owner: seq<nat>,
                             completion: map<string, Day>, usage: seq<SS.DailyResourceUsage>)
    requires DistinctIds(input.orders)
    requires SS.Placed(input, SS.SortOrdersByDueDate(input.orders), ps, owner)
    ensures VS.AllConflicts(ps, input.orders, completion, usage) ==
            VS.LateConflicts(input.orders, completion) + VS.OverloadConflicts(usage)
  {
    PlacedIsConflictFree(input, ps, owner);
    var late, over := VS.LateConflicts(input.orders, completion), VS.OverloadConflicts(usage);
    assert late + over + [] + [] == late + over;
  }
}
