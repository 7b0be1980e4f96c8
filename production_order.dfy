/** A production order and its status state machine
    (aps-train-system/src/domain/entities/ProductionOrder.ts). Orders are
    immutable: every transition rebuilds the order through `Create`, which
    re-validates it. The wall-clock reads of the source (`new Date()` as the
    default creation time and as the completion time) are the `now`
    parameter; timestamps are kept at day granularity. */
module ProductionOrder {
  import opened Common

  datatype OrderStatus = Pending | Scheduled | InProgress | Completed | Cancelled

  datatype ProductionOrder = ProductionOrder(
    id: string,
    modelType: string,
    dueDate: Day,
    priority: int,
    status: OrderStatus,
    createdAt: Day,
    completedAt: Option<Day>)

  /** `ProductionOrderData`; a due date that is missing or does not parse is `None`. */
  datatype OrderData = OrderData(
    id: string,
    modelType: string,
    dueDate: Option<Day>,
    priority: int,
    status: OrderStatus,
    createdAt: Option<Day>,
    completedAt: Option<Day>)

  /** The invariant `validate` establishes on every constructed order. */
  predicate Valid(o: ProductionOrder)
  {
    !IsBlank(o.id) && !IsBlank(o.modelType) && o.priority >= 0
  }

  function ToData(o: ProductionOrder): OrderData
  {
    OrderData(o.id, o.modelType, Some(o.dueDate), o.priority, o.status, Some(o.createdAt), o.completedAt)
  }

  /** `ProductionOrder.create`: fails iff the id or model type is blank,
      the due date is missing or invalid, or the priority is negative. */
  function Create(data: OrderData, now: Day): (r: Result<ProductionOrder>)
    ensures r.Ok? <==> !IsBlank(data.id) && !IsBlank(data.modelType) && data.dueDate.Some? && data.priority >= 0
    ensures r.Ok? ==> Valid(r.value) && ToData(r.value) == data.(createdAt := Some(r.value.createdAt))
    ensures r.Ok? ==> r.value.createdAt == if data.createdAt.Some? then data.createdAt.value else now
  {
    if IsBlank(data.id) then Err("Production order ID is required")
    else if IsBlank(data.modelType) then Err("Model type is required")
    else if data.dueDate.None? then Err("Due date must be a valid ISO date string")
    else if data.priority < 0 then Err("Priority cannot be negative")
    else
      var created := if data.createdAt.Some? then data.createdAt.value else now;
      Ok(ProductionOrder(data.id, data.modelType, data.dueDate.value, data.priority, data.status, created, data.completedAt))
  }

  /** Re-creating a valid order from its own data gives it back. */
  lemma CreateToData(o: ProductionOrder, now: Day)
    requires Valid(o)
    ensures Create(ToData(o), now) == Ok(o)
  {
  }

  /** `canSchedule`: only a pending order can be scheduled. */
  function CanSchedule(o: ProductionOrder): bool
  {
    o.status == Pending
  }

  /** `canSchedule` says exactly when `markAsScheduled` succeeds. */
  lemma CanScheduleIffMarkable(o: ProductionOrder, now: Day)
    requires Valid(o)
    ensures CanSchedule(o) <==> MarkAsScheduled(o, now).Ok?
  {
  }

  /** `markAsScheduled`: only from pending, to scheduled; nothing else changes. */
  function MarkAsScheduled(o: ProductionOrder, now: Day): (r: Result<ProductionOrder>)
    requires Valid(o)
    ensures r.Ok? <==> o.status == Pending
    ensures r.Ok? ==> r.value.status == Scheduled && r.value.(status := o.status) == o
  {
    if !CanSchedule(o) then Err("Order cannot be scheduled from current status")
    else Create(ToData(o).(status := Scheduled), now)
  }

  /** `startProduction`: only from scheduled, to in progress. */
  function StartProduction(o: ProductionOrder, now: Day): (r: Result<ProductionOrder>)
    requires Valid(o)
    ensures r.Ok? <==> o.status == Scheduled
    ensures r.Ok? ==> r.value.status == InProgress && r.value.(status := o.status) == o
  {
    if o.status != Scheduled then Err("Order must be scheduled before starting production")
    else Create(ToData(o).(status := InProgress), now)
  }

  /** `complete`: only from in progress, to completed, stamping the completion time. */
  function Complete(o: ProductionOrder, now: Day): (r: Result<ProductionOrder>)
    requires Valid(o)
    ensures r.Ok? <==> o.status == InProgress
    ensures r.Ok? ==> r.value.status == Completed && r.value.completedAt == Some(now)
    ensures r.Ok? ==> r.value.(status := o.status, completedAt := o.completedAt) == o
  {
    if o.status != InProgress then Err("Order must be in progress to complete")
    else Create(ToData(o).(status := Completed, completedAt := Some(now)), now)
  }

  /** `cancel`: from every status except completed, to cancelled. */
  function Cancel(o: ProductionOrder, now: Day): (r: Result<ProductionOrder>)
    requires Valid(o)
    ensures r.Ok? <==> o.status != Completed
    ensures r.Ok? ==> r.value.status == Cancelled && r.value.(status := o.status) == o
  {
    if o.status == Completed then Err("Cannot cancel completed order")
    else Create(ToData(o).(status := Cancelled), now)
  }

  /** The forward chain pending, scheduled, in progress, completed goes
      through, and a completed order can no longer move at all. */
  lemma {:induction false} LifecycleChain(o: ProductionOrder, t1: Day, t2: Day, t3: Day)
    requires Valid(o) && o.status == Pending
    ensures MarkAsScheduled(o, t1).Ok?
    ensures var s := MarkAsScheduled(o, t1).value;
            StartProduction(s, t2).Ok? &&
            var p := StartProduction(s, t2).value;
            Complete(p, t3).Ok? &&
            var c := Complete(p, t3).value;
            c.status == Completed && c.id == o.id && c.completedAt == Some(t3) &&
            MarkAsScheduled(c, t3).Err? && StartProduction(c, t3).Err? &&
            Complete(c, t3).Err? && Cancel(c, t3).Err?
  {
    var s := MarkAsScheduled(o, t1).value;
    var p := StartProduction(s, t2).value;
    var c := Complete(p, t3).value;
    assert Valid(s) && Valid(p) && Valid(c);
  }

  /** `isLate`: never for a completed order, otherwise due strictly before `d`. */
  function IsLate(o: ProductionOrder, d: Day): (r: bool)
    ensures r <==> o.status != Completed && DaysUntilDue(o, d) < 0
  {
    if o.status == Completed then false else o.dueDate < d
  }

  /** `getDaysUntilDue`: whole days from `d` to the due date (negative once overdue). */
  function DaysUntilDue(o: ProductionOrder, d: Day): (n: int)
    ensures d + n == o.dueDate
  {
    o.dueDate - d
  }

  /** A late order is overdue by a positive number of days. */
  lemma LateMeansOverdue(o: ProductionOrder, d: Day)
    ensures IsLate(o, d) ==> DaysUntilDue(o, d) < 0
    ensures o.status != Completed && DaysUntilDue(o, d) < 0 ==> IsLate(o, d)
  {
  }

  /** `withPriority`: changes only the priority; a negative one is rejected. */
  function WithPriority(o: ProductionOrder, priority: int, now: Day): (r: Result<ProductionOrder>)
    requires Valid(o)
    ensures r.Ok? <==> priority >= 0
    ensures r.Ok? ==> r.value.priority == priority && r.value.(priority := o.priority) == o
  {
    Create(ToData(o).(priority := priority), now)
  }

  /** `withDueDate`: changes only the due date; an unparseable one is rejected. */
  function WithDueDate(o: ProductionOrder, dueDate: Option<Day>, now: Day): (r: Result<ProductionOrder>)
    requires Valid(o)
    ensures r.Ok? <==> dueDate.Some?
    ensures r.Ok? ==> r.value.dueDate == dueDate.value && r.value.(dueDate := o.dueDate) == o
  {
    Create(ToData(o).(dueDate := dueDate), now)
  }

  /** `equals` is identity by id: every order equals itself. */
  function Equals(a: ProductionOrder, b: ProductionOrder): (r: bool)
    ensures a == b ==> r
  {
    a.id == b.id
  }

  /** An order stays the same entity through every transition and copy. */
  lemma EqualsAcrossTransitions(o: ProductionOrder, now: Day, priority: int, dueDate: Option<Day>)
    requires Valid(o)
    ensures MarkAsScheduled(o, now).Ok? ==> Equals(MarkAsScheduled(o, now).value, o)
    ensures StartProduction(o, now).Ok? ==> Equals(StartProduction(o, now).value, o)
    ensures Complete(o, now).Ok? ==> Equals(Complete(o, now).value, o)
    ensures Cancel(o, now).Ok? ==> Equals(Cancel(o, now).value, o)
    ensures WithPriority(o, priority, now).Ok? ==> Equals(WithPriority(o, priority, now).value, o)
    ensures WithDueDate(o, dueDate, now).Ok? ==> Equals(WithDueDate(o, dueDate, now).value, o)
  {
  }
}
