/** A physical production line serving one operation type
    (aps-train-system/src/domain/entities/ProductionLine.ts). */
module ProductionLine {
  import opened Common

  datatype ProductionLine = ProductionLine(
    id: string,
    operationType: string,
    lineNumber: int,
    workersRequired: int,
    isActive: bool)

  /** `ProductionLineData` carries the same five fields. */
  type ProductionLineData = ProductionLine

  predicate Valid(l: ProductionLine)
  {
    !IsBlank(l.id) && !IsBlank(l.operationType) && l.lineNumber > 0 && l.workersRequired >= 0
  }

  /** `ProductionLine.create`: fails iff the id or operation type is blank, the
      line number is not positive or the worker count is negative. */
  function Create(data: ProductionLineData): (r: Result<ProductionLine>)
    ensures r.Ok? <==> Valid(data)
    ensures r.Ok? ==> r.value == data
  {
    if IsBlank(data.id) then Err("Production line ID is required")
    else if IsBlank(data.operationType) then Err("Operation type is required")
    else if data.lineNumber <= 0 then Err("Line number must be greater than 0")
    else if data.workersRequired < 0 then Err("Workers required cannot be negative")
    else Ok(data)
  }

  /** `canPerformOperation`: the line is active and serves `operationType`. */
  function CanPerformOperation(l: ProductionLine, operationType: string): bool
  {
    l.isActive && l.operationType == operationType
  }

  /** `withActiveStatus`: changes only the active flag and never fails on a valid line. */
  function WithActiveStatus(l: ProductionLine, isActive: bool): (r: Result<ProductionLine>)
    requires Valid(l)
    ensures r.Ok? && Valid(r.value)
    ensures r.value.isActive == isActive && r.value.(isActive := l.isActive) == l
  {
    Create(l.(isActive := isActive))
  }

  function Activate(l: ProductionLine): (r: Result<ProductionLine>)
    requires Valid(l)
    ensures r.Ok? && r.value.isActive && r.value.(isActive := l.isActive) == l
  {
    WithActiveStatus(l, true)
  }

  function Deactivate(l: ProductionLine): (r: Result<ProductionLine>)
    requires Valid(l)
    ensures r.Ok? && !r.value.isActive && r.value.(isActive := l.isActive) == l
  {
    WithActiveStatus(l, false)
  }

  /** Activating or deactivating twice is the same as doing it once, and a
      deactivated line can perform no operation. */
  lemma ActivationIdempotent(l: ProductionLine, op: string)
    requires Valid(l)
    ensures Activate(Activate(l).value) == Activate(l)
    ensures Deactivate(Deactivate(l).value) == Deactivate(l)
    ensures !CanPerformOperation(Deactivate(l).value, op)
    ensures CanPerformOperation(Activate(l).value, op) <==> l.operationType == op
  {
  }

  /** `withWorkers`: changes only the worker count; a negative count is rejected. */
  function WithWorkers(l: ProductionLine, workersRequired: int): (r: Result<ProductionLine>)
    requires Valid(l)
    ensures r.Ok? <==> workersRequired >= 0
    ensures r.Ok? ==> r.value.workersRequired == workersRequired && r.value.(workersRequired := l.workersRequired) == l
  {
    Create(l.(workersRequired := workersRequired))
  }

  /** `equals` is identity by id: every line equals itself. */
  function Equals(a: ProductionLine, b: ProductionLine): (r: bool)
    ensures a == b ==> r
  {
    a.id == b.id
  }

  /** A line stays the same entity through activation and a new crew. */
  lemma EqualsAcrossCopies(l: ProductionLine, isActive: bool, workersRequired: int)
    requires Valid(l)
    ensures Equals(WithActiveStatus(l, isActive).value, l)
    ensures Equals(Activate(l).value, l) && Equals(Deactivate(l).value, l)
    ensures WithWorkers(l, workersRequired).Ok? ==> Equals(WithWorkers(l, workersRequired).value, l)
  {
  }
}
