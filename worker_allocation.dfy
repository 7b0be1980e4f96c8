/** A number of workers: a whole number between 0 and 100 (the value object
    of aps-train-system/src/domain/value-objects/WorkerAllocation.ts).
    JavaScript numbers may be fractional, so the factory takes a `real`. */
module WorkerAllocation {
  import opened Common

  const MaxWorkers := 100

  datatype WorkerAllocation = WorkerAllocation(count: int)

  /** The invariant every constructed allocation satisfies. */
  predicate Valid(w: WorkerAllocation)
  {
    0 <= w.count <= MaxWorkers
  }

  predicate IsWhole(x: real)
  {
    x.Floor as real == x
  }

  /** `WorkerAllocation.create`: rejects negative, fractional and too large counts. */
  function Create(count: real): (r: Result<WorkerAllocation>)
    ensures r.Ok? <==> 0.0 <= count <= MaxWorkers as real && IsWhole(count)
    ensures r.Ok? ==> Valid(r.value) && r.value.count as real == count
  {
    if count < 0.0 then Err("Worker allocation cannot be negative")
    else if !IsWhole(count) then Err("Worker allocation must be a whole number")
    else if count > MaxWorkers as real then Err("Worker allocation cannot exceed 100 workers")
    else Ok(WorkerAllocation(count.Floor))
  }

  /** `isZero`: equal to the empty allocation. */
  function IsZero(w: WorkerAllocation): (r: bool)
    ensures r <==> Equals(w, WorkerAllocation(0))
  {
    w.count == 0
  }

  /** `isAvailable`: a valid allocation is available exactly when it can
      serve a request for one worker. */
  function IsAvailable(w: WorkerAllocation): (r: bool)
    ensures Valid(w) ==> (r <==> CanAllocate(w, WorkerAllocation(1)))
  {
    w.count > 0
  }

  /** A valid allocation is either zero or available, never both. */
  lemma ZeroXorAvailable(w: WorkerAllocation)
    requires Valid(w)
    ensures IsZero(w) != IsAvailable(w)
  {
  }

  /** `add`: the sum, failing when it exceeds 100. */
  function Add(a: WorkerAllocation, b: WorkerAllocation): (r: Result<WorkerAllocation>)
    requires Valid(a) && Valid(b)
    ensures r.Ok? <==> a.count + b.count <= MaxWorkers
    ensures r.Ok? ==> Valid(r.value) && r.value.count == a.count + b.count
  {
    Create((a.count + b.count) as real)
  }

  /** `subtract`: the difference clamped at zero; it never fails. */
  function Subtract(a: WorkerAllocation, b: WorkerAllocation): (r: Result<WorkerAllocation>)
    requires Valid(a) && Valid(b)
    ensures r.Ok? && Valid(r.value)
    ensures r.value.count == if a.count >= b.count then a.count - b.count else 0
  {
    Create(Max(0, a.count - b.count) as real)
  }

  /** `canAllocate`: enough workers for the requested allocation, that is,
      taking the request away needs no clamping at zero. */
  function CanAllocate(w: WorkerAllocation, requested: WorkerAllocation): (r: bool)
    ensures Valid(w) && Valid(requested) ==> (r <==> Subtract(w, requested).value.count == w.count - requested.count)
  {
    w.count >= requested.count
  }

  /** `isGreaterThan`: the converse of `isLessThan`. */
  function IsGreaterThan(a: WorkerAllocation, b: WorkerAllocation): (r: bool)
    ensures r <==> IsLessThan(b, a)
  {
    a.count > b.count
  }

  /** `isLessThan`: too few workers to serve the other allocation. */
  function IsLessThan(a: WorkerAllocation, b: WorkerAllocation): (r: bool)
    ensures r <==> !CanAllocate(a, b)
  {
    a.count < b.count
  }

  /** `equals`: the same count, which is value equality. */
  function Equals(a: WorkerAllocation, b: WorkerAllocation): (r: bool)
    ensures r <==> a == b
  {
    a.count == b.count
  }

  /** The comparisons are the integer order on counts: exactly one of
      greater, less and equal holds, and an allocation can serve a request
      exactly when it is not less than it. */
  lemma ComparisonsTrichotomy(a: WorkerAllocation, b: WorkerAllocation)
    ensures IsGreaterThan(a, b) || IsLessThan(a, b) || Equals(a, b)
    ensures !(IsGreaterThan(a, b) && IsLessThan(a, b)) && !(Equals(a, b) && (IsGreaterThan(a, b) || IsLessThan(a, b)))
    ensures CanAllocate(a, b) <==> !IsLessThan(a, b)
    ensures Equals(a, b) <==> a == b
  {
  }
}
