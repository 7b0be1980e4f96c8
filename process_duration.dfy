/** A process duration: a whole number of days between 1 and 365 (the value
    object of aps-train-system/src/domain/value-objects/ProcessDuration.ts). */
module ProcessDuration {
  import opened Common

  const MaxDays := 365

  datatype ProcessDuration = ProcessDuration(days: int)

  predicate Valid(d: ProcessDuration)
  {
    1 <= d.days <= MaxDays
  }

  predicate IsWhole(x: real)
  {
    x.Floor as real == x
  }

  /** `ProcessDuration.fromDays`: rejects non-positive, fractional and too long durations. */
  function FromDays(days: real): (r: Result<ProcessDuration>)
    ensures r.Ok? <==> 0.0 < days <= MaxDays as real && IsWhole(days)
    ensures r.Ok? ==> Valid(r.value) && r.value.days as real == days
  {
    if days <= 0.0 then Err("Process duration must be greater than 0 days")
    else if !IsWhole(days) then Err("Process duration must be a whole number of days")
    else if days > MaxDays as real then Err("Process duration cannot exceed 365 days")
    else Ok(ProcessDuration(days.Floor))
  }

  /** `add`: the sum, failing when it exceeds 365 days. */
  function Add(a: ProcessDuration, b: ProcessDuration): (r: Result<ProcessDuration>)
    requires Valid(a) && Valid(b)
    ensures r.Ok? <==> a.days + b.days <= MaxDays
    ensures r.Ok? ==> Valid(r.value) && r.value.days == a.days + b.days
  {
    FromDays((a.days + b.days) as real)
  }

  /** `subtract`: the difference clamped at one day; it never fails. */
  function Subtract(a: ProcessDuration, b: ProcessDuration): (r: Result<ProcessDuration>)
    requires Valid(a) && Valid(b)
    ensures r.Ok? && Valid(r.value)
    ensures r.value.days == if a.days - b.days >= 1 then a.days - b.days else 1
  {
    FromDays(Max(1, a.days - b.days) as real)
  }

  /** `isGreaterThan`: the converse of `isLessThan`. */
  function IsGreaterThan(a: ProcessDuration, b: ProcessDuration): (r: bool)
    ensures r <==> IsLessThan(b, a)
  {
    a.days > b.days
  }

  /** `isLessThan`: for valid durations, `a` is shorter exactly when
      subtracting it from `b` needs no clamping at one day. */
  function IsLessThan(a: ProcessDuration, b: ProcessDuration): (r: bool)
    ensures Valid(a) && Valid(b) ==> (r <==> Subtract(b, a).value.days == b.days - a.days)
  {
    a.days < b.days
  }

  /** `equals`: the same number of days, which is value equality. */
  function Equals(a: ProcessDuration, b: ProcessDuration): (r: bool)
    ensures r <==> a == b
  {
    a.days == b.days
  }

  /** Exactly one of greater, less and equal holds; equality is value equality. */
  lemma ComparisonsTrichotomy(a: ProcessDuration, b: ProcessDuration)
    ensures IsGreaterThan(a, b) || IsLessThan(a, b) || Equals(a, b)
    ensures !(IsGreaterThan(a, b) && IsLessThan(a, b)) && !(Equals(a, b) && (IsGreaterThan(a, b) || IsLessThan(a, b)))
    ensures Equals(a, b) <==> a == b
  {
  }
}
