/** An immutable pair of calendar days with INCLUSIVE interval predicates
    (aps-train-system/src/domain/value-objects/DateRange.ts). Unlike the
    half-open intervals of the scheduler and validator, here a range that
    ends on the day another starts overlaps it. A date string that
    `Date.parse` rejects is modelled as `None`. */
module DateRange {
  import opened Common

  datatype DateRange = DateRange(start: Day, end: Day)

  predicate Valid(r: DateRange)
  {
    r.start <= r.end
  }

  /** `DateRange.create`: both dates must parse and the start may not be after the end. */
  function Create(start: Option<Day>, end: Option<Day>): (r: Result<DateRange>)
    ensures r.Ok? <==> start.Some? && end.Some? && start.value <= end.value
    ensures r.Ok? ==> Valid(r.value) && r.value.start == start.value && r.value.end == end.value
  {
    if start.None? then Err("Start date must be a valid ISO date string")
    else if end.None? then Err("End date must be a valid ISO date string")
    else if start.value > end.value then Err("Start date cannot be after end date")
    else Ok(DateRange(start.value, end.value))
  }

  /** `getDurationDays`: whole days from start to end. */
  function DurationDays(r: DateRange): (d: int)
    requires Valid(r)
    ensures d >= 0 && r.start + d == r.end
  {
    r.end - r.start
  }

  /** `overlaps`: inclusive at both ends; two valid ranges overlap exactly
      when some day lies in both. */
  function Overlaps(a: DateRange, b: DateRange): (r: bool)
    ensures Valid(a) && Valid(b) ==> (r <==> exists d :: Contains(a, d) && Contains(b, d))
  {
    var m := Max(a.start, b.start);
    assert Valid(a) && Valid(b) && a.start <= b.end && b.start <= a.end ==> Contains(a, m) && Contains(b, m);
    a.start <= b.end && b.start <= a.end
  }

  /** `contains`: inclusive at both ends; only a valid range contains a day. */
  function Contains(r: DateRange, d: Day): (res: bool)
    ensures res ==> Valid(r)
  {
    r.start <= d <= r.end
  }

  /** `containsRange`: a valid range is contained exactly when each of its
      days is. */
  function ContainsRange(a: DateRange, b: DateRange): (r: bool)
    ensures Valid(b) ==> (r <==> forall d :: Contains(b, d) ==> Contains(a, d))
  {
    assert Valid(b) ==> Contains(b, b.start) && Contains(b, b.end);
    a.start <= b.start && b.end <= a.end
  }

  /** `isBefore`: for valid ranges, every day of `a` precedes every day of `b`. */
  function IsBefore(a: DateRange, b: DateRange): (r: bool)
    ensures Valid(a) && Valid(b) ==> (r <==> forall d, e :: Contains(a, d) && Contains(b, e) ==> d < e)
  {
    assert Valid(a) && Valid(b) ==> Contains(a, a.end) && Contains(b, b.start);
    a.end < b.start
  }

  /** `isAfter`: for valid ranges, every day of `a` follows every day of `b`. */
  function IsAfter(a: DateRange, b: DateRange): (r: bool)
    ensures Valid(a) && Valid(b) ==> (r <==> forall d, e :: Contains(a, d) && Contains(b, e) ==> d > e)
  {
    assert Valid(a) && Valid(b) ==> Contains(a, a.start) && Contains(b, b.end);
    a.start > b.end
  }

  /** `shift`: moves both ends by `days`; the result needs no re-validation. */
  function Shift(r: DateRange, days: int): (s: DateRange)
    requires Valid(r)
    ensures Valid(s) && DurationDays(s) == DurationDays(r)
    ensures s.start - r.start == days && s.end - r.end == days
  {
    DateRange(r.start + days, r.end + days)
  }

  /** `extend`: keeps the start and moves the end, failing when that puts the end before the start. */
  function Extend(r: DateRange, days: int): (s: Result<DateRange>)
    requires Valid(r)
    ensures s.Ok? <==> r.end + days >= r.start
    ensures s.Ok? ==> s.value.start == r.start && s.value.end - r.end == days
  {
    Create(Some(r.start), Some(r.end + days))
  }

  /** `equals`: the same start and end, which is value equality. */
  function Equals(a: DateRange, b: DateRange): (r: bool)
    ensures r <==> a == b
  {
    a.start == b.start && a.end == b.end
  }

  /** Overlap is symmetric and, for valid ranges, reflexive; a range that
      ends on the first day of another still overlaps it. */
  lemma OverlapsSymmetric(a: DateRange, b: DateRange)
    ensures Overlaps(a, b) == Overlaps(b, a)
    ensures Valid(a) ==> Overlaps(a, a)
    ensures Valid(a) && Valid(b) && a.end == b.start ==> Overlaps(a, b)
  {
  }

  /** Containing a valid range implies overlapping it, and containing every
      day of it. */
  lemma ContainsRangeImpliesOverlaps(a: DateRange, b: DateRange, d: Day)
    requires Valid(b) && ContainsRange(a, b)
    ensures Overlaps(a, b)
    ensures Contains(b, d) ==> Contains(a, d)
  {
  }

  /** `isBefore` and `isAfter` each exclude `overlaps`, and they are mirror images. */
  lemma BeforeAfterExcludeOverlap(a: DateRange, b: DateRange)
    ensures IsBefore(a, b) ==> !Overlaps(a, b)
    ensures IsAfter(a, b) ==> !Overlaps(a, b)
    ensures IsBefore(a, b) == IsAfter(b, a)
  {
  }

  /** Two ranges either overlap or one lies strictly before the other. */
  lemma OverlapOrSeparated(a: DateRange, b: DateRange)
    requires Valid(a) && Valid(b)
    ensures Overlaps(a, b) || IsBefore(a, b) || IsAfter(a, b)
  {
  }
}
