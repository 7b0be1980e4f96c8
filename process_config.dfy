/** One configured step of a train model's recipe
    (aps-train-system/src/domain/entities/ProcessConfig.ts). */
module ProcessConfig {
  import opened Common

  datatype ProcessConfig = ProcessConfig(
    processName: string,
    operationType: string,
    durationDays: int,
    workersRequired: int,
    sequenceOrder: int)

  /** `ProcessConfigData`, the plain-object form `toJSON` produces. */
  datatype ProcessConfigData = ProcessConfigData(
    processName: string,
    operationType: string,
    durationDays: int,
    workersRequired: int,
    sequenceOrder: int)

  predicate Valid(c: ProcessConfig)
  {
    !IsBlank(c.processName) && !IsBlank(c.operationType) &&
    c.durationDays > 0 && c.workersRequired >= 0 && c.sequenceOrder >= 0
  }

  /** `ProcessConfig.create`: fails iff a name is blank, the duration is not
      positive, or the worker count or sequence order is negative. */
  function Create(d: ProcessConfigData): (r: Result<ProcessConfig>)
    ensures r.Ok? <==> !IsBlank(d.processName) && !IsBlank(d.operationType) &&
                       d.durationDays > 0 && d.workersRequired >= 0 && d.sequenceOrder >= 0
    ensures r.Ok? ==> Valid(r.value) && ToJson(r.value) == d
  {
    if IsBlank(d.processName) then Err("Process name is required")
    else if IsBlank(d.operationType) then Err("Operation type is required")
    else if d.durationDays <= 0 then Err("Process duration must be greater than 0")
    else if d.workersRequired < 0 then Err("Workers required cannot be negative")
    else if d.sequenceOrder < 0 then Err("Sequence order cannot be negative")
    else Ok(ProcessConfig(d.processName, d.operationType, d.durationDays, d.workersRequired, d.sequenceOrder))
  }

  function ToJson(c: ProcessConfig): ProcessConfigData
  {
    ProcessConfigData(c.processName, c.operationType, c.durationDays, c.workersRequired, c.sequenceOrder)
  }

  /** Round trip: `create(x.toJSON())` rebuilds `x`. */
  lemma CreateToJson(c: ProcessConfig)
    requires Valid(c)
    ensures Create(ToJson(c)) == Ok(c)
  {
  }

  /** `withDuration`: changes only the duration; a non-positive one is rejected. */
  function WithDuration(c: ProcessConfig, durationDays: int): (r: Result<ProcessConfig>)
    requires Valid(c)
    ensures r.Ok? <==> durationDays > 0
    ensures r.Ok? ==> r.value.durationDays == durationDays && r.value.(durationDays := c.durationDays) == c
  {
    Create(ToJson(c).(durationDays := durationDays))
  }

  /** `withWorkers`: changes only the worker count; a negative one is rejected. */
  function WithWorkers(c: ProcessConfig, workersRequired: int): (r: Result<ProcessConfig>)
    requires Valid(c)
    ensures r.Ok? <==> workersRequired >= 0
    ensures r.Ok? ==> r.value.workersRequired == workersRequired && r.value.(workersRequired := c.workersRequired) == c
  {
    Create(ToJson(c).(workersRequired := workersRequired))
  }

  /** `equals`: field-by-field comparison of all five fields. */
  function Equals(a: ProcessConfig, b: ProcessConfig): (r: bool)
    ensures r <==> a == b
  {
    a.processName == b.processName && a.operationType == b.operationType &&
    a.durationDays == b.durationDays && a.workersRequired == b.workersRequired &&
    a.sequenceOrder == b.sequenceOrder
  }

  /** The sum of the steps' durations (`reduce((sum, c) => sum + c.durationDays, 0)`). */
  function TotalDuration(cs: seq<ProcessConfig>): int
  {
    if cs == [] then 0 else cs[0].durationDays + TotalDuration(cs[1..])
  }

  /** The total is additive over concatenation. */
  lemma {:induction false} TotalDurationAppend(a: seq<ProcessConfig>, b: seq<ProcessConfig>)
    ensures TotalDuration(a + b) == TotalDuration(a) + TotalDuration(b)
  {
    if a != [] {
      assert (a + b)[1..] == a[1..] + b;
      TotalDurationAppend(a[1..], b);
    } else {
      assert a + b == b;
    }
  }

  /** Every valid step lasts at least a day, so the total is at least the
      number of steps. */
  lemma {:induction false} TotalDurationAtLeastLength(cs: seq<ProcessConfig>)
    requires forall k :: 0 <= k < |cs| ==> Valid(cs[k])
    ensures TotalDuration(cs) >= |cs|
  {
    if cs != [] {
      TotalDurationAtLeastLength(cs[1..]);
    }
  }

  /** With valid steps, no single step lasts longer than the total. */
  lemma {:induction false} TotalDurationCoversStep(cs: seq<ProcessConfig>, i: nat)
    requires forall k :: 0 <= k < |cs| ==> Valid(cs[k])
    requires i < |cs|
    ensures TotalDuration(cs) >= cs[i].durationDays
  {
    TotalDurationAtLeastLength(cs[1..]);
    if i > 0 {
      TotalDurationCoversStep(cs[1..], i - 1);
    }
  }
}
