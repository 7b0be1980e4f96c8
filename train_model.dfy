/** A train model: an id, a description and its ordered recipe of steps
    (aps-train-system/src/domain/entities/TrainModel.ts). */
module TrainModel {
  import opened Common
  import PC = ProcessConfig

  type ProcessConfig = PC.ProcessConfig

  datatype TrainModel = TrainModel(id: string, description: string, processes: seq<ProcessConfig>)

  function ProcessNames(ps: seq<ProcessConfig>): (names: seq<string>)
    ensures |names| == |ps|
    ensures forall i :: 0 <= i < |ps| ==> names[i] == ps[i].processName
  {
    if ps == [] then [] else [ps[0].processName] + ProcessNames(ps[1..])
  }

  /** The invariant `create` and `validate` establish. */
  predicate Valid(m: TrainModel)
  {
    !IsBlank(m.id) && !IsBlank(m.description) && |m.processes| > 0 && Distinct(ProcessNames(m.processes))
  }

  /** `TrainModel.create`: fails iff the id or description is blank, the recipe
      is empty, or two steps share a process name. */
  function Create(id: string, description: string, processes: seq<ProcessConfig>): (r: Result<TrainModel>)
    ensures r.Ok? <==> !IsBlank(id) && !IsBlank(description) && processes != [] &&
                       forall i, j :: 0 <= i < j < |processes| ==> processes[i].processName != processes[j].processName
    ensures r.Ok? ==> Valid(r.value) && r.value == TrainModel(id, description, processes)
  {
    if IsBlank(id) then Err("TrainModel ID is required")
    else if IsBlank(description) then Err("TrainModel description is required")
    else if |processes| == 0 then Err("TrainModel must have at least one process")
    else if !Distinct(ProcessNames(processes)) then Err("TrainModel cannot have duplicate process names")
    else Ok(TrainModel(id, description, processes))
  }

  /** `getProcess`: the step at `index`, or nothing outside the list. */
  function GetProcess(m: TrainModel, index: int): (r: Option<ProcessConfig>)
    ensures r.Some? <==> 0 <= index < |m.processes|
    ensures r.Some? ==> r.value == m.processes[index]
  {
    if 0 <= index < |m.processes| then Some(m.processes[index]) else None
  }

  /** `getTotalDuration`: the sum of the steps' durations. */
  function GetTotalDuration(m: TrainModel): (total: int)
    requires forall k :: 0 <= k < |m.processes| ==> PC.Valid(m.processes[k])
    ensures total >= |m.processes|
  {
    PC.TotalDurationAtLeastLength(m.processes);
    PC.TotalDuration(m.processes)
  }

  /** `findIndex` on the step names: the first step called `name`, or -1. */
  function IndexFrom(ps: seq<ProcessConfig>, name: string, from: nat): (r: int)
    requires from <= |ps|
    ensures r == -1 || from <= r < |ps|
    ensures r == -1 <==> forall k :: from <= k < |ps| ==> ps[k].processName != name
    ensures r >= 0 ==> ps[r].processName == name && forall k :: from <= k < r ==> ps[k].processName != name
    decreases |ps| - from
  {
    if from == |ps| then -1
    else if ps[from].processName == name then from
    else IndexFrom(ps, name, from + 1)
  }

  function GetProcessIndex(m: TrainModel, name: string): (r: int)
    ensures r == -1 || 0 <= r < |m.processes|
    ensures r >= 0 ==> m.processes[r].processName == name
    ensures forall k :: 0 <= k < |m.processes| && (r == -1 || k < r) ==> m.processes[k].processName != name
  {
    IndexFrom(m.processes, name, 0)
  }

  /** `hasProcess`: some step is called `name`. */
  function HasProcess(m: TrainModel, name: string): (r: bool)
    ensures r <==> GetProcessIndex(m, name) >= 0
  {
    exists k :: 0 <= k < |m.processes| && m.processes[k].processName == name
  }

  /** `hasProcess` agrees with `getProcessIndex`, and in a valid model the
      index found is the only step with that name. */
  lemma HasProcessIffIndex(m: TrainModel, name: string)
    ensures HasProcess(m, name) <==> GetProcessIndex(m, name) >= 0
    ensures Valid(m) && HasProcess(m, name) ==>
      forall k :: 0 <= k < |m.processes| && m.processes[k].processName == name ==> k == GetProcessIndex(m, name)
  {

  }

  /** `withProcesses`: a new model with the same id and description. */
  function WithProcesses(m: TrainModel, processes: seq<ProcessConfig>): (r: Result<TrainModel>)
    requires Valid(m)
    ensures r.Ok? <==> processes != [] && Distinct(ProcessNames(processes))
    ensures r.Ok? ==> r.value == m.(processes := processes)
  {
    Create(m.id, m.description, processes)
  }

  /** `equals` is identity by id: every model equals itself. */
  function Equals(a: TrainModel, b: TrainModel): (r: bool)
    ensures a == b ==> r
  {
    a.id == b.id
  }

  /** A model with a new recipe is still the same model. */
  lemma EqualsAcrossWithProcesses(m: TrainModel, processes: seq<ProcessConfig>)
    requires Valid(m)
    ensures WithProcesses(m, processes).Ok? ==> Equals(WithProcesses(m, processes).value, m)
  {
  }
}
