/** The configuration rules (aps-train-system/src/domain/services/ConfigurationService.ts):
    validators that collect the problems of a new operation type, line or
    recipe, and small helpers that derive defaults from the catalogue.

    The validators report problems as kinds with their figures; the Spanish
    message texts are not modelled. */
module ConfigurationService {
  import opened Common
  import Sorting
  import OT = OperationType
  import PL = ProductionLine
  import PC = ProcessConfig
  import TM = TrainModel

  /** Upper bounds the rules apply. */
  const MaxDefaultDurationDays: int := 30
  const MaxWorkers: int := 10
  const MaxTotalDurationDays: int := 60

  datatype ConfigError =
    | DuplicateOperationName(name: string)
    | DefaultDurationTooLong
    | DefaultWorkersTooMany
    | OperationInUse(operationName: string, lineCount: nat)
    | UnknownOperation(operationType: string)
    | DuplicateLineNumber(lineNumber: int, operationType: string)
    | LineWorkersTooMany
    | NoProcesses
    | UnknownProcessOperation(operationType: string, processName: string)
    | DuplicateProcesses(names: seq<string>)
    | SequenceNotConsecutive
    | TotalDurationTooHigh(totalDays: int)

  datatype ConfigurationValidationResult = ConfigurationValidationResult(isValid: bool, errors: seq<ConfigError>)

  /** `some(op => op.name === name)`. */
  predicate OperationKnown(operations: seq<OT.OperationType>, name: string)
  {
    exists i :: 0 <= i < |operations| && operations[i].name == name
  }

  // ---------------------------------------------------------------------
  // validateOperation

  /** `validateOperation`: a name already in the catalogue, a default
      duration over 30 days and a default crew over 10 are each reported
      once, in that order. */
  method ValidateOperation(operation: OT.OperationType, existingOperations: seq<OT.OperationType>)
    returns (result: ConfigurationValidationResult)
    ensures DuplicateOperationName(operation.name) in result.errors <==> OperationKnown(existingOperations, operation.name)
    ensures DefaultDurationTooLong in result.errors <==> operation.defaultDurationDays > MaxDefaultDurationDays
    ensures DefaultWorkersTooMany in result.errors <==> operation.defaultWorkersRequired > MaxWorkers
    ensures forall e :: e in result.errors ==> e == DuplicateOperationName(operation.name) || e == DefaultDurationTooLong || e == DefaultWorkersTooMany
    ensures Distinct(result.errors)
    ensures result.isValid <==> result.errors == []
  {
    var errors: seq<ConfigError> := [];
    if OperationKnown(existingOperations, operation.name) {
      errors := errors + [DuplicateOperationName(operation.name)];
    }
    if operation.defaultDurationDays > MaxDefaultDurationDays {
      errors := errors + [DefaultDurationTooLong];
    }
    if operation.defaultWorkersRequired > MaxWorkers {
      errors := errors + [DefaultWorkersTooMany];
    }
    result := ConfigurationValidationResult(|errors| == 0, errors);
  }

  // ---------------------------------------------------------------------
  // canDeleteOperation

  /** `lines.filter(line => line.operationType === name)`. */
  function LinesWithOperation(lines: seq<PL.ProductionLine>, name: string): (r: seq<PL.ProductionLine>)
    ensures |r| <= |lines|
    ensures forall x :: x in r <==> x in lines && x.operationType == name
    ensures r == [] <==> forall i :: 0 <= i < |lines| ==> lines[i].operationType != name
  {
    if lines == [] then []
    else
      var n := |lines| - 1;
      var rest := LinesWithOperation(lines[..n], name);
      assert forall i :: 0 <= i < n ==> lines[..n][i] == lines[i];
      assert lines == lines[..n] + [lines[n]];
      rest + (if lines[n].operationType == name then [lines[n]] else [])
  }

  /** `canDeleteOperation`: refused, naming how many lines use it, exactly
      when some line serves the operation. */
  method CanDeleteOperation(operationName: string, lines: seq<PL.ProductionLine>) returns (result: ConfigurationValidationResult)
    ensures result.isValid <==> forall i :: 0 <= i < |lines| ==> lines[i].operationType != operationName
    ensures result.isValid <==> result.errors == []
    ensures !result.isValid ==> result.errors == [OperationInUse(operationName, |LinesWithOperation(lines, operationName)|)] &&
                                |LinesWithOperation(lines, operationName)| > 0
  {
    var errors: seq<ConfigError> := [];
    var linesUsingOperation := LinesWithOperation(lines, operationName);
    if |linesUsingOperation| > 0 {
      errors := errors + [OperationInUse(operationName, |linesUsingOperation|)];
    }
    result := ConfigurationValidationResult(|errors| == 0, errors);
  }

  // ---------------------------------------------------------------------
  // validateLine

  /** Another line (by id) already has `line`'s number for `line`'s operation. */
  predicate LineNumberTaken(line: PL.ProductionLine, existingLines: seq<PL.ProductionLine>)
  {
    exists i :: 0 <= i < |existingLines| &&
      existingLines[i].operationType == line.operationType && existingLines[i].lineNumber == line.lineNumber &&
      existingLines[i].id != line.id
  }

  /** `validateLine`: an unknown operation, a line number another line already
      uses for that operation, and a crew over 10 are each reported once. */
  method ValidateLine(line: PL.ProductionLine, existingLines: seq<PL.ProductionLine>, availableOperations: seq<OT.OperationType>)
    returns (result: ConfigurationValidationResult)
    ensures UnknownOperation(line.operationType) in result.errors <==> !OperationKnown(availableOperations, line.operationType)
    ensures DuplicateLineNumber(line.lineNumber, line.operationType) in result.errors <==> LineNumberTaken(line, existingLines)
    ensures LineWorkersTooMany in result.errors <==> line.workersRequired > MaxWorkers
    ensures forall e :: e in result.errors ==>
              e == UnknownOperation(line.operationType) || e == DuplicateLineNumber(line.lineNumber, line.operationType) ||
              e == LineWorkersTooMany
    ensures Distinct(result.errors)
    ensures result.isValid <==> result.errors == []
  {
    var errors: seq<ConfigError> := [];
    if !OperationKnown(availableOperations, line.operationType) {
      errors := errors + [UnknownOperation(line.operationType)];
    }
    if LineNumberTaken(line, existingLines) {
      errors := errors + [DuplicateLineNumber(line.lineNumber, line.operationType)];
    }
    if line.workersRequired > MaxWorkers {
      errors := errors + [LineWorkersTooMany];
    }
    result := ConfigurationValidationResult(|errors| == 0, errors);
  }

  // ---------------------------------------------------------------------
  // validateProcessConfig

  /** One error per step whose operation type is not in the catalogue, in recipe order. */
  function UnknownOperations(configs: seq<PC.ProcessConfig>, operations: seq<OT.OperationType>): seq<ConfigError>
  {
    if configs == [] then []
    else
      var c := configs[|configs| - 1];
      UnknownOperations(configs[..|configs| - 1], operations) +
      (if OperationKnown(operations, c.operationType) then [] else [UnknownProcessOperation(c.operationType, c.processName)])
  }

  /** No such error exactly when every step's operation is known; each error
      names a step whose operation is unknown. */
  lemma {:induction false} UnknownOperationsSpec(configs: seq<PC.ProcessConfig>, operations: seq<OT.OperationType>)
    ensures UnknownOperations(configs, operations) == [] <==>
              forall i :: 0 <= i < |configs| ==> OperationKnown(operations, configs[i].operationType)
    ensures |UnknownOperations(configs, operations)| <= |configs|
    ensures forall e :: e in UnknownOperations(configs, operations) ==>
              exists i :: 0 <= i < |configs| && !OperationKnown(operations, configs[i].operationType) &&
                          e == UnknownProcessOperation(configs[i].operationType, configs[i].processName)
  {
    if configs != [] {
      var n := |configs| - 1;
      UnknownOperationsSpec(configs[..n], operations);
      assert forall i :: 0 <= i < n ==> configs[..n][i] == configs[i];
    }
  }

  /** `names.filter((name, index) => names.indexOf(name) !== index)`: every
      occurrence of a name that is not its first one, in list order. */
  function DuplicateNames(names: seq<string>): (r: seq<string>)
    ensures forall x :: x in r <==> multiset(names)[x] >= 2
  {
    if names == [] then []
    else
      var n := |names| - 1;
      assert names == names[..n] + [names[n]];
      DuplicateNames(names[..n]) + (if names[n] in names[..n] then [names[n]] else [])
  }

  /** The filter is empty exactly when the names are pairwise different. */
  lemma {:induction false} DuplicateNamesNone(names: seq<string>)
    ensures DuplicateNames(names) == [] <==> Distinct(names)
  {
    if names != [] {
      var n := |names| - 1;
      var p := names[..n];
      DuplicateNamesNone(p);
      assert DuplicateNames(names) == DuplicateNames(p) + (if names[n] in p then [names[n]] else []);
      assert forall i :: 0 <= i < n ==> p[i] == names[i];
      if names[n] in p {
        var i :| 0 <= i < n && p[i] == names[n];
        assert names[i] == names[n];
      } else if Distinct(p) {
        assert forall i :: 0 <= i < n ==> names[i] != names[n];
      }
    }
  }

  /** `configs.map(c => c.sequenceOrder)`. */
  function SequenceOrders(configs: seq<PC.ProcessConfig>): (r: seq<int>)
    ensures |r| == |configs|
    ensures forall i :: 0 <= i < |configs| ==> r[i] == configs[i].sequenceOrder
  {
    if configs == [] then [] else [configs[0].sequenceOrder] + SequenceOrders(configs[1..])
  }

  /** `0, 1, ..., n - 1`. */
  function Range(n: nat): (r: seq<int>)
    ensures |r| == n && forall i :: 0 <= i < n ==> r[i] == i
  {
    seq(n, i => i)
  }

  /** The values are exactly `0 .. n-1`, each once, in any order. */
  ghost predicate ConsecutiveFromZero(values: seq<int>)
  {
    multiset(values) == multiset(Range(|values|))
  }

  /** Every position holds its own index. */
  predicate HoldsIndices(s: seq<int>)
  {
    forall i :: 0 <= i < |s| ==> s[i] == i
  }

  /** Sorting the values gives `0, 1, ..., n-1` exactly when they are a
      permutation of that range. */
  lemma SortedIsRange(values: seq<int>)
    ensures HoldsIndices(Sorting.SortBy(values, Sorting.IntKey)) <==> ConsecutiveFromZero(values)
  {
    var sorted := Sorting.SortBy(values, Sorting.IntKey);
    var range := Range(|values|);
    Sorting.SortBySpec(values, Sorting.IntKey);
    if HoldsIndices(sorted) {
      assert sorted == range;
    }
    if ConsecutiveFromZero(values) {
      assert Sorting.SortedBy(range, Sorting.IntKey);
      Sorting.SortedIntsUnique(sorted, range);
    }
  }

  /** `calculateTotalDuration`: `reduce((sum, c) => sum + c.durationDays, 0)`, a left fold. */
  function CalculateTotalDuration(configs: seq<PC.ProcessConfig>): (r: int)
    ensures (forall i :: 0 <= i < |configs| ==> configs[i].durationDays >= 0) ==>
              r >= 0 && forall i :: 0 <= i < |configs| ==> configs[i].durationDays <= r
  {
    if configs == [] then 0
    else CalculateTotalDuration(configs[..|configs| - 1]) + configs[|configs| - 1].durationDays
  }

  /** The left fold agrees with the recipe total the entities use
      (`TrainModel.getTotalDuration`). */
  lemma {:induction false} CalculateTotalDurationIsTotal(configs: seq<PC.ProcessConfig>)
    ensures CalculateTotalDuration(configs) == PC.TotalDuration(configs)
  {
    if configs != [] {
      var n := |configs| - 1;
      CalculateTotalDurationIsTotal(configs[..n]);
      assert configs == configs[..n] + [configs[n]];
      PC.TotalDurationAppend(configs[..n], [configs[n]]);
      assert PC.TotalDuration([configs[n]]) == configs[n].durationDays;
    }
  }

  /** The errors `validateProcessConfig` reports, by rule: an empty recipe,
      each step with an unknown operation, repeated process names, sequence
      orders that are not a permutation of `0..n-1`, and a total over 60 days. */
  ghost function ProcessConfigErrors(configs: seq<PC.ProcessConfig>, operations: seq<OT.OperationType>): seq<ConfigError>
  {
    var names := TM.ProcessNames(configs);
    var total := PC.TotalDuration(configs);
    (if configs == [] then [NoProcesses] else []) +
    UnknownOperations(configs, operations) +
    (if Distinct(names) then [] else [DuplicateProcesses(DuplicateNames(names))]) +
    (if ConsecutiveFromZero(SequenceOrders(configs)) then [] else [SequenceNotConsecutive]) +
    (if total > MaxTotalDurationDays then [TotalDurationTooHigh(total)] else [])
  }

  /** The `forEach` over the steps of `validateProcessConfig` (lines 126-133). */
  method CheckOperationsExist(processConfigs: seq<PC.ProcessConfig>, availableOperations: seq<OT.OperationType>)
    returns (errors: seq<ConfigError>)
    ensures errors == UnknownOperations(processConfigs, availableOperations)
  {
    errors := [];
    var k := 0;
    while k < |processConfigs|
      invariant 0 <= k <= |processConfigs|
      invariant errors == UnknownOperations(processConfigs[..k], availableOperations)
    {
      assert processConfigs[..k + 1][..k] == processConfigs[..k];
      var config := processConfigs[k];
      if !OperationKnown(availableOperations, config.operationType) {
        errors := errors + [UnknownProcessOperation(config.operationType, config.processName)];
      }
      k := k + 1;
    }
    assert processConfigs[..|processConfigs|] == processConfigs;
  }

  /** The sequence-order check of `validateProcessConfig` (lines 144-150):
      sort the orders and stop at the first position that does not hold
      its own index. */
  method CheckSequenceConsecutive(processConfigs: seq<PC.ProcessConfig>) returns (consecutive: bool)
    ensures consecutive <==> ConsecutiveFromZero(SequenceOrders(processConfigs))
  {
    var values := SequenceOrders(processConfigs);
    var sequenceOrders := Sorting.SortBy(values, Sorting.IntKey);
    consecutive := true;
    var i := 0;
    while i < |sequenceOrders|
      invariant 0 <= i <= |sequenceOrders|
      invariant consecutive ==> forall j :: 0 <= j < i ==> sequenceOrders[j] == j
      invariant !consecutive ==> !HoldsIndices(sequenceOrders)
    {
      if sequenceOrders[i] != i {
        consecutive := false;
        break;
      }
      i := i + 1;
    }
    SortedIsRange(values);
    assert consecutive <==> HoldsIndices(sequenceOrders);
  }

  /** `validateProcessConfig`. */
  method ValidateProcessConfig(processConfigs: seq<PC.ProcessConfig>, availableOperations: seq<OT.OperationType>)
    returns (result: ConfigurationValidationResult)
    ensures result.errors == ProcessConfigErrors(processConfigs, availableOperations)
    ensures result.isValid <==> result.errors == []
  {
    var empty := if |processConfigs| == 0 then [NoProcesses] else [];
    var unknown := CheckOperationsExist(processConfigs, availableOperations);
    var processNames := TM.ProcessNames(processConfigs);
    var duplicates := DuplicateNames(processNames);
    DuplicateNamesNone(processNames);
    var duplicated := if |duplicates| > 0 then [DuplicateProcesses(duplicates)] else [];
    var consecutive := CheckSequenceConsecutive(processConfigs);
    var unordered := if !consecutive then [SequenceNotConsecutive] else [];
    var totalDuration := CalculateTotalDuration(processConfigs);
    CalculateTotalDurationIsTotal(processConfigs);
    var tooLong := if totalDuration > MaxTotalDurationDays then [TotalDurationTooHigh(totalDuration)] else [];
    var errors := empty + unknown + duplicated + unordered + tooLong;
    ProcessConfigErrorsOf(processConfigs, availableOperations, empty, unknown, duplicated, unordered, tooLong);
    result := ConfigurationValidationResult(|errors| == 0, errors);
  }

  /** The five checks of `validateProcessConfig`, each as its part of `ProcessConfigErrors`. */
  lemma ProcessConfigErrorsOf(configs: seq<PC.ProcessConfig>, operations: seq<OT.OperationType>,
                              empty: seq<ConfigError>, unknown: seq<ConfigError>, duplicated: seq<ConfigError>,
                              unordered: seq<ConfigError>, tooLong: seq<ConfigError>)
    requires empty == if configs == [] then [NoProcesses] else []
    requires unknown == UnknownOperations(configs, operations)
    requires duplicated == if Distinct(TM.ProcessNames(configs)) then [] else [DuplicateProcesses(DuplicateNames(TM.ProcessNames(configs)))]
    requires unordered == if ConsecutiveFromZero(SequenceOrders(configs)) then [] else [SequenceNotConsecutive]
    requires tooLong == if PC.TotalDuration(configs) > MaxTotalDurationDays then [TotalDurationTooHigh(PC.TotalDuration(configs))] else []
    ensures empty + unknown + duplicated + unordered + tooLong == ProcessConfigErrors(configs, operations)
  {
  }

  /** A recipe passes exactly when it is non-empty, every step's operation is
      in the catalogue, the process names are distinct, the sequence orders
      are a permutation of `0..n-1` and the total is at most 60 days. */
  lemma ProcessConfigAccepted(configs: seq<PC.ProcessConfig>, operations: seq<OT.OperationType>)
    ensures ProcessConfigErrors(configs, operations) == [] <==>
              configs != [] &&
              (forall i :: 0 <= i < |configs| ==> OperationKnown(operations, configs[i].operationType)) &&
              Distinct(TM.ProcessNames(configs)) &&
              ConsecutiveFromZero(SequenceOrders(configs)) &&
              PC.TotalDuration(configs) <= MaxTotalDurationDays
  {
    UnknownOperationsSpec(configs, operations);
    assert |ProcessConfigErrors(configs, operations)| ==
           (if configs == [] then 1 else 0) + |UnknownOperations(configs, operations)| +
           (if Distinct(TM.ProcessNames(configs)) then 0 else 1) +
           (if ConsecutiveFromZero(SequenceOrders(configs)) then 0 else 1) +
           (if PC.TotalDuration(configs) > MaxTotalDurationDays then 1 else 0);
  }

  /** An accepted recipe can be used to build a train model. */
  lemma AcceptedRecipeMakesModel(id: string, description: string, configs: seq<PC.ProcessConfig>,
                                 operations: seq<OT.OperationType>)
    requires !IsBlank(id) && !IsBlank(description)
    requires ProcessConfigErrors(configs, operations) == []
    ensures TM.Create(id, description, configs).Ok?
  {
    ProcessConfigAccepted(configs, operations);
    var names := TM.ProcessNames(configs);
    forall i, j | 0 <= i < j < |configs|
      ensures configs[i].processName != configs[j].processName
    {
      assert names[i] != names[j];
    }
  }

  // ---------------------------------------------------------------------
  // Helpers

  /** `createDefaultProcessConfig`: a step on `operationType` with its
      default duration and crew. */
  function CreateDefaultProcessConfig(operationType: OT.OperationType, processName: string, sequenceOrder: int)
    : (r: Result<PC.ProcessConfig>)
    requires OT.Valid(operationType)
    ensures r.Ok? <==> !IsBlank(processName) && sequenceOrder >= 0
    ensures r.Ok? ==> r.value == PC.ProcessConfig(processName, operationType.name, operationType.defaultDurationDays,
                                                  operationType.defaultWorkersRequired, sequenceOrder)
  {
    PC.Create(PC.ProcessConfigData(processName, operationType.name, operationType.defaultDurationDays,
                                   operationType.defaultWorkersRequired, sequenceOrder))
  }

  /** `reduce((max, line) => Math.max(max, line.lineNumber), 0)` over the lines
      of one operation: the largest of their numbers and 0. */
  function MaxLineNumber(lines: seq<PL.ProductionLine>): (r: int)
    ensures r >= 0
    ensures forall i :: 0 <= i < |lines| ==> lines[i].lineNumber <= r
    ensures r == 0 || exists i :: 0 <= i < |lines| && lines[i].lineNumber == r
  {
    if lines == [] then 0
    else
      var n := |lines| - 1;
      var m := MaxLineNumber(lines[..n]);
      assert forall i :: 0 <= i < n ==> lines[..n][i] == lines[i];
      Max(m, lines[n].lineNumber)
  }

  datatype LineSuggestion = LineSuggestion(lineNumber: int, workersRequired: int)

  /** `suggestLineConfiguration`: one past the highest number used for the
      operation (1 when there is none) and the operation's default crew. */
  function SuggestLineConfiguration(operationType: OT.OperationType, existingLines: seq<PL.ProductionLine>): (r: LineSuggestion)
    ensures r.lineNumber >= 1 && r.workersRequired == operationType.defaultWorkersRequired
    ensures forall l :: l in existingLines && l.operationType == operationType.name ==> l.lineNumber < r.lineNumber
    ensures r.lineNumber == 1 || exists l :: l in existingLines && l.operationType == operationType.name && l.lineNumber == r.lineNumber - 1
  {
    var linesForOperation := LinesWithOperation(existingLines, operationType.name);
    var maxLineNumber := MaxLineNumber(linesForOperation);
    LineSuggestion(maxLineNumber + 1, operationType.defaultWorkersRequired)
  }

  /** A line with the suggested number never collides with an existing line
      of the same operation. */
  lemma SuggestionIsFree(operationType: OT.OperationType, existingLines: seq<PL.ProductionLine>, line: PL.ProductionLine)
    requires line.operationType == operationType.name
    requires line.lineNumber == SuggestLineConfiguration(operationType, existingLines).lineNumber
    ensures !LineNumberTaken(line, existingLines)
  {
    var r := SuggestLineConfiguration(operationType, existingLines);
    forall i | 0 <= i < |existingLines| && existingLines[i].operationType == line.operationType
      ensures existingLines[i].lineNumber != line.lineNumber
    {
      assert existingLines[i] in existingLines;
    }
  }

  /** Each operation type once, in first-occurrence order (a `Set` filled in
      recipe order and read back with `Array.from`). */
  function FirstOccurrences(s: seq<string>): (r: seq<string>)
    ensures |r| <= |s|
  {
    if s == [] then []
    else
      var n := |s| - 1;
      FirstOccurrences(s[..n]) + (if s[n] in s[..n] then [] else [s[n]])
  }

  /** The first occurrences are the values of `s`, each once; when `x`
      comes before `y` in them, `x` occurs in `s` before every `y`. */
  lemma {:induction false} FirstOccurrencesSpec(s: seq<string>)
    ensures var r := FirstOccurrences(s);
            (forall x :: x in r <==> x in s) && Distinct(r) &&
            (forall a, b, j :: 0 <= a < b < |r| && 0 <= j < |s| && s[j] == r[b] ==> r[a] in s[..j])
  {
    if s != [] {
      var n := |s| - 1;
      var p := s[..n];
      FirstOccurrencesSpec(p);
      var r := FirstOccurrences(s);
      var rp := FirstOccurrences(p);
      assert s == p + [s[n]];
      forall a, b, j | 0 <= a < b < |r| && 0 <= j < |s| && s[j] == r[b]
        ensures r[a] in s[..j]
      {
        if b < |rp| {
          assert r[a] == rp[a] && r[b] == rp[b];
          if j < n {
            assert s[..j] == p[..j] && p[j] == s[j];
          } else {
            var j' :| 0 <= j' < n && p[j'] == s[n];
            assert r[a] in p[..j'];
            assert s[..j] == p;
          }
        } else {
          assert r[b] == s[n] && s[n] !in p;
          if j < n {
            assert false;
          }
          assert r[a] == rp[a] && s[..j] == p;
        }
      }
    }
  }

  /** `operationType` of each step, in recipe order. */
  function OperationTypes(configs: seq<PC.ProcessConfig>): (r: seq<string>)
    ensures |r| == |configs| && forall i :: 0 <= i < |configs| ==> r[i] == configs[i].operationType
  {
    if configs == [] then [] else [configs[0].operationType] + OperationTypes(configs[1..])
  }

  /** `getUsedOperationTypes`. */
  method GetUsedOperationTypes(processConfigs: seq<PC.ProcessConfig>) returns (types: seq<string>)
    ensures types == FirstOccurrences(OperationTypes(processConfigs))
  {
    var all := OperationTypes(processConfigs);
    types := [];
    var i := 0;
    while i < |all|
      invariant 0 <= i <= |all|
      invariant types == FirstOccurrences(all[..i])
      invariant forall x :: x in types <==> x in all[..i]
    {
      assert all[..i + 1] == all[..i] + [all[i]];
      assert all[..i + 1][..i] == all[..i] && all[..i + 1][i] == all[i];
      if all[i] !in types {
        types := types + [all[i]];
      }
      i := i + 1;
    }
    assert all[..|all|] == all;
  }
}
