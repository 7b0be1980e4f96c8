/** The in-memory configuration store
    (aps-train-system/src/infrastructure/persistence/memory/InMemoryConfigRepository.ts).
    Three JavaScript `Map`s keep the production lines by id, the operation
    types by name and each train model's recipe (its list of process
    configurations) by model id. The constructor fills them with the
    factory defaults: three operations, four lines and the recipes of
    models A, B and C. */
module ConfigRepository {
  import opened Common
  import JsMap
  import opened JsArray
  import OT = OperationType
  import PL = ProductionLine
  import PC = ProcessConfig
  import TM = TrainModel
  import CS = ConfigurationService

  // ---------------------------------------------------------------------
  // Factory defaults (`initializeDefaults`)

  const Preparacion: string := "Preparación"
  const Torneado: string := "Torneado"
  const Pintado: string := "Pintado"

  /** Preparación (1 day, 1 worker), Torneado and Pintado (2 days, 2 workers each). */
  function DefaultOperations(): seq<OT.OperationType>
  {
    [OT.OperationType(Preparacion, "Preparación inicial del material", 1, 1, "#3B82F6"),
     OT.OperationType(Torneado, "Proceso de torneado de piezas", 2, 2, "#EF4444"),
     OT.OperationType(Pintado, "Pintado y acabado final", 2, 2, "#10B981")]
  }

  const OperationNames: seq<string> := [Preparacion, Torneado, Pintado]

  /** Two Preparación lines and one line each for Torneado and Pintado, all active. */
  function DefaultLines(): seq<PL.ProductionLine>
  {
    [PL.ProductionLine("preparacion-line-1", Preparacion, 1, 1, true),
     PL.ProductionLine("preparacion-line-2", Preparacion, 2, 1, true),
     PL.ProductionLine("torneado-line-1", Torneado, 1, 2, true),
     PL.ProductionLine("pintado-line-1", Pintado, 1, 2, true)]
  }

  const LineIds: seq<string> := ["preparacion-line-1", "preparacion-line-2", "torneado-line-1", "pintado-line-1"]

  /** A recipe step whose process is named after its operation. */
  function Step(operation: string, days: int, workers: int, order: int): PC.ProcessConfig
  {
    PC.ProcessConfig(operation, operation, days, workers, order)
  }

  /** Model A: Preparación 1 day, Torneado 2, Pintado 2. */
  function ModelAProcesses(): seq<PC.ProcessConfig>
  {
    [Step(Preparacion, 1, 1, 0), Step(Torneado, 2, 2, 1), Step(Pintado, 2, 2, 2)]
  }

  /** Model B: Preparación 1 day, Torneado 3, Pintado 1. */
  function ModelBProcesses(): seq<PC.ProcessConfig>
  {
    [Step(Preparacion, 1, 1, 0), Step(Torneado, 3, 2, 1), Step(Pintado, 1, 2, 2)]
  }

  /** Model C: Preparación 1 day, Pintado 2. */
  function ModelCProcesses(): seq<PC.ProcessConfig>
  {
    [Step(Preparacion, 1, 1, 0), Step(Pintado, 2, 2, 1)]
  }

  const ModelIds: seq<string> := ["A", "B", "C"]

  function DefaultRecipes(): seq<seq<PC.ProcessConfig>>
  {
    [ModelAProcesses(), ModelBProcesses(), ModelCProcesses()]
  }

  /** The maps `initializeDefaults` fills by successive `set` calls. */
  function DefaultOperationMap(): JsMap.Map<OT.OperationType>
  {
    JsMap.SetAll(JsMap.Empty(), OperationNames, DefaultOperations())
  }

  function DefaultLineMap(): JsMap.Map<PL.ProductionLine>
  {
    JsMap.SetAll(JsMap.Empty(), LineIds, DefaultLines())
  }

  function DefaultRecipeMap(): JsMap.Map<seq<PC.ProcessConfig>>
  {
    JsMap.SetAll(JsMap.Empty(), ModelIds, DefaultRecipes())
  }

  lemma DefaultOperationsValid()
    ensures forall i :: 0 <= i < 3 ==> OT.Valid(DefaultOperations()[i])
  {
    HexColors();
    NotBlank();
    var ops := DefaultOperations();
    assert OT.Valid(ops[0]) && OT.Valid(ops[1]) && OT.Valid(ops[2]);
  }

  lemma DefaultLinesValid()
    ensures forall i :: 0 <= i < 4 ==> PL.Valid(DefaultLines()[i])
  {
    NotBlank();
    var ls := DefaultLines();
    assert ls[0].id == LineIds[0] && ls[1].id == LineIds[1] && ls[2].id == LineIds[2] && ls[3].id == LineIds[3];
    assert PL.Valid(ls[0]) && PL.Valid(ls[1]) && PL.Valid(ls[2]) && PL.Valid(ls[3]);
  }

  lemma DefaultStepsValid()
    ensures forall r, i :: 0 <= r < 3 && 0 <= i < |DefaultRecipes()[r]| ==> PC.Valid(DefaultRecipes()[r][i])
  {
    NotBlank();
    var rs := DefaultRecipes();
    assert forall i :: 0 <= i < 3 ==> PC.Valid(rs[0][i]) && PC.Valid(rs[1][i]);
    assert PC.Valid(rs[2][0]) && PC.Valid(rs[2][1]);
  }

  /** Every default passes its entity's `create` validation, so
      `initializeDefaults` does not throw. */
  lemma DefaultsAreValid()
    ensures forall i :: 0 <= i < 3 ==> OT.Valid(DefaultOperations()[i])
    ensures forall i :: 0 <= i < 4 ==> PL.Valid(DefaultLines()[i])
    ensures forall r, i :: 0 <= r < 3 && 0 <= i < |DefaultRecipes()[r]| ==> PC.Valid(DefaultRecipes()[r][i])
  {
    DefaultOperationsValid();
    DefaultLinesValid();
    DefaultStepsValid();
  }

  lemma HexColors()
    ensures OT.IsHexColor("#3B82F6") && OT.IsHexColor("#EF4444") && OT.IsHexColor("#10B981")
  {
    var c0, c1, c2 := "#3B82F6", "#EF4444", "#10B981";
    assert forall i :: 1 <= i < 7 ==> OT.IsHexDigit(c0[i]);
    assert forall i :: 1 <= i < 7 ==> OT.IsHexDigit(c1[i]);
    assert forall i :: 1 <= i < 7 ==> OT.IsHexDigit(c2[i]);
  }

  lemma NotBlank()
    ensures !IsBlank(Preparacion) && !IsBlank(Torneado) && !IsBlank(Pintado)
    ensures forall i :: 0 <= i < 3 ==> !IsBlank(DefaultOperations()[i].description)
    ensures forall i :: 0 <= i < 4 ==> !IsBlank(LineIds[i])
  {
    assert !IsJsWhitespace(Preparacion[0]) && !IsJsWhitespace(Torneado[0]) && !IsJsWhitespace(Pintado[0]);
    var ops := DefaultOperations();
    assert !IsJsWhitespace(ops[0].description[0]) && !IsJsWhitespace(ops[1].description[0]);
    assert !IsJsWhitespace(ops[2].description[0]);
    assert forall i :: 0 <= i < 4 ==> !IsJsWhitespace(LineIds[i][0]);
  }

  // ---------------------------------------------------------------------
  // The repository

  /** Every line is stored under its own id and every operation under its own name. */
  ghost predicate KeyedByIdentity(lines: JsMap.Map<PL.ProductionLine>, operations: JsMap.Map<OT.OperationType>)
  {
    (forall k :: k in lines.entries ==> lines.entries[k].id == k) &&
    (forall k :: k in operations.entries ==> operations.entries[k].name == k)
  }

  class InMemoryConfigRepository {
    var lines: JsMap.Map<PL.ProductionLine>
    var operations: JsMap.Map<OT.OperationType>
    var processConfigs: JsMap.Map<seq<PC.ProcessConfig>>

    ghost predicate Valid()
      reads this
    {
      JsMap.Valid(lines) && JsMap.Valid(operations) && JsMap.Valid(processConfigs) &&
      KeyedByIdentity(lines, operations)
    }

    /** `constructor` and `initializeDefaults`. */
    constructor ()
      ensures Valid()
      ensures operations == DefaultOperationMap() && lines == DefaultLineMap() && processConfigs == DefaultRecipeMap()
    {
      operations := JsMap.SetAll(JsMap.Empty(), OperationNames, DefaultOperations());
      lines := JsMap.SetAll(JsMap.Empty(), LineIds, DefaultLines());
      processConfigs := JsMap.SetAll(JsMap.Empty(), ModelIds, DefaultRecipes());
      new;
      DefaultsKeyed();
    }

    // ----- Production lines

    /** `getLines`: every stored line once, in insertion order. */
    function GetLines(): (r: seq<PL.ProductionLine>)
      reads this
      requires Valid()
      ensures |r| == |lines.keys|
      ensures forall l :: l in r <==> l.id in lines.entries && lines.entries[l.id] == l
    {
      var r := JsMap.Values(lines);
      forall l: PL.ProductionLine ensures l in r <==> l.id in lines.entries && lines.entries[l.id] == l {
        JsMap.ValuesMembers(lines, l);
      }
      r
    }

    /** `getLinesByOperation`. */
    function GetLinesByOperation(operationType: string): (r: seq<PL.ProductionLine>)
      reads this
      requires Valid()
      ensures forall l :: l in r <==> l in GetLines() && l.operationType == operationType
    {
      Filter(GetLines(), (l: PL.ProductionLine) => l.operationType == operationType)
    }

    /** `saveLine`: stores the line under its id; nothing else changes. */
    method SaveLine(line: PL.ProductionLine)
      requires Valid()
      modifies this
      ensures Valid() && lines == JsMap.Set(old(lines), line.id, line)
      ensures operations == old(operations) && processConfigs == old(processConfigs)
    {
      lines := JsMap.Set(lines, line.id, line);
    }

    /** `deleteLine`. */
    method DeleteLine(lineId: string)
      requires Valid()
      modifies this
      ensures Valid() && lines == JsMap.Delete(old(lines), lineId)
      ensures operations == old(operations) && processConfigs == old(processConfigs)
    {
      lines := JsMap.Delete(lines, lineId);
    }

    // ----- Operation types

    /** `getOperations`. */
    function GetOperations(): (r: seq<OT.OperationType>)
      reads this
      requires Valid()
      ensures |r| == |operations.keys|
      ensures forall t :: t in r <==> t.name in operations.entries && operations.entries[t.name] == t
    {
      var r := JsMap.Values(operations);
      forall t: OT.OperationType ensures t in r <==> t.name in operations.entries && operations.entries[t.name] == t {
        JsMap.ValuesMembers(operations, t);
      }
      r
    }

    /** `getOperation`: the operation stored under the name, if any. */
    function GetOperation(name: string): (r: Option<OT.OperationType>)
      reads this
      requires Valid()
      ensures r.Some? <==> OperationExists(name)
      ensures r.Some? ==> r.value.name == name && r.value in GetOperations()
    {
      JsMap.Get(operations, name)
    }

    /** `saveOperation`. */
    method SaveOperation(operation: OT.OperationType)
      requires Valid()
      modifies this
      ensures Valid() && operations == JsMap.Set(old(operations), operation.name, operation)
      ensures lines == old(lines) && processConfigs == old(processConfigs)
    {
      operations := JsMap.Set(operations, operation.name, operation);
    }

    /** `deleteOperation`. */
    method DeleteOperation(operationName: string)
      requires Valid()
      modifies this
      ensures Valid() && operations == JsMap.Delete(old(operations), operationName)
      ensures lines == old(lines) && processConfigs == old(processConfigs)
    {
      operations := JsMap.Delete(operations, operationName);
    }

    /** `operationExists`: some listed operation carries the name. */
    predicate OperationExists(operationName: string)
      reads this
      requires Valid()
      ensures OperationExists(operationName) <==> CS.OperationKnown(GetOperations(), operationName)
    {
      var known := JsMap.Has(operations, operationName);
      var ops := GetOperations();
      assert known ==> CS.OperationKnown(ops, operationName) by {
        if known {
          assert operations.entries[operationName] in ops;
        }
      }
      known
    }

    // ----- Process configurations

    /** `getProcessConfig`: the stored recipe, or the empty one for a model
        without a recipe (an array, even an empty one, is never falsy). */
    function GetProcessConfig(modelId: string): (r: seq<PC.ProcessConfig>)
      reads this
      ensures modelId in processConfigs.entries ==> r == processConfigs.entries[modelId]
      ensures modelId !in processConfigs.entries ==> r == []
    {
      match JsMap.Get(processConfigs, modelId)
      case Some(configs) => configs
      case None => []
    }

    /** `saveProcessConfig`. */
    method SaveProcessConfig(modelId: string, config: seq<PC.ProcessConfig>)
      requires Valid()
      modifies this
      ensures Valid() && processConfigs == JsMap.Set(old(processConfigs), modelId, config)
      ensures lines == old(lines) && operations == old(operations)
    {
      processConfigs := JsMap.Set(processConfigs, modelId, config);
    }

    /** `getConfiguredModels`: each model with a recipe, once. */
    function GetConfiguredModels(): (r: seq<string>)
      reads this
      requires Valid()
      ensures Distinct(r)
      ensures forall m :: m in r <==> m in processConfigs.entries
    {
      processConfigs.keys
    }
  }

  /** Each default name is set once. */
  lemma DefaultKeysDistinct()
    ensures Distinct(OperationNames) && Distinct(LineIds) && Distinct(ModelIds)
  {
    assert Preparacion[1] != Torneado[1] && Preparacion[1] != Pintado[1] && Torneado[1] != Pintado[1];
    assert LineIds[0][17] != LineIds[1][17] && LineIds[0][0] != LineIds[2][0] && LineIds[0][1] != LineIds[3][1];
    assert LineIds[1][0] != LineIds[2][0] && LineIds[1][1] != LineIds[3][1] && LineIds[2][0] != LineIds[3][0];
  }

  /** A map filled from distinct keys holds exactly those keys, in order,
      each with its value. */
  lemma FilledFromDistinct<V>(keys: seq<string>, vals: seq<V>)
    requires |keys| == |vals| && Distinct(keys)
    ensures JsMap.Valid(JsMap.SetAll(JsMap.Empty(), keys, vals))
    ensures JsMap.SetAll(JsMap.Empty(), keys, vals).keys == keys
    ensures forall i :: 0 <= i < |keys| ==> JsMap.Get(JsMap.SetAll(JsMap.Empty(), keys, vals), keys[i]) == Some(vals[i])
  {
    JsMap.SetAllFreshKeys(JsMap.Empty(), keys, vals);
    forall i | 0 <= i < |keys| ensures JsMap.Get(JsMap.SetAll(JsMap.Empty(), keys, vals), keys[i]) == Some(vals[i]) {
      JsMap.SetAllLast(JsMap.Empty(), keys, vals, i);
    }
  }

  /** A map filled from distinct keys, each the key of its value, stores
      every value under its own key. */
  lemma FilledByKey<V>(keys: seq<string>, vals: seq<V>, key: V -> string)
    requires |keys| == |vals| && Distinct(keys)
    requires forall i :: 0 <= i < |keys| ==> key(vals[i]) == keys[i]
    ensures JsMap.Valid(JsMap.SetAll(JsMap.Empty(), keys, vals))
    ensures forall k :: k in JsMap.SetAll(JsMap.Empty(), keys, vals).entries ==>
              key(JsMap.SetAll(JsMap.Empty(), keys, vals).entries[k]) == k
  {
    FilledFromDistinct(keys, vals);
    var m := JsMap.SetAll(JsMap.Empty(), keys, vals);
    forall k | k in m.entries ensures key(m.entries[k]) == k {
      assert k in m.keys;
      var i :| 0 <= i < |keys| && keys[i] == k;
      assert JsMap.Get(m, k) == Some(vals[i]);
    }
  }

  /** The default operations are stored under their own names. */
  lemma DefaultOperationsKeyed()
    ensures JsMap.Valid(DefaultOperationMap())
    ensures forall k :: k in DefaultOperationMap().entries ==> DefaultOperationMap().entries[k].name == k
  {
    DefaultKeysDistinct();
    var key := (o: OT.OperationType) => o.name;
    assert forall i :: 0 <= i < 3 ==> key(DefaultOperations()[i]) == OperationNames[i];
    FilledByKey(OperationNames, DefaultOperations(), key);
  }

  /** The default lines are stored under their own ids. */
  lemma DefaultLinesKeyed()
    ensures JsMap.Valid(DefaultLineMap())
    ensures forall k :: k in DefaultLineMap().entries ==> DefaultLineMap().entries[k].id == k
  {
    DefaultKeysDistinct();
    var key := (l: PL.ProductionLine) => l.id;
    assert forall i :: 0 <= i < 4 ==> key(DefaultLines()[i]) == LineIds[i];
    FilledByKey(LineIds, DefaultLines(), key);
  }

  /** The defaults are stored under their own names and ids. */
  lemma DefaultsKeyed()
    ensures JsMap.Valid(DefaultOperationMap()) && JsMap.Valid(DefaultLineMap()) && JsMap.Valid(DefaultRecipeMap())
    ensures KeyedByIdentity(DefaultLineMap(), DefaultOperationMap())
  {
    DefaultOperationsKeyed();
    DefaultLinesKeyed();
    DefaultKeysDistinct();
    FilledFromDistinct(ModelIds, DefaultRecipes());
  }

  /** Every default line and every step of every default recipe uses one of
      the default operations. */
  lemma DefaultsReferToKnownOperations()
    ensures forall i :: 0 <= i < 4 ==> CS.OperationKnown(DefaultOperations(), DefaultLines()[i].operationType)
    ensures forall r, i :: 0 <= r < 3 && 0 <= i < |DefaultRecipes()[r]| ==>
              CS.OperationKnown(DefaultOperations(), DefaultRecipes()[r][i].operationType)
  {
    var ops := DefaultOperations();
    assert CS.OperationKnown(ops, Preparacion) && CS.OperationKnown(ops, Torneado) && CS.OperationKnown(ops, Pintado) by {
      assert ops[0].name == Preparacion && ops[1].name == Torneado && ops[2].name == Pintado;
    }
  }

  /** What a recipe needs to pass `validateProcessConfig`: at least one step,
      every operation known, distinct process names, sequence orders
      `0..n-1` in recipe order and at most 60 days in total. */
  ghost predicate WellFormedRecipe(configs: seq<PC.ProcessConfig>, operations: seq<OT.OperationType>)
  {
    && configs != []
    && CS.UnknownOperations(configs, operations) == []
    && Distinct(TM.ProcessNames(configs))
    && (forall i :: 0 <= i < |configs| ==> configs[i].sequenceOrder == i)
    && PC.TotalDuration(configs) <= CS.MaxTotalDurationDays
  }

  /** A well-formed recipe passes `validateProcessConfig`. */
  lemma RecipeAccepted(configs: seq<PC.ProcessConfig>, operations: seq<OT.OperationType>)
    requires WellFormedRecipe(configs, operations)
    ensures CS.ProcessConfigErrors(configs, operations) == []
  {
    assert CS.SequenceOrders(configs) == CS.Range(|configs|);
  }

  /** Every step of the default recipes names a default operation. */
  lemma DefaultRecipesUseKnownOperations()
    ensures CS.UnknownOperations(ModelAProcesses(), DefaultOperations()) == []
    ensures CS.UnknownOperations(ModelBProcesses(), DefaultOperations()) == []
    ensures CS.UnknownOperations(ModelCProcesses(), DefaultOperations()) == []
  {
    DefaultsReferToKnownOperations();
    var ops, rs := DefaultOperations(), DefaultRecipes();
    assert rs[0] == ModelAProcesses() && rs[1] == ModelBProcesses() && rs[2] == ModelCProcesses();
    CS.UnknownOperationsSpec(rs[0], ops);
    CS.UnknownOperationsSpec(rs[1], ops);
    CS.UnknownOperationsSpec(rs[2], ops);
  }

  /** Model A's recipe takes 5 days in the order Preparación, Torneado, Pintado. */
  lemma ModelAShape()
    ensures PC.TotalDuration(ModelAProcesses()) == 5
    ensures TM.ProcessNames(ModelAProcesses()) == OperationNames
  {
    var a := ModelAProcesses();
    assert PC.TotalDuration(a[2..]) == 2 && PC.TotalDuration(a[1..]) == 4;
  }

  /** Model B's recipe takes 5 days in the order Preparación, Torneado, Pintado. */
  lemma ModelBShape()
    ensures PC.TotalDuration(ModelBProcesses()) == 5
    ensures TM.ProcessNames(ModelBProcesses()) == OperationNames
  {
    var b := ModelBProcesses();
    assert PC.TotalDuration(b[2..]) == 1 && PC.TotalDuration(b[1..]) == 4;
  }

  /** Model C's recipe takes 3 days in the order Preparación, Pintado. */
  lemma ModelCShape()
    ensures PC.TotalDuration(ModelCProcesses()) == 3
    ensures TM.ProcessNames(ModelCProcesses()) == [Preparacion, Pintado]
  {
    var c := ModelCProcesses();
    assert PC.TotalDuration(c[1..]) == 2;
  }

  lemma ModelAWellFormed()
    ensures WellFormedRecipe(ModelAProcesses(), DefaultOperations())
  {
    DefaultRecipesUseKnownOperations();
    DefaultKeysDistinct();
    ModelAShape();
  }

  lemma ModelBWellFormed()
    ensures WellFormedRecipe(ModelBProcesses(), DefaultOperations())
  {
    DefaultRecipesUseKnownOperations();
    DefaultKeysDistinct();
    ModelBShape();
  }

  lemma ModelCWellFormed()
    ensures WellFormedRecipe(ModelCProcesses(), DefaultOperations())
  {
    DefaultRecipesUseKnownOperations();
    ModelCShape();
    OperationNamesDiffer();
  }

  lemma OperationNamesDiffer()
    ensures Preparacion != Torneado && Preparacion != Pintado && Torneado != Pintado
  {
    assert Preparacion[1] != Torneado[1] && Preparacion[1] != Pintado[1] && Torneado[1] != Pintado[1];
  }

  /** Model A's recipe passes `validateProcessConfig`. */
  lemma ModelARecipeValid()
    ensures CS.ProcessConfigErrors(ModelAProcesses(), DefaultOperations()) == []
  {
    ModelAWellFormed();
    RecipeAccepted(ModelAProcesses(), DefaultOperations());
  }

  /** Model B's recipe passes `validateProcessConfig`. */
  lemma ModelBRecipeValid()
    ensures CS.ProcessConfigErrors(ModelBProcesses(), DefaultOperations()) == []
  {
    ModelBWellFormed();
    RecipeAccepted(ModelBProcesses(), DefaultOperations());
  }

  /** Model C's recipe passes `validateProcessConfig`. */
  lemma ModelCRecipeValid()
    ensures CS.ProcessConfigErrors(ModelCProcesses(), DefaultOperations()) == []
  {
    ModelCWellFormed();
    RecipeAccepted(ModelCProcesses(), DefaultOperations());
  }
}
