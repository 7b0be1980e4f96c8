/** A catalogue entry for a kind of manufacturing step
    (aps-train-system/src/domain/entities/OperationType.ts). */
module OperationType {
  import opened Common

  /** The colour used when none (or the empty string) is given. */
  const DefaultColor: string := "#6B7280"

  datatype OperationType = OperationType(
    name: string,
    description: string,
    defaultDurationDays: int,
    defaultWorkersRequired: int,
    color: string)

  /** `OperationTypeData`: the colour is optional. */
  datatype OperationTypeData = OperationTypeData(
    name: string,
    description: string,
    defaultDurationDays: int,
    defaultWorkersRequired: int,
    color: Option<string>)

  predicate IsHexDigit(c: char)
  {
    ('0' <= c <= '9') || ('a' <= c <= 'f') || ('A' <= c <= 'F')
  }

  /** The regular expression `^#[0-9A-Fa-f]{6}$`. */
  predicate IsHexColor(s: string)
  {
    |s| == 7 && s[0] == '#' && forall i :: 1 <= i < 7 ==> IsHexDigit(s[i])
  }

  predicate Valid(t: OperationType)
  {
    !IsBlank(t.name) && !IsBlank(t.description) &&
    t.defaultDurationDays > 0 && t.defaultWorkersRequired >= 0 && IsHexColor(t.color)
  }

  /** `data.color || '#6B7280'`: a missing or empty colour becomes the default. */
  function ColorOrDefault(color: Option<string>): (c: string)
    ensures c != ""
    ensures color.Some? && color.value != "" ==> c == color.value
    ensures color.None? || color.value == "" ==> c == DefaultColor
  {
    if color.Some? && color.value != "" then color.value else DefaultColor
  }

  /** `OperationType.create`: fails iff the name or description is blank, the
      duration is not positive, the worker count is negative, or the
      (defaulted) colour is not `#RRGGBB`. */
  function Create(d: OperationTypeData): (r: Result<OperationType>)
    ensures r.Ok? <==> !IsBlank(d.name) && !IsBlank(d.description) && d.defaultDurationDays > 0 &&
                       d.defaultWorkersRequired >= 0 && IsHexColor(ColorOrDefault(d.color))
    ensures r.Ok? ==> Valid(r.value)
    ensures r.Ok? ==> r.value == OperationType(d.name, d.description, d.defaultDurationDays, d.defaultWorkersRequired, ColorOrDefault(d.color))
  {
    var color := ColorOrDefault(d.color);
    if IsBlank(d.name) then Err("Operation type name is required")
    else if IsBlank(d.description) then Err("Operation type description is required")
    else if d.defaultDurationDays <= 0 then Err("Default duration must be greater than 0")
    else if d.defaultWorkersRequired < 0 then Err("Default workers required cannot be negative")
    else if !IsHexColor(color) then Err("Color must be a valid hex color (#RRGGBB)")
    else Ok(OperationType(d.name, d.description, d.defaultDurationDays, d.defaultWorkersRequired, color))
  }

  lemma DefaultColorIsHex()
    ensures IsHexColor(DefaultColor)
  {
    assert DefaultColor[1] == '6' && DefaultColor[2] == 'B' && DefaultColor[3] == '7';
    assert DefaultColor[4] == '2' && DefaultColor[5] == '8' && DefaultColor[6] == '0';
  }

  /** Without a colour, an otherwise valid entry gets `#6B7280` and is accepted. */
  lemma DefaultColorApplies(d: OperationTypeData)
    requires d.color.None? || d.color == Some("")
    requires !IsBlank(d.name) && !IsBlank(d.description) && d.defaultDurationDays > 0 && d.defaultWorkersRequired >= 0
    ensures Create(d).Ok? && Create(d).value.color == DefaultColor
  {
    DefaultColorIsHex();
  }

  /** `withDefaults`: changes only the default duration and workers. */
  function WithDefaults(t: OperationType, durationDays: int, workersRequired: int): (r: Result<OperationType>)
    requires Valid(t)
    ensures r.Ok? <==> durationDays > 0 && workersRequired >= 0
    ensures r.Ok? ==> r.value == t.(defaultDurationDays := durationDays, defaultWorkersRequired := workersRequired)
  {
    Create(OperationTypeData(t.name, t.description, durationDays, workersRequired, Some(t.color)))
  }

  /** `withColor`: changes only the colour; the empty string restores the default. */
  function WithColor(t: OperationType, color: string): (r: Result<OperationType>)
    requires Valid(t)
    ensures r.Ok? <==> color == "" || IsHexColor(color)
    ensures r.Ok? ==> r.value == t.(color := if color == "" then DefaultColor else color)
  {
    DefaultColorIsHex();
    Create(OperationTypeData(t.name, t.description, t.defaultDurationDays, t.defaultWorkersRequired, Some(color)))
  }

  /** `equals` is identity by name: every operation type equals itself. */
  function Equals(a: OperationType, b: OperationType): (r: bool)
    ensures a == b ==> r
  {
    a.name == b.name
  }

  /** New defaults or a new colour keep the same operation type. */
  lemma EqualsAcrossCopies(t: OperationType, durationDays: int, workersRequired: int, color: string)
    requires Valid(t)
    ensures WithDefaults(t, durationDays, workersRequired).Ok? ==> Equals(WithDefaults(t, durationDays, workersRequired).value, t)
    ensures WithColor(t, color).Ok? ==> Equals(WithColor(t, color).value, t)
  {
  }
}
