/** Manifest resolution, `resolve_experiment_manifest`: defaults are filled in, every
    field is checked, and resolving a resolved manifest changes nothing. */
module ExperimentManifest {
  import opened Division
  import opened Results

  /** JSON or YAML values.  Objects map field names to values. */
  datatype Value =
    | Null
    | Bool(b: bool)
    | Int(n: int)
    | Real(r: real)
    | Text(s: string)
    | List(items: seq<Value>)
    | Object(fields: Fields)

  type Fields = map<Name, Value>

  /** Field names the code knows, and any other. */
  datatype Name =
    | SchemaVersion | Experiment | Hardware | Workload | Output | Path
    | DramClass | OrgPreset | TimingPreset | OrgOverrides | TimingOverrides | Pim | Controller | MemorySystem | Topology
    | FrontendClockRatio
    | Scheduler | RefreshManager | RowPolicy | AddrMapper | ClockRatio | ChannelMapper | Controllers | Channels
    | PimDatatype | PimDatatypeClass | PimBehaviorEnabled | PimExecutionModel
    | PimBlocksPerBank | PimBanksPerBlock | PimDatatypeBits | PimSimdWidthBits | PimLanes | PimIssueInterval
    | PimPipelineLatency | PimSlotsPerRequest | PimMovementCycles | PimWritebackCycles
    | PimOpsPerMac | PimOpsPerBlockIssue | PimOpsPerRequest
    | PimComputeEnergy | PimArrayEnergy | PimCellEnergy | PimVrfEnergy | PimSrfEnergy | PimModeSwitchEnergy
    | Rank
    | WorkloadType | Model | Datatype | Phase | PastLen | PromptLen | SchedulePolicy | WeightResidency | MacMode | Seed
    | MaxInflightRequests | InterleaveDepth | MaxExpandedRecords | MaxTraceBytes | SimulationTimeout | WorkloadOptions
    | ModelName | NumLayers | HiddenSize | NumHeads | NumKvHeads | HeadDim | FfnHiddenSize | FfnVariant | Activation
    | Citation | PaperAnchor
    | Unknown(name: string)

  // ---- defaults ----

  const DEFAULT_PIM: Fields :=
    map[PimDatatype := Text("int8"), PimBanksPerBlock := Int(2), PimExecutionModel := Text("shared_block_serial")]

  const DEFAULT_CONTROLLER: Fields :=
    map[Scheduler := Text("FRFCFS"), RefreshManager := Text("NoRefresh"), RowPolicy := Text("Open"),
        AddrMapper := Text("PassThroughAddrMapper")]

  const DEFAULT_MEMORY_SYSTEM: Fields :=
    map[ClockRatio := Int(1), ChannelMapper := Text("CacheLineInterleave")]

  const DEFAULT_TOPOLOGY: Fields := map[Controllers := Int(1), Channels := Int(1)]

  const DEFAULT_HARDWARE: Fields :=
    map[DramClass := Text("LPDDR5PIM"), OrgPreset := Text("LPDDR5_8Gb_x16"), TimingPreset := Text("LPDDR5_6400"),
        OrgOverrides := Object(map[]), TimingOverrides := Object(map[]), Pim := Object(DEFAULT_PIM),
        Controller := Object(DEFAULT_CONTROLLER), MemorySystem := Object(DEFAULT_MEMORY_SYSTEM),
        Topology := Object(DEFAULT_TOPOLOGY), FrontendClockRatio := Int(4)]

  const DEFAULT_WORKLOAD: Fields :=
    map[WorkloadType := Text("structured_transformer_surrogate"), Model := Text("opt-125m"), Datatype := Text("int8"),
        Phase := Text("decode"), PastLen := Int(32), PromptLen := Int(12), SchedulePolicy := Text("serialized"),
        WeightResidency := Text("resident"), MacMode := Text("per_kind"), Seed := Int(12345),
        MaxInflightRequests := Int(16), InterleaveDepth := Int(4), MaxExpandedRecords := Int(100_000_000_000),
        MaxTraceBytes := Int(1_073_741_824), SimulationTimeout := Int(86400)]

  /** Which fields of a group replace their default, and which sections update it. */
  datatype Schema = Schema(defaults: Fields, scalars: seq<Name>, overrides: seq<Name>, sections: seq<Name>) {
    ghost predicate Valid() {
      && (forall f :: f in defaults <==> f in scalars || f in overrides || f in sections)
      && (forall f :: f in sections ==> f !in scalars && f !in overrides && defaults[f].Object?)
      && (forall f :: f in overrides ==> f !in scalars && defaults[f].Object?)
      && (forall i, j :: 0 <= i < j < |sections| ==> sections[i] != sections[j])
    }
  }

  const HARDWARE: Schema := Schema(
    DEFAULT_HARDWARE,
    [DramClass, OrgPreset, TimingPreset, FrontendClockRatio],
    [OrgOverrides, TimingOverrides],
    [Pim, Controller, MemorySystem, Topology])

  const TOP_LEVEL: set<Name> := {SchemaVersion, Experiment, Hardware, Workload, Output}

  const CONTROLLER_FIELDS: set<Name> := {Scheduler, RefreshManager, RowPolicy, AddrMapper}
  const MEMORY_SYSTEM_FIELDS: set<Name> := {ClockRatio, ChannelMapper}
  const TOPOLOGY_FIELDS: set<Name> := {Controllers, Channels}

  const PIM_FIELDS: set<Name> :=
    {PimBlocksPerBank, PimBanksPerBlock, PimExecutionModel, PimDatatype, PimDatatypeClass, PimBehaviorEnabled,
     PimDatatypeBits, PimSimdWidthBits, PimLanes, PimOpsPerMac, PimOpsPerBlockIssue, PimOpsPerRequest, PimIssueInterval,
     PimPipelineLatency, PimMovementCycles, PimWritebackCycles, PimSlotsPerRequest, PimComputeEnergy, PimArrayEnergy,
     PimCellEnergy, PimVrfEnergy, PimSrfEnergy, PimModeSwitchEnergy}

  const MODEL_FIELDS: set<Name> :=
    {ModelName, NumLayers, HiddenSize, NumHeads, NumKvHeads, HeadDim, FfnHiddenSize, FfnVariant, Activation, Citation, PaperAnchor}

  const REQUIRED_MODEL_FIELDS: set<Name> := {ModelName, NumLayers, HiddenSize, NumHeads, HeadDim, FfnHiddenSize}

  const DATATYPES: set<string> := {"int8", "fp16", "int16", "bf16"}

  // ---- checks ----

  /** Python's truth value, as `raw or {}` uses it. */
  predicate Truthy(v: Value) {
    match v
    case Null => false
    case Bool(b) => b
    case Int(n) => n != 0
    case Real(r) => r != 0.0
    case Text(s) => s != []
    case List(items) => items != []
    case Object(fields) => fields != map[]
  }

  predicate PositiveInt(v: Value) { v.Int? && v.n > 0 }
  predicate NonNegativeInt(v: Value) { v.Int? && v.n >= 0 }
  predicate NonNegativeNumber(v: Value) { (v.Int? && v.n >= 0) || (v.Real? && v.r >= 0.0) }
  predicate Choice(v: Value, choices: set<string>) { v.Text? && v.s in choices }

  predicate NonBlank(v: Value) {
    v.Text? && exists i :: 0 <= i < |v.s| && v.s[i] !in {' ', '\t', '\n', '\r'}
  }

  /** `v != 1` is false for the integer, the float and the boolean. */
  predicate EqualsOne(v: Value) {
    v == Int(1) || v == Bool(true) || v == Real(1.0)
  }

  predicate Optional(m: Fields, f: Name, check: Value -> bool) {
    f in m ==> check(m[f])
  }

  /** The checks `_resolve_hardware` makes of the merged sections. */
  predicate TopologyOk(t: Fields) {
    && t.Keys <= TOPOLOGY_FIELDS && TOPOLOGY_FIELDS <= t.Keys
    && t[Controllers] == Int(1) && t[Channels] == Int(1)
  }

  predicate ControllerOk(c: Fields) {
    && c.Keys <= CONTROLLER_FIELDS && CONTROLLER_FIELDS <= c.Keys
    && Choice(c[Scheduler], {"FRFCFS", "FRFCFSRowHit"})
    && Choice(c[RefreshManager], {"NoRefresh", "AllBank", "PerBank"})
    && Choice(c[RowPolicy], {"Open", "ClosedCAP"})
    && Choice(c[AddrMapper], {"PassThroughAddrMapper", "ChRaBaRoCo", "RoBaRaCoCh", "MOP4CLXOR", "RITAddrMapper"})
  }

  predicate MemorySystemOk(m: Fields) {
    && m.Keys <= MEMORY_SYSTEM_FIELDS && MEMORY_SYSTEM_FIELDS <= m.Keys
    && Choice(m[ChannelMapper], {"CacheLineInterleave", "PassThroughChannelMapper"}) && PositiveInt(m[ClockRatio])
  }

  predicate PimOk(p: Fields) {
    && p.Keys <= PIM_FIELDS && PimDatatype in p && PimExecutionModel in p
    && Choice(p[PimDatatype], DATATYPES)
    && (PimDatatypeClass in p ==> Choice(p[PimDatatypeClass], DATATYPES) && p[PimDatatypeClass] == p[PimDatatype])
    && Choice(p[PimExecutionModel], {"shared_block_serial"})
    && (PimBehaviorEnabled in p ==> p[PimBehaviorEnabled].Bool?)
    && (forall f <- {PimBlocksPerBank, PimBanksPerBlock, PimDatatypeBits, PimSimdWidthBits, PimLanes, PimIssueInterval,
                     PimPipelineLatency, PimSlotsPerRequest, PimOpsPerMac, PimOpsPerBlockIssue, PimOpsPerRequest} ::
          Optional(p, f, PositiveInt))
    && (forall f <- {PimMovementCycles, PimWritebackCycles} :: Optional(p, f, NonNegativeInt))
    && (PimOpsPerBlockIssue in p && PimOpsPerRequest in p ==> p[PimOpsPerBlockIssue] == p[PimOpsPerRequest])
    && (forall f <- {PimComputeEnergy, PimArrayEnergy, PimCellEnergy, PimVrfEnergy, PimSrfEnergy, PimModeSwitchEnergy} ::
          Optional(p, f, NonNegativeNumber))
  }

  predicate OrgOverridesOk(o: Fields) {
    (forall f <- o.Keys :: PositiveInt(o[f])) && (Rank in o ==> o[Rank] == Int(1) || o[Rank] == Int(2))
  }

  predicate TimingOverridesOk(t: Fields) {
    forall f <- t.Keys :: NonNegativeNumber(t[f])
  }

  /** A merged hardware object: every section and override present, and an object. */
  predicate Merged(h: Fields) {
    && {DramClass, OrgPreset, TimingPreset, FrontendClockRatio} <= h.Keys
    && (forall f <- {OrgOverrides, TimingOverrides, Pim, Controller, MemorySystem, Topology} :: f in h && h[f].Object?)
  }

  predicate HardwareOk(h: Fields)
    requires Merged(h)
  {
    && TopologyOk(h[Topology].fields)
    && Choice(h[DramClass], {"LPDDR5PIM", "LPDDR6PIM"})
    && (h[OrgPreset].Text? && h[OrgPreset].s != []) && (h[TimingPreset].Text? && h[TimingPreset].s != [])
    && PositiveInt(h[FrontendClockRatio])
    && PimOk(h[Pim].fields) && ControllerOk(h[Controller].fields) && MemorySystemOk(h[MemorySystem].fields)
    && OrgOverridesOk(h[OrgOverrides].fields) && TimingOverridesOk(h[TimingOverrides].fields)
  }

  // ---- hardware ----

  predicate SectionsAreObjects(z: Schema, supplied: Fields) {
    (forall f <- z.sections :: f in supplied ==> supplied[f].Object?)
    && (forall f <- z.overrides :: f in supplied ==> supplied[f].Object?)
  }

  /** Scalars and overrides replace the default; sections update it field by field. */
  function MergedField(z: Schema, supplied: Fields, f: Name): Value
    requires z.Valid() && f in z.defaults && SectionsAreObjects(z, supplied)
  {
    if f !in supplied then z.defaults[f]
    else if f in z.sections then Object(z.defaults[f].fields + supplied[f].fields)
    else supplied[f]
  }

  function Merge(z: Schema, supplied: Fields): (h: Fields)
    requires z.Valid() && SectionsAreObjects(z, supplied)
    ensures h.Keys == z.defaults.Keys
    ensures forall f :: f in h ==> h[f] == MergedField(z, supplied, f)
  {
    map f <- z.defaults.Keys :: MergedField(z, supplied, f)
  }

  /** The loops over scalars and overrides: a supplied field replaces what is there. */
  method ReplaceFields(z: Schema, fields: seq<Name>, supplied: Fields, start: Fields) returns (merged: Fields)
    requires z.Valid() && SectionsAreObjects(z, supplied) && start.Keys == z.defaults.Keys
    requires forall f :: f in fields ==> f in z.defaults && f !in z.sections
    requires forall f :: f in fields ==> start[f] == z.defaults[f]
    ensures merged.Keys == z.defaults.Keys
    ensures forall f :: f in merged ==> merged[f] == if f in fields then MergedField(z, supplied, f) else start[f]
  {
    merged := start;
    for i := 0 to |fields|
      invariant merged.Keys == z.defaults.Keys
      invariant forall f :: f in merged ==> merged[f] == if f in fields[..i] then MergedField(z, supplied, f) else start[f]
    {
      var f := fields[i];
      if f in supplied {
        merged := merged[f := supplied[f]];
      }
    }
    assert fields[..|fields|] == fields;
  }

  /** The loop over the sections. */
  method UpdateSections(z: Schema, supplied: Fields, start: Fields) returns (merged: Fields)
    requires z.Valid() && SectionsAreObjects(z, supplied) && start.Keys == z.defaults.Keys
    requires forall f :: f in z.sections ==> start[f] == z.defaults[f]
    ensures merged.Keys == z.defaults.Keys
    ensures forall f :: f in merged ==> merged[f] == if f in z.sections then MergedField(z, supplied, f) else start[f]
  {
    merged := start;
    for i := 0 to |z.sections|
      invariant merged.Keys == z.defaults.Keys
      invariant forall f :: f in merged ==> merged[f] == if f in z.sections[..i] then MergedField(z, supplied, f) else start[f]
    {
      var f := z.sections[i];
      assert f in z.defaults;
      assert f !in z.sections[..i];
      if f in supplied {
        merged := merged[f := Object(merged[f].fields + supplied[f].fields)];
      }
    }
    assert z.sections[..|z.sections|] == z.sections;
  }

  method MergeAll(z: Schema, supplied: Fields) returns (merged: Fields)
    requires z.Valid() && SectionsAreObjects(z, supplied)
    ensures merged == Merge(z, supplied)
  {
    merged := ReplaceFields(z, z.scalars, supplied, z.defaults);
    merged := ReplaceFields(z, z.overrides, supplied, merged);
    merged := UpdateSections(z, supplied, merged);
  }

  lemma MergedIsMergeable(z: Schema, supplied: Fields)
    requires z.Valid() && SectionsAreObjects(z, supplied)
    ensures SectionsAreObjects(z, Merge(z, supplied))
  {
  }

  lemma UpdateTwice(d: Fields, s: Fields)
    ensures d + (d + s) == d + s && d + d == d
  {
  }

  /** Merging a merged object changes nothing. */
  lemma MergeIsIdempotent(z: Schema, supplied: Fields)
    requires z.Valid() && SectionsAreObjects(z, supplied)
    ensures SectionsAreObjects(z, Merge(z, supplied)) && Merge(z, Merge(z, supplied)) == Merge(z, supplied)
  {
    MergedIsMergeable(z, supplied);
    var h := Merge(z, supplied);
    forall f | f in h
      ensures MergedField(z, h, f) == h[f]
    {
      if f in z.sections {
        UpdateTwice(z.defaults[f].fields, if f in supplied then supplied[f].fields else map[]);
      }
    }
    assert Merge(z, h) == h;
  }

  lemma HardwareSchemaValid()
    ensures HARDWARE.Valid()
  {
  }

  /** `_expect_mapping(raw or {}, …)`. */
  function OrEmpty(raw: Value): Result<Fields> {
    if !Truthy(raw) then Ok(map[]) else if raw.Object? then Ok(raw.fields) else Err(NotAnObject)
  }

  /** Reject unknown fields, merge, then check the merged object. */
  function ResolveWith(z: Schema, accepts: Fields -> bool, raw: Value): Result<Fields>
    requires z.Valid()
  {
    var supplied :- OrEmpty(raw);
    if !(supplied.Keys <= z.defaults.Keys) then Err(UnknownField)
    else if !SectionsAreObjects(z, supplied) then Err(NotAnObject)
    else if accepts(Merge(z, supplied)) then Ok(Merge(z, supplied))
    else Err(InvalidField)
  }

  lemma ResolveWithProjects(z: Schema, accepts: Fields -> bool, raw: Value)
    requires z.Valid() && z.defaults != map[] && ResolveWith(z, accepts, raw).Ok?
    ensures ResolveWith(z, accepts, Object(ResolveWith(z, accepts, raw).value)) == ResolveWith(z, accepts, raw)
  {
    var supplied := OrEmpty(raw).value;
    MergeIsIdempotent(z, supplied);
    SameKeysNonEmpty(Merge(z, supplied), z.defaults);
  }

  lemma SameKeysNonEmpty(a: Fields, b: Fields)
    requires a.Keys == b.Keys && b != map[]
    ensures a != map[]
  {
    var k :| k in b;
    assert k in a.Keys;
  }

  predicate HardwareAccepts(h: Fields) {
    Merged(h) && HardwareOk(h)
  }

  function ResolvedHardware(raw: Value): Result<Fields> {
    HardwareSchemaValid();
    ResolveWith(HARDWARE, HardwareAccepts, raw)
  }

  /** `_resolve_hardware`. */
  method ResolveHardware(raw: Value) returns (r: Result<Fields>)
    ensures r == ResolvedHardware(raw)
  {
    HardwareSchemaValid();
    r := Resolve(HARDWARE, HardwareAccepts, raw);
  }

  method Resolve(z: Schema, accepts: Fields -> bool, raw: Value) returns (r: Result<Fields>)
    requires z.Valid()
    ensures r == ResolveWith(z, accepts, raw)
  {
    var supplied :- OrEmpty(raw);
    if !(supplied.Keys <= z.defaults.Keys) {
      return Err(UnknownField);
    }
    if !SectionsAreObjects(z, supplied) {
      return Err(NotAnObject);
    }
    var merged := MergeAll(z, supplied);
    if !accepts(merged) {
      return Err(InvalidField);
    }
    r := Ok(merged);
  }

  lemma HardwareProjects(raw: Value)
    requires ResolvedHardware(raw).Ok?
    ensures ResolvedHardware(Object(ResolvedHardware(raw).value)) == ResolvedHardware(raw)
    ensures Pim in ResolvedHardware(raw).value && ResolvedHardware(raw).value[Pim].Object?
    ensures PimDatatype in ResolvedHardware(raw).value[Pim].fields
  {
    HardwareSchemaValid();
    SomeDefault();
    ResolveWithProjects(HARDWARE, HardwareAccepts, raw);
  }

  lemma SomeDefault()
    ensures HARDWARE.defaults != map[]
  {
    assert Pim in HARDWARE.defaults;
  }

  // ---- the model ----

  /** Phases a built-in model supports; the table is the workload catalogue's. */
  type Catalogue = map<string, set<string>>

  predicate CustomModelOk(m: Fields) {
    && m.Keys <= MODEL_FIELDS && REQUIRED_MODEL_FIELDS <= m.Keys
    && NonBlank(m[ModelName])
    && (forall f <- {NumLayers, HiddenSize, NumHeads, HeadDim, FfnHiddenSize} :: PositiveInt(m[f]))
    && (NumKvHeads in m ==>
          PositiveInt(m[NumKvHeads]) && m[NumKvHeads].n <= m[NumHeads].n && Rem(m[NumHeads].n, m[NumKvHeads].n) == 0)
    && (FfnVariant in m ==> Choice(m[FfnVariant], {"swiglu_3proj", "geglu_3proj", "relu_2proj"}))
    && (forall f <- {Activation, Citation, PaperAnchor} :: f in m ==> NonBlank(m[f]))
  }

  /** `_resolve_model` returns what it accepts unchanged. */
  predicate ModelOk(v: Value, catalogue: Catalogue) {
    if v.Text? then v.s in catalogue else v.Object? && CustomModelOk(v.fields)
  }

  // ---- the workload ----

  predicate WorkloadOk(w: Fields, catalogue: Catalogue) {
    && DEFAULT_WORKLOAD.Keys <= w.Keys
    && ModelOk(w[Model], catalogue)
    && w[WorkloadType] == Text("structured_transformer_surrogate")
    && (WorkloadOptions in w ==> w[WorkloadOptions].Object?)
    && Choice(w[Datatype], {"int8", "fp16", "bf16"}) && Choice(w[Phase], {"decode", "prefill"})
    && Choice(w[WeightResidency], {"resident", "full_preload"}) && Choice(w[MacMode], {"per_kind", "per_bank", "all_bank"})
    && Choice(w[SchedulePolicy], {"serialized", "overlap_independent_heads"})
    && (forall f <- {PastLen, PromptLen, MaxInflightRequests, InterleaveDepth, MaxExpandedRecords, MaxTraceBytes} :: PositiveInt(w[f]))
    && NonNegativeInt(w[Seed]) && NonNegativeInt(w[SimulationTimeout])
    && (w[Phase] == Text("prefill") ==> w[SchedulePolicy] == Text("serialized"))
    && (w[Model].Text? ==> w[Phase].s in catalogue[w[Model].s])
    && (w[Model].Object? ==> w[SchedulePolicy] == Text("serialized"))
  }

  /** Reject unknown fields, update the defaults, check the result. */
  function UpdateWith(defaults: Fields, extra: set<Name>, accepts: Fields -> bool, raw: Value): Result<Fields> {
    var supplied :- OrEmpty(raw);
    if !(supplied.Keys <= defaults.Keys + extra) then Err(UnknownField)
    else if accepts(defaults + supplied) then Ok(defaults + supplied)
    else Err(InvalidField)
  }

  lemma UpdateWithProjects(defaults: Fields, extra: set<Name>, accepts: Fields -> bool, raw: Value, f: Name)
    requires f in defaults && UpdateWith(defaults, extra, accepts, raw).Ok?
    ensures UpdateWith(defaults, extra, accepts, Object(UpdateWith(defaults, extra, accepts, raw).value))
         == UpdateWith(defaults, extra, accepts, raw)
    ensures f in UpdateWith(defaults, extra, accepts, raw).value
  {
    var supplied := OrEmpty(raw).value;
    UpdateTwice(defaults, supplied);
    assert f in defaults + supplied;
  }

  function WorkloadAccepts(catalogue: Catalogue): Fields -> bool {
    (w: Fields) => WorkloadOk(w, catalogue)
  }

  /** `_resolve_workload`. */
  function ResolvedWorkload(raw: Value, catalogue: Catalogue): Result<Fields> {
    UpdateWith(DEFAULT_WORKLOAD, {WorkloadOptions}, WorkloadAccepts(catalogue), raw)
  }

  lemma WorkloadProjects(raw: Value, catalogue: Catalogue)
    requires ResolvedWorkload(raw, catalogue).Ok?
    ensures ResolvedWorkload(Object(ResolvedWorkload(raw, catalogue).value), catalogue) == ResolvedWorkload(raw, catalogue)
    ensures Datatype in ResolvedWorkload(raw, catalogue).value
  {
    assert Datatype in DEFAULT_WORKLOAD;
    UpdateWithProjects(DEFAULT_WORKLOAD, {WorkloadOptions}, WorkloadAccepts(catalogue), raw, Datatype);
  }

  // ---- the manifest ----

  const DEFAULT_PATH: Value := Text("results/custom/result.json")

  function GetOr(m: Fields, f: Name, default: Value): Value {
    if f in m then m[f] else default
  }

  function ResolvedOutput(raw: Fields): Result<Value> {
    var output := GetOr(raw, Output, Object(map[Path := DEFAULT_PATH]));
    if !output.Object? then Err(NotAnObject)
    else if !(output.fields.Keys <= {Path}) then Err(UnknownField)
    else
      var path := GetOr(output.fields, Path, DEFAULT_PATH);
      if NonBlank(path) then Ok(path) else Err(InvalidField)
  }

  /** `resolve_experiment_manifest`. */
  function ResolvedManifest(raw: Value, catalogue: Catalogue): Result<Fields> {
    if !raw.Object? then Err(NotAnObject)
    else if !(raw.fields.Keys <= TOP_LEVEL) then Err(UnknownField)
    else if !EqualsOne(GetOr(raw.fields, SchemaVersion, Int(1))) then Err(InvalidField)
    else
      var experiment := GetOr(raw.fields, Experiment, Text("pimscope-experiment"));
      if !NonBlank(experiment) then Err(InvalidField)
      else
        var path :- ResolvedOutput(raw.fields);
        var hardware :- ResolvedHardware(GetOr(raw.fields, Hardware, Object(map[])));
        var workload :- ResolvedWorkload(GetOr(raw.fields, Workload, Object(map[])), catalogue);
        HardwareProjects(GetOr(raw.fields, Hardware, Object(map[])));
        WorkloadProjects(GetOr(raw.fields, Workload, Object(map[])), catalogue);
        if hardware[Pim].fields[PimDatatype] != workload[Datatype] then Err(InvalidField)
        else Ok(Assembled(experiment, hardware, workload, path))
  }

  function Assembled(experiment: Value, hardware: Fields, workload: Fields, path: Value): Fields {
    map[SchemaVersion := Int(1), Experiment := experiment, Hardware := Object(hardware), Workload := Object(workload),
        Output := Object(map[Path := path])]
  }

  lemma AssembledFields(experiment: Value, hardware: Fields, workload: Fields, path: Value)
    ensures var m := Assembled(experiment, hardware, workload, path);
      && m.Keys == TOP_LEVEL && m[SchemaVersion] == Int(1) && m[Experiment] == experiment
      && m[Hardware] == Object(hardware) && m[Workload] == Object(workload) && m[Output] == Object(map[Path := path])
    ensures NonBlank(path) ==> ResolvedOutput(Assembled(experiment, hardware, workload, path)) == Ok(path)
  {
  }

  // ---- what acceptance means ----

  /** Every field of the group is there, and every section has at least its default
      fields. */
  predicate Complete(z: Schema, h: Fields) {
    && h.Keys == z.defaults.Keys && SectionsAreObjects(z, h)
    && (forall f <- z.sections :: f in h && f in z.defaults && z.defaults[f].Object? ==>
          z.defaults[f].fields.Keys <= h[f].fields.Keys)
  }

  predicate HardwareResolved(h: Fields) {
    Complete(HARDWARE, h) && HardwareAccepts(h)
  }

  predicate WorkloadResolved(w: Fields, catalogue: Catalogue) {
    DEFAULT_WORKLOAD.Keys <= w.Keys <= DEFAULT_WORKLOAD.Keys + {WorkloadOptions} && WorkloadOk(w, catalogue)
  }

  predicate DatatypesAgree(h: Fields, w: Fields) {
    Pim in h && h[Pim].Object? && PimDatatype in h[Pim].fields && Datatype in w && h[Pim].fields[PimDatatype] == w[Datatype]
  }

  predicate Shaped(m: Fields) {
    && m.Keys == TOP_LEVEL && m[SchemaVersion] == Int(1) && m[Hardware].Object? && m[Workload].Object?
    && m[Output].Object? && m[Output].fields.Keys == {Path}
  }

  /** A complete manifest that passes every check. */
  predicate IsResolved(m: Fields, catalogue: Catalogue) {
    && Shaped(m) && NonBlank(m[Experiment]) && NonBlank(m[Output].fields[Path])
    && HardwareResolved(m[Hardware].fields) && WorkloadResolved(m[Workload].fields, catalogue)
    && DatatypesAgree(m[Hardware].fields, m[Workload].fields)
  }

  /** What the user wrote is there as written; what he left out is the default. */
  predicate FollowsGroup(z: Schema, supplied: Fields, h: Fields) {
    forall f :: f in h && f in z.defaults ==>
      if f !in supplied then h[f] == z.defaults[f]
      else if f !in z.sections then h[f] == supplied[f]
      else h[f].Object? && supplied[f].Object? && z.defaults[f].Object? && FollowsSection(z.defaults[f].fields, supplied[f].fields, h[f].fields)
  }

  predicate FollowsSection(defaults: Fields, supplied: Fields, h: Fields) {
    && h.Keys == defaults.Keys + supplied.Keys
    && forall g :: g in h ==> h[g] == if g in supplied then supplied[g] else defaults[g]
  }

  predicate Follows(raw: Fields, m: Fields) {
    var hardware, workload := OrEmpty(GetOr(raw, Hardware, Object(map[]))), OrEmpty(GetOr(raw, Workload, Object(map[])));
    && m.Keys == TOP_LEVEL && m[Hardware].Object? && m[Workload].Object? && hardware.Ok? && workload.Ok?
    && FollowsGroup(HARDWARE, hardware.value, m[Hardware].fields)
    && FollowsSection(DEFAULT_WORKLOAD, workload.value, m[Workload].fields)
    && m[Experiment] == GetOr(raw, Experiment, Text("pimscope-experiment"))
    && (Output !in raw ==> m[Output] == Object(map[Path := DEFAULT_PATH]))
    && (Output in raw ==> raw[Output].Object? && m[Output] == Object(map[Path := GetOr(raw[Output].fields, Path, DEFAULT_PATH)]))
  }

  lemma MergeCompletes(z: Schema, supplied: Fields)
    requires z.Valid() && SectionsAreObjects(z, supplied)
    ensures Complete(z, Merge(z, supplied)) && FollowsGroup(z, supplied, Merge(z, supplied))
  {
  }

  lemma CompleteIsMerged(z: Schema, h: Fields)
    requires z.Valid() && Complete(z, h)
    ensures Merge(z, h) == h
  {
    forall f | f in h
      ensures MergedField(z, h, f) == h[f]
    {
      if f in z.sections {
        assert z.defaults[f].fields + h[f].fields == h[f].fields;
      }
    }
  }

  lemma GroupFollows(z: Schema, accepts: Fields -> bool, raw: Value)
    requires z.Valid() && ResolveWith(z, accepts, raw).Ok?
    ensures var h := ResolveWith(z, accepts, raw).value;
      Complete(z, h) && accepts(h) && OrEmpty(raw).Ok? && FollowsGroup(z, OrEmpty(raw).value, h)
  {
    MergeCompletes(z, OrEmpty(raw).value);
  }

  lemma CompleteGroupResolves(z: Schema, accepts: Fields -> bool, h: Fields)
    requires z.Valid() && Complete(z, h) && accepts(h) && z.defaults != map[]
    ensures ResolveWith(z, accepts, Object(h)) == Ok(h)
  {
    SameKeysNonEmpty(h, z.defaults);
    CompleteIsMerged(z, h);
  }

  lemma UpdateFollows(defaults: Fields, extra: set<Name>, accepts: Fields -> bool, raw: Value)
    requires UpdateWith(defaults, extra, accepts, raw).Ok?
    ensures var w := UpdateWith(defaults, extra, accepts, raw).value;
      && accepts(w) && defaults.Keys <= w.Keys <= defaults.Keys + extra
      && OrEmpty(raw).Ok? && FollowsSection(defaults, OrEmpty(raw).value, w)
  {
  }

  lemma CompleteUpdateResolves(defaults: Fields, extra: set<Name>, accepts: Fields -> bool, w: Fields)
    requires accepts(w) && defaults.Keys <= w.Keys <= defaults.Keys + extra && w != map[]
    ensures UpdateWith(defaults, extra, accepts, Object(w)) == Ok(w)
  {
    assert defaults + w == w;
  }

  lemma HardwareFollows(raw: Value, h: Fields)
    requires ResolvedHardware(raw) == Ok(h)
    ensures HardwareResolved(h) && OrEmpty(raw).Ok? && FollowsGroup(HARDWARE, OrEmpty(raw).value, h)
  {
    HardwareSchemaValid();
    GroupFollows(HARDWARE, HardwareAccepts, raw);
  }

  lemma WorkloadFollows(raw: Value, w: Fields, catalogue: Catalogue)
    requires ResolvedWorkload(raw, catalogue) == Ok(w)
    ensures WorkloadResolved(w, catalogue) && OrEmpty(raw).Ok? && FollowsSection(DEFAULT_WORKLOAD, OrEmpty(raw).value, w)
  {
    UpdateFollows(DEFAULT_WORKLOAD, {WorkloadOptions}, WorkloadAccepts(catalogue), raw);
  }

  /** The parts an accepted manifest is assembled from. */
  lemma AcceptedParts(raw: Value, catalogue: Catalogue) returns (experiment: Value, h: Fields, w: Fields, path: Value)
    requires ResolvedManifest(raw, catalogue).Ok?
    ensures ResolvedManifest(raw, catalogue) == Ok(Assembled(experiment, h, w, path))
    ensures raw.Object? && experiment == GetOr(raw.fields, Experiment, Text("pimscope-experiment")) && NonBlank(experiment)
    ensures ResolvedOutput(raw.fields) == Ok(path) && NonBlank(path)
    ensures ResolvedHardware(GetOr(raw.fields, Hardware, Object(map[]))) == Ok(h)
    ensures ResolvedWorkload(GetOr(raw.fields, Workload, Object(map[])), catalogue) == Ok(w)
    ensures DatatypesAgree(h, w)
  {
    experiment, path := GetOr(raw.fields, Experiment, Text("pimscope-experiment")), ResolvedOutput(raw.fields).value;
    h := ResolvedHardware(GetOr(raw.fields, Hardware, Object(map[]))).value;
    w := ResolvedWorkload(GetOr(raw.fields, Workload, Object(map[])), catalogue).value;
    HardwareProjects(GetOr(raw.fields, Hardware, Object(map[])));
    WorkloadProjects(GetOr(raw.fields, Workload, Object(map[])), catalogue);
  }

  /** An accepted manifest resolves to a complete one that passes every check and says
      what the user wrote wherever he wrote something. */
  lemma AcceptedFollows(raw: Value, catalogue: Catalogue)
    requires ResolvedManifest(raw, catalogue).Ok?
    ensures IsResolved(ResolvedManifest(raw, catalogue).value, catalogue)
    ensures Follows(raw.fields, ResolvedManifest(raw, catalogue).value)
  {
    var experiment, h, w, path := AcceptedParts(raw, catalogue);
    HardwareFollows(GetOr(raw.fields, Hardware, Object(map[])), h);
    WorkloadFollows(GetOr(raw.fields, Workload, Object(map[])), w, catalogue);
    AssembledIsShaped(experiment, h, w, path);
    ShapedIsResolved(ResolvedManifest(raw, catalogue).value, h, w, catalogue);
    PartsFollow(raw.fields, experiment, h, w, path);
  }

  lemma AssembledIsShaped(experiment: Value, h: Fields, w: Fields, path: Value)
    ensures var m := Assembled(experiment, h, w, path);
      && Shaped(m) && m[Experiment] == experiment && m[Hardware] == Object(h) && m[Workload] == Object(w)
      && m[Output].fields[Path] == path
  {
    AssembledFields(experiment, h, w, path);
  }

  lemma ShapedIsResolved(m: Fields, h: Fields, w: Fields, catalogue: Catalogue)
    requires Shaped(m) && NonBlank(m[Experiment]) && NonBlank(m[Output].fields[Path])
    requires m[Hardware] == Object(h) && m[Workload] == Object(w)
    requires HardwareResolved(h) && WorkloadResolved(w, catalogue) && DatatypesAgree(h, w)
    ensures IsResolved(m, catalogue)
  {
  }

  lemma PartsFollow(raw: Fields, experiment: Value, h: Fields, w: Fields, path: Value)
    requires experiment == GetOr(raw, Experiment, Text("pimscope-experiment")) && ResolvedOutput(raw) == Ok(path)
    requires var supplied := OrEmpty(GetOr(raw, Hardware, Object(map[])));
      supplied.Ok? && FollowsGroup(HARDWARE, supplied.value, h)
    requires var supplied := OrEmpty(GetOr(raw, Workload, Object(map[])));
      supplied.Ok? && FollowsSection(DEFAULT_WORKLOAD, supplied.value, w)
    ensures Follows(raw, Assembled(experiment, h, w, path))
  {
    AssembledFields(experiment, h, w, path);
  }

  lemma CompleteHardwareResolves(h: Fields)
    requires HardwareResolved(h)
    ensures ResolvedHardware(Object(h)) == Ok(h)
  {
    HardwareSchemaValid();
    SomeDefault();
    CompleteGroupResolves(HARDWARE, HardwareAccepts, h);
  }

  lemma CompleteWorkloadResolves(w: Fields, catalogue: Catalogue)
    requires WorkloadResolved(w, catalogue)
    ensures ResolvedWorkload(Object(w), catalogue) == Ok(w)
  {
    assert Datatype in DEFAULT_WORKLOAD;
    CompleteUpdateResolves(DEFAULT_WORKLOAD, {WorkloadOptions}, WorkloadAccepts(catalogue), w);
  }

  lemma ResolvedPartsResolve(experiment: Value, h: Fields, w: Fields, path: Value, catalogue: Catalogue)
    requires NonBlank(experiment) && NonBlank(path)
    requires ResolvedHardware(Object(h)) == Ok(h) && ResolvedWorkload(Object(w), catalogue) == Ok(w)
    requires DatatypesAgree(h, w)
    ensures var m := Assembled(experiment, h, w, path); ResolvedManifest(Object(m), catalogue) == Ok(m)
  {
    AssembledFields(experiment, h, w, path);
  }

  /** The manifests that resolution can return are exactly the complete ones that pass
      every check, and each of them resolves to itself. */
  lemma ResolvedExactly(m: Fields, catalogue: Catalogue)
    ensures IsResolved(m, catalogue) <==> ResolvedManifest(Object(m), catalogue) == Ok(m)
  {
    if IsResolved(m, catalogue) {
      var path := m[Output].fields[Path];
      CompleteHardwareResolves(m[Hardware].fields);
      CompleteWorkloadResolves(m[Workload].fields, catalogue);
      ResolvedPartsResolve(m[Experiment], m[Hardware].fields, m[Workload].fields, path, catalogue);
      AssembledIs(m, path);
    } else if ResolvedManifest(Object(m), catalogue) == Ok(m) {
      AcceptedFollows(Object(m), catalogue);
    }
  }

  lemma AssembledIs(m: Fields, path: Value)
    requires Shaped(m) && m[Output].fields[Path] == path
    ensures m == Assembled(m[Experiment], m[Hardware].fields, m[Workload].fields, path)
  {
    assert m[Output].fields == map[Path := path];
    AssembledFields(m[Experiment], m[Hardware].fields, m[Workload].fields, path);
  }

  /** What can be seen of a manifest before anything is filled in: only known fields, no
      other schema version, sections that are objects. */
  predicate Admissible(raw: Value) {
    && raw.Object? && raw.fields.Keys <= TOP_LEVEL
    && (SchemaVersion in raw.fields ==> EqualsOne(raw.fields[SchemaVersion]))
    && (Output in raw.fields ==> raw.fields[Output].Object? && raw.fields[Output].fields.Keys <= {Path})
    && (Hardware in raw.fields ==> Supplies(raw.fields[Hardware], HARDWARE.defaults.Keys))
    && (Workload in raw.fields ==> Supplies(raw.fields[Workload], DEFAULT_WORKLOAD.Keys + {WorkloadOptions}))
  }

  /** An empty value, or an object with known fields. */
  predicate Supplies(raw: Value, known: set<Name>) {
    !Truthy(raw) || (raw.Object? && raw.fields.Keys <= known)
  }

  lemma FollowsIsMerge(z: Schema, supplied: Fields, h: Fields)
    requires z.Valid() && Complete(z, h) && FollowsGroup(z, supplied, h) && supplied.Keys <= z.defaults.Keys
    ensures SectionsAreObjects(z, supplied) && Merge(z, supplied) == h
  {
    forall f | f in z.defaults
      ensures f in supplied && (f in z.sections || f in z.overrides) ==> supplied[f].Object?
    {
      assert f in h;
    }
    forall f | f in z.defaults
      ensures MergedField(z, supplied, f) == h[f]
    {
      assert f in h;
      if f in supplied && f in z.sections {
        assert z.defaults[f].fields + supplied[f].fields == h[f].fields;
      }
    }
  }

  lemma GroupResolves(z: Schema, accepts: Fields -> bool, raw: Value, h: Fields)
    requires z.Valid() && Complete(z, h) && accepts(h) && Supplies(raw, z.defaults.Keys)
    requires OrEmpty(raw).Ok? && FollowsGroup(z, OrEmpty(raw).value, h)
    ensures ResolveWith(z, accepts, raw) == Ok(h)
  {
    FollowsIsMerge(z, OrEmpty(raw).value, h);
  }

  lemma FollowedHardwareResolves(raw: Value, h: Fields)
    requires HardwareResolved(h) && Supplies(raw, HARDWARE.defaults.Keys)
    requires OrEmpty(raw).Ok? && FollowsGroup(HARDWARE, OrEmpty(raw).value, h)
    ensures ResolvedHardware(raw) == Ok(h)
  {
    HardwareSchemaValid();
    GroupResolves(HARDWARE, HardwareAccepts, raw, h);
  }

  lemma UpdateResolves(defaults: Fields, extra: set<Name>, accepts: Fields -> bool, raw: Value, w: Fields)
    requires accepts(w) && Supplies(raw, defaults.Keys + extra)
    requires OrEmpty(raw).Ok? && FollowsSection(defaults, OrEmpty(raw).value, w)
    ensures UpdateWith(defaults, extra, accepts, raw) == Ok(w)
  {
    assert defaults + OrEmpty(raw).value == w;
  }

  lemma FollowedWorkloadResolves(raw: Value, w: Fields, catalogue: Catalogue)
    requires WorkloadResolved(w, catalogue) && Supplies(raw, DEFAULT_WORKLOAD.Keys + {WorkloadOptions})
    requires OrEmpty(raw).Ok? && FollowsSection(DEFAULT_WORKLOAD, OrEmpty(raw).value, w)
    ensures ResolvedWorkload(raw, catalogue) == Ok(w)
  {
    UpdateResolves(DEFAULT_WORKLOAD, {WorkloadOptions}, WorkloadAccepts(catalogue), raw, w);
  }

  lemma FollowedOutput(raw: Fields, m: Fields)
    requires Follows(raw, m) && Shaped(m) && NonBlank(m[Output].fields[Path])
    requires Output in raw ==> raw[Output].Object? && raw[Output].fields.Keys <= {Path}
    ensures ResolvedOutput(raw) == Ok(m[Output].fields[Path])
  {
  }

  /** `m` says what the admissible manifest says, is complete and passes every check. */
  ghost predicate FilledIn(raw: Value, m: Fields, catalogue: Catalogue) {
    Admissible(raw) && Follows(raw.fields, m) && IsResolved(m, catalogue)
  }

  lemma PartsResolve(raw: Value, experiment: Value, h: Fields, w: Fields, path: Value, catalogue: Catalogue)
    requires raw.Object? && raw.fields.Keys <= TOP_LEVEL && EqualsOne(GetOr(raw.fields, SchemaVersion, Int(1)))
    requires experiment == GetOr(raw.fields, Experiment, Text("pimscope-experiment")) && NonBlank(experiment)
    requires ResolvedOutput(raw.fields) == Ok(path) && DatatypesAgree(h, w)
    requires ResolvedHardware(GetOr(raw.fields, Hardware, Object(map[]))) == Ok(h)
    requires ResolvedWorkload(GetOr(raw.fields, Workload, Object(map[])), catalogue) == Ok(w)
    ensures ResolvedManifest(raw, catalogue) == Ok(Assembled(experiment, h, w, path))
  {
  }

  lemma FilledInParts(raw: Value, m: Fields, catalogue: Catalogue)
    requires FilledIn(raw, m, catalogue)
    ensures ResolvedHardware(GetOr(raw.fields, Hardware, Object(map[]))) == Ok(m[Hardware].fields)
    ensures ResolvedWorkload(GetOr(raw.fields, Workload, Object(map[])), catalogue) == Ok(m[Workload].fields)
  {
    FollowedHardwareResolves(GetOr(raw.fields, Hardware, Object(map[])), m[Hardware].fields);
    FollowedWorkloadResolves(GetOr(raw.fields, Workload, Object(map[])), m[Workload].fields, catalogue);
  }

  lemma FilledInResolves(raw: Value, m: Fields, catalogue: Catalogue)
    requires FilledIn(raw, m, catalogue)
    ensures ResolvedManifest(raw, catalogue) == Ok(m)
  {
    var path := m[Output].fields[Path];
    FilledInParts(raw, m, catalogue);
    FollowedOutput(raw.fields, m);
    PartsResolve(raw, m[Experiment], m[Hardware].fields, m[Workload].fields, path, catalogue);
    AssembledIs(m, path);
  }

  lemma AcceptedIsAdmissible(raw: Value, catalogue: Catalogue)
    requires ResolvedManifest(raw, catalogue).Ok?
    ensures Admissible(raw)
  {
    var experiment, h, w, path := AcceptedParts(raw, catalogue);
  }

  /** A manifest is accepted, and resolves to `m`, if and only if it is admissible and
      `m` fills it in with defaults to a complete manifest that passes every check. */
  lemma AcceptedExactly(raw: Value, m: Fields, catalogue: Catalogue)
    ensures ResolvedManifest(raw, catalogue) == Ok(m) <==> FilledIn(raw, m, catalogue)
  {
    if ResolvedManifest(raw, catalogue) == Ok(m) {
      AcceptedFollows(raw, catalogue);
      AcceptedIsAdmissible(raw, catalogue);
    }
    if FilledIn(raw, m, catalogue) {
      FilledInResolves(raw, m, catalogue);
    }
  }

  /** Resolution is a projection: whatever it accepts, it accepts its own output and
      returns it unchanged. */
  lemma ResolutionProjects(raw: Value, catalogue: Catalogue)
    requires ResolvedManifest(raw, catalogue).Ok?
    ensures ResolvedManifest(Object(ResolvedManifest(raw, catalogue).value), catalogue) == ResolvedManifest(raw, catalogue)
  {
    AcceptedFollows(raw, catalogue);
    ResolvedExactly(ResolvedManifest(raw, catalogue).value, catalogue);
  }

  /** What result validation relies on: it resolves the stored manifest again and
      compares fingerprints.  When the fingerprint tells the two resolved manifests
      apart, the comparison passes exactly when they are the same manifest; a stored
      manifest that is complete passes exactly when it is the original's own. */
  lemma FingerprintIdentifies<D>(stored: Fields, original: Value, catalogue: Catalogue, fingerprint: Fields -> D)
    requires ResolvedManifest(Object(stored), catalogue).Ok? && ResolvedManifest(original, catalogue).Ok?
    requires var a, b := ResolvedManifest(Object(stored), catalogue).value, ResolvedManifest(original, catalogue).value;
      fingerprint(a) == fingerprint(b) ==> a == b
    ensures fingerprint(ResolvedManifest(Object(stored), catalogue).value) == fingerprint(ResolvedManifest(original, catalogue).value)
       <==> ResolvedManifest(Object(stored), catalogue) == ResolvedManifest(original, catalogue)
    ensures IsResolved(stored, catalogue) ==>
      (fingerprint(ResolvedManifest(Object(stored), catalogue).value) == fingerprint(ResolvedManifest(original, catalogue).value)
       <==> stored == ResolvedManifest(original, catalogue).value)
  {
    ResolvedExactly(stored, catalogue);
  }
}
