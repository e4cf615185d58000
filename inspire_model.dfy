/** The per-model descriptor of a model archive: `Reset` copies the identity
    strings and the four selectors out of one document block, clears the
    buffer view and then runs `decode` to fill the attribute store;
    `SetBuffer` attaches a non-owning view of the model bytes. */
module InspireModelArchive {
  import opened Wrappers
  import opened MachineInts
  import opened YamlNode
  import opened InferenceTypes
  import opened AttributeDecode

  /** The descriptor's fields as one value. */
  datatype Descriptor = Descriptor(
    name: string,
    fullname: string,
    version: string,
    modelType: EngineType,
    inferEngine: EngineType,
    inferDevice: int32,
    inferBackend: int32,
    loadFilePath: int32,
    buffer: array?<char>,
    bufferSize: uint64,
    configuration: Store)

  /** How `Reset` ends: it returns `decode`'s status, or a conversion of one of
      its own string keys throws out of it. */
  datatype Outcome = Returned(status: int32) | Escaped

  datatype After = After(state: Descriptor, outcome: Outcome)

  /** The keys `Reset` reads itself, in the order it reads them. */
  datatype OwnKey = NameKey | FullnameKey | VersionKey | ModelTypeKey | InferEngineKey | InferDeviceKey | InferBackendKey

  function KeyText(k: OwnKey): string {
    match k
    case NameKey => "name"
    case FullnameKey => "fullname"
    case VersionKey => "version"
    case ModelTypeKey => "model_type"
    case InferEngineKey => "infer_engine"
    case InferDeviceKey => "infer_device"
    case InferBackendKey => "infer_backend"
  }

  function Rank(k: OwnKey): nat {
    match k
    case NameKey => 0
    case FullnameKey => 1
    case VersionKey => 2
    case ModelTypeKey => 3
    case InferEngineKey => 4
    case InferDeviceKey => 5
    case InferBackendKey => 6
  }

  const OwnKeyCount := 7

  /** The key is present but `as<std::string>()` throws on it. */
  predicate Unreadable(doc: Document, c: Converter, k: OwnKey) {
    KeyText(k) in doc && c.asString(doc[KeyText(k)]).None?
  }

  /** The string a present key converts to. */
  function Token(doc: Document, c: Converter, k: OwnKey): Option<string> {
    if KeyText(k) in doc then c.asString(doc[KeyText(k)]) else None
  }

  /** The rank of the first unreadable key, or `OwnKeyCount` when none is:
      the point where `Reset` throws. */
  function ThrowIndex(doc: Document, c: Converter): (p: nat)
    ensures p <= OwnKeyCount
    ensures forall k :: Rank(k) < p ==> !Unreadable(doc, c, k)
    ensures forall k :: Rank(k) == p ==> Unreadable(doc, c, k)
  {
    if Unreadable(doc, c, NameKey) then 0
    else if Unreadable(doc, c, FullnameKey) then 1
    else if Unreadable(doc, c, VersionKey) then 2
    else if Unreadable(doc, c, ModelTypeKey) then 3
    else if Unreadable(doc, c, InferEngineKey) then 4
    else if Unreadable(doc, c, InferDeviceKey) then 5
    else if Unreadable(doc, c, InferBackendKey) then 6
    else 7
  }

  /** The token `Reset` acts on for key k: present only when the key is present
      and `Reset` gets that far without throwing. */
  function FieldToken(doc: Document, c: Converter, k: OwnKey): Option<string> {
    if Rank(k) < ThrowIndex(doc, c) then Token(doc, c, k) else None
  }

  function Choose<T>(o: Option<T>, prior: T): T {
    if o.Some? then o.value else prior
  }

  /** The selector tables applied to a token that may be missing. */
  function EngineTypeFor(t: Option<string>): Option<EngineType> {
    if t.Some? then EngineTypeOf(t.value) else None
  }

  function DeviceFor(t: Option<string>): Option<InspireInferEngine> {
    if t.Some? then DeviceOf(t.value) else None
  }

  function BackendFor(t: Option<string>): Option<InspireInferBackend> {
    if t.Some? then BackendOf(t.value) else None
  }

  /** The field a key of `Reset` sets from the token it read, if any.  A
      selector takes only the tokens of its table; `model_type` COREML also
      sets `loadFilePath`, and no token clears it. */
  function Assign(k: OwnKey, t: Option<string>, d: Descriptor): Descriptor {
    match k
    case NameKey => d.(name := Choose(t, d.name))
    case FullnameKey => d.(fullname := Choose(t, d.fullname))
    case VersionKey => d.(version := Choose(t, d.version))
    case ModelTypeKey =>
      var e := EngineTypeFor(t);
      d.(modelType := Choose(e, d.modelType),
         loadFilePath := if e == Some(InferCoreML) then 1 else d.loadFilePath)
    case InferEngineKey => d.(inferEngine := Choose(EngineTypeFor(t), d.inferEngine))
    case InferDeviceKey =>
      var e := DeviceFor(t);
      d.(inferDevice := if e.Some? then InferEngineCode(e.value) else d.inferDevice)
    case InferBackendKey =>
      var b := BackendFor(t);
      d.(inferBackend := if b.Some? then InferBackendCode(b.value) else d.inferBackend)
  }

  /** `Reset` part way through its own keys: still running, or thrown out of. */
  datatype Progress = Running(fields: Descriptor) | Threw(fields: Descriptor)

  /** One key of `Reset`: absent, it changes nothing; present, it is read as a
      string, which either throws or sets the key's field. */
  function ReadKey(k: OwnKey, doc: Document, c: Converter, p: Progress): Progress {
    if p.Threw? || KeyText(k) !in doc then p
    else
      match c.asString(doc[KeyText(k)])
      case None => Threw(p.fields)
      case Some(t) => Running(Assign(k, Some(t), p.fields))
  }

  /** What `Reset` does to a descriptor: clear the buffer view, read its own
      keys in order, then decode the attribute store unless a read threw. */
  function ResetSpec(d: Descriptor, doc: Document, c: Converter): After {
    var p := d.(buffer := null, bufferSize := 0);
    match ReadKeys(doc, c, Running(p))
    case Threw(fields) => After(fields, Escaped)
    case Running(fields) =>
      var r := DecodeStore(doc, c, fields.configuration);
      After(fields.(configuration := r.store), Returned(r.status))
  }

  /** `Reset`'s own keys, one after another: the identity strings, then the
      selectors. */
  function ReadKeys(doc: Document, c: Converter, p: Progress): Progress {
    ReadSelectors(doc, c, ReadIdentity(doc, c, p))
  }

  function ReadIdentity(doc: Document, c: Converter, p: Progress): Progress {
    var p := ReadKey(NameKey, doc, c, p);
    var p := ReadKey(FullnameKey, doc, c, p);
    ReadKey(VersionKey, doc, c, p)
  }

  function ReadSelectors(doc: Document, c: Converter, p: Progress): Progress {
    var p := ReadKey(ModelTypeKey, doc, c, p);
    var p := ReadKey(InferEngineKey, doc, c, p);
    var p := ReadKey(InferDeviceKey, doc, c, p);
    ReadKey(InferBackendKey, doc, c, p)
  }

  /** The descriptor after `Reset`'s own keys, field by field: each field is
      overwritten from its key when that key is reached, present and (for a
      selector) a known token, and otherwise keeps its prior value. */
  function OwnFields(d: Descriptor, doc: Document, c: Converter): Descriptor {
    var device := DeviceFor(FieldToken(doc, c, InferDeviceKey));
    var backend := BackendFor(FieldToken(doc, c, InferBackendKey));
    d.(
      buffer := null,
      bufferSize := 0,
      name := Choose(FieldToken(doc, c, NameKey), d.name),
      fullname := Choose(FieldToken(doc, c, FullnameKey), d.fullname),
      version := Choose(FieldToken(doc, c, VersionKey), d.version),
      modelType := Choose(EngineTypeFor(FieldToken(doc, c, ModelTypeKey)), d.modelType),
      loadFilePath := if EngineTypeFor(FieldToken(doc, c, ModelTypeKey)) == Some(InferCoreML) then 1 else d.loadFilePath,
      inferEngine := Choose(EngineTypeFor(FieldToken(doc, c, InferEngineKey)), d.inferEngine),
      inferDevice := if device.Some? then InferEngineCode(device.value) else d.inferDevice,
      inferBackend := if backend.Some? then InferBackendCode(backend.value) else d.inferBackend)
  }

  /** `Reset` field by field: the attribute store is decoded only when no key
      of `Reset`'s own throws. */
  function ResetFieldwise(d: Descriptor, doc: Document, c: Converter): After {
    var fields := OwnFields(d, doc, c);
    if ThrowIndex(doc, c) < OwnKeyCount then After(fields, Escaped)
    else
      var r := DecodeStore(doc, c, d.configuration);
      After(fields.(configuration := r.store), Returned(r.status))
  }

  /** One own key read in turn: `Reset` is still running after it exactly when
      no key up to it is unreadable, and it sets its field from the token
      `FieldToken` names. */
  lemma Advance(k: OwnKey, doc: Document, c: Converter, p: Progress)
    requires p.Running? <==> Rank(k) <= ThrowIndex(doc, c)
    ensures ReadKey(k, doc, c, p).Running? <==> Rank(k) < ThrowIndex(doc, c)
    ensures FieldToken(doc, c, k) == if p.Running? then Token(doc, c, k) else None
    ensures ReadKey(k, doc, c, p).fields == Assign(k, FieldToken(doc, c, k), p.fields)
  {
  }

  /** The identity strings: each is copied when its key is reached and readable. */
  lemma ReadIdentityMeaning(d: Descriptor, doc: Document, c: Converter)
    ensures ReadIdentity(doc, c, Running(d)).Running? <==> 3 <= ThrowIndex(doc, c)
    ensures ReadIdentity(doc, c, Running(d)).fields == d.(
      name := Choose(FieldToken(doc, c, NameKey), d.name),
      fullname := Choose(FieldToken(doc, c, FullnameKey), d.fullname),
      version := Choose(FieldToken(doc, c, VersionKey), d.version))
  {
    var p0 := Running(d);
    var p1 := ReadKey(NameKey, doc, c, p0);
    Advance(NameKey, doc, c, p0);
    var p2 := ReadKey(FullnameKey, doc, c, p1);
    Advance(FullnameKey, doc, c, p1);
    Advance(VersionKey, doc, c, p2);
  }

  /** The selectors: each is set when its key is reached and names a value of
      its table. */
  lemma ReadSelectorsMeaning(p: Progress, doc: Document, c: Converter)
    requires p.Running? <==> 3 <= ThrowIndex(doc, c)
    ensures ReadSelectors(doc, c, p).Running? <==> ThrowIndex(doc, c) == OwnKeyCount
    ensures var d := p.fields;
      var device := DeviceFor(FieldToken(doc, c, InferDeviceKey));
      var backend := BackendFor(FieldToken(doc, c, InferBackendKey));
      ReadSelectors(doc, c, p).fields == d.(
        modelType := Choose(EngineTypeFor(FieldToken(doc, c, ModelTypeKey)), d.modelType),
        loadFilePath := if EngineTypeFor(FieldToken(doc, c, ModelTypeKey)) == Some(InferCoreML) then 1 else d.loadFilePath,
        inferEngine := Choose(EngineTypeFor(FieldToken(doc, c, InferEngineKey)), d.inferEngine),
        inferDevice := if device.Some? then InferEngineCode(device.value) else d.inferDevice,
        inferBackend := if backend.Some? then InferBackendCode(backend.value) else d.inferBackend)
  {
    var p1 := ReadKey(ModelTypeKey, doc, c, p);
    Advance(ModelTypeKey, doc, c, p);
    var p2 := ReadKey(InferEngineKey, doc, c, p1);
    Advance(InferEngineKey, doc, c, p1);
    var p3 := ReadKey(InferDeviceKey, doc, c, p2);
    Advance(InferDeviceKey, doc, c, p2);
    Advance(InferBackendKey, doc, c, p3);
  }

  /** Reading the own keys throws exactly when one of them is unreadable, and
      sets the fields `OwnFields` describes. */
  lemma ReadKeysMeaning(d: Descriptor, doc: Document, c: Converter)
    ensures ReadKeys(doc, c, Running(d.(buffer := null, bufferSize := 0))).Running? <==> ThrowIndex(doc, c) == OwnKeyCount
    ensures ReadKeys(doc, c, Running(d.(buffer := null, bufferSize := 0))).fields == OwnFields(d, doc, c)
  {
    var d0 := d.(buffer := null, bufferSize := 0);
    ReadIdentityMeaning(d0, doc, c);
    ReadSelectorsMeaning(ReadIdentity(doc, c, Running(d0)), doc, c);
  }

  /** The two descriptions of `Reset` agree. */
  lemma ResetIsFieldwise(d: Descriptor, doc: Document, c: Converter)
    ensures ResetSpec(d, doc, c) == ResetFieldwise(d, doc, c)
  {
    ReadKeysMeaning(d, doc, c);
  }

  /** One key handled: `ok` is false when its conversion threw, and the store
      changed only by the key's write, if any. */
  ghost predicate Applied(e: Effect, key: string, before: Store, after: Store, ok: bool) {
    ok == !e.Fail? && after == if e.Write? then before[key := e.value] else before
  }

  lemma StepOk(a: AttrSpec, doc: Document, c: Converter, before: Store, after: Store, ok: bool)
    requires Applied(EffectOf(a, doc, c), a.key, before, after, ok)
    ensures Step(a, doc, c, Decoded(before, 0)) == Decoded(after, if ok then 0 else -1)
  {
  }

  class InspireModel {
    var name: string
    var fullname: string
    var version: string
    var modelType: EngineType
    var inferEngine: EngineType
    var inferDevice: int32
    var inferBackend: int32
    var loadFilePath: int32
    var buffer: array?<char>
    var bufferSize: uint64
    /** The attribute store behind `setData` and `Config()`. */
    var configuration: Store

    ghost function State(): Descriptor
      reads this
    {
      Descriptor(name, fullname, version, modelType, inferEngine, inferDevice, inferBackend,
                 loadFilePath, buffer, bufferSize, configuration)
    }

    /** An empty descriptor: the strings are empty, `loadFilePath` is 0, the
        store is empty and the other fields hold arbitrary values. */
    constructor ()
      ensures name == "" && fullname == "" && version == ""
      ensures loadFilePath == 0 && configuration == map[]
    {
      name, fullname, version := "", "", "";
      modelType, inferEngine := *, *;
      inferDevice, inferBackend := *, *;
      loadFilePath := 0;
      buffer, bufferSize := *, *;
      configuration := map[];
    }

    /** A descriptor built from an empty one by `Reset(doc)`. */
    constructor FromNode(doc: Document, c: Converter)
      ensures exists d: Descriptor ::
        d.name == "" && d.fullname == "" && d.version == "" && d.loadFilePath == 0 &&
        d.configuration == map[] && State() == ResetSpec(d, doc, c).state
    {
      name, fullname, version := "", "", "";
      modelType, inferEngine := *, *;
      inferDevice, inferBackend := *, *;
      loadFilePath := 0;
      buffer, bufferSize := *, *;
      configuration := map[];
      new;
      ghost var d := State();
      var outcome := Reset(doc, c);
      assert State() == ResetSpec(d, doc, c).state;
    }

    method Reset(doc: Document, c: Converter) returns (outcome: Outcome)
      modifies this
      ensures buffer == null && bufferSize == 0
      ensures State() == ResetSpec(old(State()), doc, c).state
      ensures outcome == ResetSpec(old(State()), doc, c).outcome
    {
      buffer := null;
      bufferSize := 0;
      var ok := ReadOwnKeys(doc, c);
      if !ok { return Escaped; }
      var status := Decode(doc, c);
      outcome := Returned(status);
    }

    /** The descriptor's own keys, one after another, until one throws. */
    method ReadOwnKeys(doc: Document, c: Converter) returns (ok: bool)
      modifies this`name, this`fullname, this`version, this`modelType, this`loadFilePath,
        this`inferEngine, this`inferDevice, this`inferBackend
      ensures ReadKeys(doc, c, Running(old(State()))) == if ok then Running(State()) else Threw(State())
    {
      ok := ReadName(doc, c);
      if !ok { return; }
      ok := ReadFullname(doc, c);
      if !ok { return; }
      ok := ReadVersion(doc, c);
      if !ok { return; }
      ok := ReadModelType(doc, c);
      if !ok { return; }
      ok := ReadInferEngine(doc, c);
      if !ok { return; }
      ok := ReadInferDevice(doc, c);
      if !ok { return; }
      ok := ReadInferBackend(doc, c);
      if !ok { return; }
    }

    /** `name`, `fullname` and `version` are copied as they are. */
    method ReadName(doc: Document, c: Converter) returns (ok: bool)
      modifies this`name
      ensures ReadKey(NameKey, doc, c, Running(old(State()))) == if ok then Running(State()) else Threw(State())
    {
      ok := true;
      if "name" in doc {
        var v := c.asString(doc["name"]);
        if v.None? { return false; }
        name := v.value;
      }
    }

    method ReadFullname(doc: Document, c: Converter) returns (ok: bool)
      modifies this`fullname
      ensures ReadKey(FullnameKey, doc, c, Running(old(State()))) == if ok then Running(State()) else Threw(State())
    {
      ok := true;
      if "fullname" in doc {
        var v := c.asString(doc["fullname"]);
        if v.None? { return false; }
        fullname := v.value;
      }
    }

    method ReadVersion(doc: Document, c: Converter) returns (ok: bool)
      modifies this`version
      ensures ReadKey(VersionKey, doc, c, Running(old(State()))) == if ok then Running(State()) else Threw(State())
    {
      ok := true;
      if "version" in doc {
        var v := c.asString(doc["version"]);
        if v.None? { return false; }
        version := v.value;
      }
    }

    /** `model_type`: a token of the engine table sets the type; COREML also
        marks the model as loaded from a file path. */
    method ReadModelType(doc: Document, c: Converter) returns (ok: bool)
      modifies this`modelType, this`loadFilePath
      ensures ReadKey(ModelTypeKey, doc, c, Running(old(State()))) == if ok then Running(State()) else Threw(State())
    {
      ok := true;
      if "model_type" in doc {
        var t := c.asString(doc["model_type"]);
        if t.None? { return false; }
        if t.value == "MNN" {
          modelType := InferMNN;
        } else if t.value == "RKNN" {
          modelType := InferRKNN;
        } else if t.value == "COREML" {
          modelType := InferCoreML;
          // CoreML models are loaded from a path, not from the buffer
          loadFilePath := 1;
        } else if t.value == "TensorRT" {
          modelType := InferTensorRT;
        }
      }
    }

    /** `infer_engine`: the same table as `model_type`. */
    method ReadInferEngine(doc: Document, c: Converter) returns (ok: bool)
      modifies this`inferEngine
      ensures ReadKey(InferEngineKey, doc, c, Running(old(State()))) == if ok then Running(State()) else Threw(State())
    {
      ok := true;
      if "infer_engine" in doc {
        var t := c.asString(doc["infer_engine"]);
        if t.None? { return false; }
        if t.value == "MNN" {
          inferEngine := InferMNN;
        } else if t.value == "RKNN" {
          inferEngine := InferRKNN;
        } else if t.value == "COREML" {
          inferEngine := InferCoreML;
        } else if t.value == "TensorRT" {
          inferEngine := InferTensorRT;
        }
      }
    }

    /** `infer_device`: the device table, stored as an engine code. */
    method ReadInferDevice(doc: Document, c: Converter) returns (ok: bool)
      modifies this`inferDevice
      ensures ReadKey(InferDeviceKey, doc, c, Running(old(State()))) == if ok then Running(State()) else Threw(State())
    {
      ok := true;
      if "infer_device" in doc {
        var t := c.asString(doc["infer_device"]);
        if t.None? { return false; }
        if t.value == "MNN" {
          inferDevice := InferEngineCode(InspireInferEngineMNN);
        } else if t.value == "RKNPU" {
          inferDevice := InferEngineCode(InspireInferEngineRKNN);
        } else if t.value == "COREML" {
          inferDevice := InferEngineCode(InspireInferEngineCoreML);
        } else if t.value == "CUDA" {
          inferDevice := InferEngineCode(InspireInferEngineTensorRT);
        }
      }
    }

    /** `infer_backend`: the backend table, stored as a backend code. */
    method ReadInferBackend(doc: Document, c: Converter) returns (ok: bool)
      modifies this`inferBackend
      ensures ReadKey(InferBackendKey, doc, c, Running(old(State()))) == if ok then Running(State()) else Threw(State())
    {
      ok := true;
      if "infer_backend" in doc {
        var t := c.asString(doc["infer_backend"]);
        if t.None? { return false; }
        if t.value == "CPU" {
          inferBackend := InferBackendCode(InspireInferBackendCPU);
        } else if t.value == "RKNPU" {
          inferBackend := InferBackendCode(InspireInferBackendRKNPU);
        } else if t.value == "AUTO" {
          inferBackend := InferBackendCode(InspireInferBackendAuto);
        } else if t.value == "CUDA" {
          inferBackend := InferBackendCode(InspireInferBackendCUDA);
        }
      }
    }

    /** Attaches a view of the model bytes, null for an empty vector; the size
        is not checked. */
    method SetBuffer(modelBuffer: array?<char>, size: uint64)
      modifies this`buffer, this`bufferSize
      ensures State() == old(State()).(buffer := modelBuffer, bufferSize := size)
    {
      buffer := modelBuffer;
      bufferSize := size;
    }

    /** `decode`: each attribute key in turn, in the order of `AttrTable`; a
        conversion that throws ends it with -1, keeping what was already
        written. */
    method Decode(doc: Document, c: Converter) returns (status: int32)
      modifies this`configuration
      ensures Decoded(configuration, status) == DecodeStore(doc, c, old(configuration))
    {
      var ok: bool;
      ghost var before: Store;
      DecodeStepsAreFold(doc, c, configuration);
      before := configuration;
      ok := DecodeInt(InputChannel, doc, c);
      StepOk(InputChannel, doc, c, before, configuration, ok);
      if !ok { return -1; }
      before := configuration;
      ok := DecodeInt(InputImageChannel, doc, c);
      StepOk(InputImageChannel, doc, c, before, configuration, ok);
      if !ok { return -1; }
      before := configuration;
      ok := DecodeBool(Nchw, doc, c);
      StepOk(Nchw, doc, c, before, configuration, ok);
      if !ok { return -1; }
      before := configuration;
      ok := DecodeBool(SwapColor, doc, c);
      StepOk(SwapColor, doc, c, before, configuration, ok);
      if !ok { return -1; }
      before := configuration;
      ok := DecodeDataType(DataTypeAttr, doc, c);
      StepOk(DataTypeAttr, doc, c, before, configuration, ok);
      if !ok { return -1; }
      before := configuration;
      ok := DecodeTensorType(InputTensorType, doc, c);
      StepOk(InputTensorType, doc, c, before, configuration, ok);
      if !ok { return -1; }
      before := configuration;
      ok := DecodeTensorType(OutputTensorType, doc, c);
      StepOk(OutputTensorType, doc, c, before, configuration, ok);
      if !ok { return -1; }
      before := configuration;
      ok := DecodeInt(Threads, doc, c);
      StepOk(Threads, doc, c, before, configuration, ok);
      if !ok { return -1; }
      before := configuration;
      ok := DecodeString(InputLayer, doc, c);
      StepOk(InputLayer, doc, c, before, configuration, ok);
      if !ok { return -1; }
      before := configuration;
      ok := DecodeStrings(OutputsLayers, doc, c);
      StepOk(OutputsLayers, doc, c, before, configuration, ok);
      if !ok { return -1; }
      before := configuration;
      ok := DecodeInts(InputSize, doc, c);
      StepOk(InputSize, doc, c, before, configuration, ok);
      if !ok { return -1; }
      before := configuration;
      ok := DecodeFloats(Mean, doc, c);
      StepOk(Mean, doc, c, before, configuration, ok);
      if !ok { return -1; }
      before := configuration;
      ok := DecodeFloats(Norm, doc, c);
      StepOk(Norm, doc, c, before, configuration, ok);
      if !ok { return -1; }
      status := 0;
    }

    /** `setData<int>(key, node[key].as<int>())` when the key is present. */
    method DecodeInt(a: AttrSpec, doc: Document, c: Converter) returns (ok: bool)
      requires a.kind == IntKind
      modifies this`configuration
      ensures Applied(EffectOf(a, doc, c), a.key, old(configuration), configuration, ok)
    {
      var key := a.key;
      ok := true;
      if key in doc {
        var v := c.asInt(doc[key]);
        if v.None? { return false; }
        configuration := configuration[key := IntAttr(v.value)];
      }
    }

    /** `setData<bool>(key, node[key].as<bool>())` when the key is present. */
    method DecodeBool(a: AttrSpec, doc: Document, c: Converter) returns (ok: bool)
      requires a.kind == BoolKind
      modifies this`configuration
      ensures Applied(EffectOf(a, doc, c), a.key, old(configuration), configuration, ok)
    {
      var key := a.key;
      ok := true;
      if key in doc {
        var v := c.asBool(doc[key]);
        if v.None? { return false; }
        configuration := configuration[key := BoolAttr(v.value)];
      }
    }

    /** `setData<std::string>(key, node[key].as<std::string>())` when the key is present. */
    method DecodeString(a: AttrSpec, doc: Document, c: Converter) returns (ok: bool)
      requires a.kind == StringKind
      modifies this`configuration
      ensures Applied(EffectOf(a, doc, c), a.key, old(configuration), configuration, ok)
    {
      var key := a.key;
      ok := true;
      if key in doc {
        var v := c.asString(doc[key]);
        if v.None? { return false; }
        configuration := configuration[key := StringAttr(v.value)];
      }
    }

    /** The `data_type` table: a known token stores its code, another token
        stores nothing. */
    method DecodeDataType(a: AttrSpec, doc: Document, c: Converter) returns (ok: bool)
      requires a.kind == DataTypeKind
      modifies this`configuration
      ensures Applied(EffectOf(a, doc, c), a.key, old(configuration), configuration, ok)
    {
      var key := a.key;
      ok := true;
      if key in doc {
        var t := c.asString(doc[key]);
        if t.None? { return false; }
        if t.value == "image" {
          configuration := configuration[key := IntAttr(DataTypeCode(DataTypeImage))];
        } else if t.value == "data_nhwc" {
          configuration := configuration[key := IntAttr(DataTypeCode(DataTypeBlobNhwc))];
        } else if t.value == "data_nchw" {
          configuration := configuration[key := IntAttr(DataTypeCode(DataTypeBlobNchw))];
        }
      }
    }

    /** The tensor-type table of `input_tensor_type` and `output_tensor_type`. */
    method DecodeTensorType(a: AttrSpec, doc: Document, c: Converter) returns (ok: bool)
      requires a.kind == TensorTypeKind
      modifies this`configuration
      ensures Applied(EffectOf(a, doc, c), a.key, old(configuration), configuration, ok)
    {
      var key := a.key;
      ok := true;
      if key in doc {
        var t := c.asString(doc[key]);
        if t.None? { return false; }
        if t.value == "none" {
          configuration := configuration[key := IntAttr(TensorTypeCode(TensorTypeNone))];
        } else if t.value == "uint8" {
          configuration := configuration[key := IntAttr(TensorTypeCode(TensorTypeUint8))];
        } else if t.value == "int8" {
          configuration := configuration[key := IntAttr(TensorTypeCode(TensorTypeInt8))];
        } else if t.value == "float32" {
          configuration := configuration[key := IntAttr(TensorTypeCode(TensorTypeFp32))];
        } else if t.value == "int32" {
          configuration := configuration[key := IntAttr(TensorTypeCode(TensorTypeInt32))];
        } else if t.value == "int64" {
          configuration := configuration[key := IntAttr(TensorTypeCode(TensorTypeInt64))];
        }
      }
    }

    /** The `outputs_layers` loop: the children as strings, stored whole. */
    method DecodeStrings(a: AttrSpec, doc: Document, c: Converter) returns (ok: bool)
      requires a.kind == StringSeqKind
      modifies this`configuration
      ensures Applied(EffectOf(a, doc, c), a.key, old(configuration), configuration, ok)
    {
      var key := a.key;
      ok := true;
      if key in doc {
        var values;
        ok, values := ConvertEach(doc[key], c.asString);
        if ok {
          configuration := configuration[key := StringSeqAttr(values)];
        }
      }
    }

    /** The `input_size` loop: the children as ints, stored whole. */
    method DecodeInts(a: AttrSpec, doc: Document, c: Converter) returns (ok: bool)
      requires a.kind == IntSeqKind
      modifies this`configuration
      ensures Applied(EffectOf(a, doc, c), a.key, old(configuration), configuration, ok)
    {
      var key := a.key;
      ok := true;
      if key in doc {
        var values;
        ok, values := ConvertEach(doc[key], c.asInt);
        if ok {
          configuration := configuration[key := IntSeqAttr(values)];
        }
      }
    }

    /** The `mean` and `norm` loops: the children as floats, stored whole. */
    method DecodeFloats(a: AttrSpec, doc: Document, c: Converter) returns (ok: bool)
      requires a.kind == FloatSeqKind
      modifies this`configuration
      ensures Applied(EffectOf(a, doc, c), a.key, old(configuration), configuration, ok)
    {
      var key := a.key;
      ok := true;
      if key in doc {
        var values;
        ok, values := ConvertEach(doc[key], c.asFloat);
        if ok {
          configuration := configuration[key := FloatSeqAttr(values)];
        }
      }
    }
  }
}
