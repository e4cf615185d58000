/** What `Reset` promises about the descriptor, stated on its field-by-field
    specification `ResetFieldwise` (equal to the `ResetSpec` that
    `InspireModel.Reset` is proved to implement). */
module ResetProperties {
  import opened Wrappers
  import opened MachineInts
  import opened YamlNode
  import opened InferenceTypes
  import opened AttributeDecode
  import opened InspireModelArchive

  /** The field or fields an own key sets agree in the two descriptors. */
  predicate Unchanged(k: OwnKey, before: Descriptor, after: Descriptor) {
    match k
    case NameKey => after.name == before.name
    case FullnameKey => after.fullname == before.fullname
    case VersionKey => after.version == before.version
    case ModelTypeKey => after.modelType == before.modelType && after.loadFilePath == before.loadFilePath
    case InferEngineKey => after.inferEngine == before.inferEngine
    case InferDeviceKey => after.inferDevice == before.inferDevice
    case InferBackendKey => after.inferBackend == before.inferBackend
  }

  /** The token is one of the key's table; an identity key takes any string. */
  predicate Known(k: OwnKey, t: string) {
    match k
    case ModelTypeKey => EngineTypeOf(t).Some?
    case InferEngineKey => EngineTypeOf(t).Some?
    case InferDeviceKey => DeviceOf(t).Some?
    case InferBackendKey => BackendOf(t).Some?
    case _ => true
  }

  /** The key's field holds what the token sets it to. */
  predicate SetFrom(k: OwnKey, t: string, s: Descriptor) {
    match k
    case NameKey => s.name == t
    case FullnameKey => s.fullname == t
    case VersionKey => s.version == t
    case ModelTypeKey => EngineTypeOf(t) == Some(s.modelType)
    case InferEngineKey => EngineTypeOf(t) == Some(s.inferEngine)
    case InferDeviceKey => DeviceOf(t).Some? && s.inferDevice == InferEngineCode(DeviceOf(t).value)
    case InferBackendKey => BackendOf(t).Some? && s.inferBackend == InferBackendCode(BackendOf(t).value)
  }

  /** How `Reset` ends is decided by `ThrowIndex` alone; whichever way it
      ends, its fields other than the store are the ones `OwnFields` reads. */
  lemma ReturnedFields(d: Descriptor, doc: Document, c: Converter)
    ensures ResetFieldwise(d, doc, c).outcome.Returned? <==> ThrowIndex(doc, c) == OwnKeyCount
    ensures ResetFieldwise(d, doc, c).state == OwnFields(d, doc, c).(configuration := ResetFieldwise(d, doc, c).state.configuration)
    ensures ResetFieldwise(d, doc, c).outcome == Escaped ==> ResetFieldwise(d, doc, c).state.configuration == d.configuration
  {
  }

  /** The fields of a key that `Reset` gets past are what `Assign` makes of
      its token; the fields of every other key keep their prior values. */
  lemma ReachedField(k: OwnKey, d: Descriptor, doc: Document, c: Converter)
    ensures Rank(k) < ThrowIndex(doc, c) ==>
      Unchanged(k, Assign(k, Token(doc, c, k), d), ResetFieldwise(d, doc, c).state)
    ensures ThrowIndex(doc, c) <= Rank(k) ==> Unchanged(k, d, ResetFieldwise(d, doc, c).state)
  {
    ReturnedFields(d, doc, c);
    OwnFieldOf(k, d, doc, c);
    AssignNoToken(k, d);
  }

  /** The fields of key k in `OwnFields` are those `Assign` sets from the
      token `FieldToken` gives it. */
  lemma OwnFieldOf(k: OwnKey, d: Descriptor, doc: Document, c: Converter)
    ensures Unchanged(k, Assign(k, FieldToken(doc, c, k), d), OwnFields(d, doc, c))
  {
  }

  /** `Assign` without a token changes nothing of its key. */
  lemma AssignNoToken(k: OwnKey, d: Descriptor)
    ensures Unchanged(k, d, Assign(k, None, d))
  {
  }

  /** `Assign` with a token outside the key's table changes nothing of its key. */
  lemma AssignUnknown(k: OwnKey, t: string, d: Descriptor)
    requires !Known(k, t)
    ensures Unchanged(k, d, Assign(k, Some(t), d))
  {
  }

  /** `Assign` with a known token sets the key's field from it. */
  lemma AssignKnown(k: OwnKey, t: string, d: Descriptor)
    requires Known(k, t)
    ensures SetFrom(k, t, Assign(k, Some(t), d))
  {
  }

  /** `Reset` throws exactly when one of its own keys is unreadable. */
  lemma ThrowsIff(doc: Document, c: Converter)
    ensures ThrowIndex(doc, c) < OwnKeyCount <==> exists k :: Unreadable(doc, c, k)
  {
    var t := ThrowIndex(doc, c);
    if t < OwnKeyCount {
      var k := match t
        case 0 => NameKey
        case 1 => FullnameKey
        case 2 => VersionKey
        case 3 => ModelTypeKey
        case 4 => InferEngineKey
        case 5 => InferDeviceKey
        case _ => InferBackendKey;
      assert Rank(k) == t;
    }
  }

  /** `Reset` always leaves an empty buffer view, and what `SetBuffer` attached
      before makes no difference to anything it computes. */
  lemma ResetClearsBuffer(d: Descriptor, doc: Document, c: Converter, b: array?<char>, n: uint64)
    ensures ResetFieldwise(d, doc, c).state.buffer == null && ResetFieldwise(d, doc, c).state.bufferSize == 0
    ensures ResetFieldwise(d.(buffer := b, bufferSize := n), doc, c) == ResetFieldwise(d, doc, c)
  {
  }

  /** An own key that is absent leaves its field as it was. */
  lemma AbsentKeyKeepsField(k: OwnKey, d: Descriptor, doc: Document, c: Converter)
    requires KeyText(k) !in doc
    ensures Unchanged(k, d, ResetFieldwise(d, doc, c).state)
  {
    ReachedField(k, d, doc, c);
    AssignNoToken(k, d);
  }

  /** A selector whose token is not in its table leaves its field as it was. */
  lemma UnknownTokenKeepsField(k: OwnKey, d: Descriptor, doc: Document, c: Converter, t: string)
    requires Token(doc, c, k) == Some(t) && !Known(k, t)
    ensures Unchanged(k, d, ResetFieldwise(d, doc, c).state)
  {
    ReachedField(k, d, doc, c);
    AssignUnknown(k, t, d);
  }

  /** Once `Reset` gets past an own key whose token is known, the key's field
      holds what the token names; when `Reset` returns, it got past them all. */
  lemma KnownTokenSetsField(k: OwnKey, d: Descriptor, doc: Document, c: Converter, t: string)
    requires Token(doc, c, k) == Some(t) && Known(k, t)
    ensures Rank(k) < ThrowIndex(doc, c) ==> SetFrom(k, t, ResetFieldwise(d, doc, c).state)
    ensures ResetFieldwise(d, doc, c).outcome.Returned? ==> SetFrom(k, t, ResetFieldwise(d, doc, c).state)
  {
    ReachedField(k, d, doc, c);
    ReturnedFields(d, doc, c);
    AssignKnown(k, t, d);
  }

  /** When a conversion of an own key throws, the fields of that key and of
      the keys after it keep their prior values, and the store is not touched. */
  lemma EscapeKeepsLaterFields(k: OwnKey, d: Descriptor, doc: Document, c: Converter)
    requires ThrowIndex(doc, c) <= Rank(k)
    ensures ResetFieldwise(d, doc, c).outcome == Escaped
    ensures Unchanged(k, d, ResetFieldwise(d, doc, c).state)
    ensures ResetFieldwise(d, doc, c).state.configuration == d.configuration
  {
    ReachedField(k, d, doc, c);
    ReturnedFields(d, doc, c);
  }

  /** What `Assign` makes of the `model_type` tokens. */
  lemma ModelTypeAssign(d: Descriptor)
    ensures var a := Assign(ModelTypeKey, Some("MNN"), d); a.modelType == InferMNN && a.loadFilePath == d.loadFilePath
    ensures var a := Assign(ModelTypeKey, Some("RKNN"), d); a.modelType == InferRKNN && a.loadFilePath == d.loadFilePath
    ensures var a := Assign(ModelTypeKey, Some("COREML"), d); a.modelType == InferCoreML && a.loadFilePath == 1
    ensures var a := Assign(ModelTypeKey, Some("TensorRT"), d); a.modelType == InferTensorRT && a.loadFilePath == d.loadFilePath
  {
  }

  /** The tokens of `model_type`; only COREML marks the model as loaded from
      a file path. */
  lemma ModelTypeTokens(d: Descriptor, doc: Document, c: Converter)
    ensures var r := ResetFieldwise(d, doc, c);
      r.outcome.Returned? && Token(doc, c, ModelTypeKey) == Some("MNN") ==>
        r.state.modelType == InferMNN && r.state.loadFilePath == d.loadFilePath
    ensures var r := ResetFieldwise(d, doc, c);
      r.outcome.Returned? && Token(doc, c, ModelTypeKey) == Some("RKNN") ==>
        r.state.modelType == InferRKNN && r.state.loadFilePath == d.loadFilePath
    ensures var r := ResetFieldwise(d, doc, c);
      r.outcome.Returned? && Token(doc, c, ModelTypeKey) == Some("COREML") ==>
        r.state.modelType == InferCoreML && r.state.loadFilePath == 1
    ensures var r := ResetFieldwise(d, doc, c);
      r.outcome.Returned? && Token(doc, c, ModelTypeKey) == Some("TensorRT") ==>
        r.state.modelType == InferTensorRT && r.state.loadFilePath == d.loadFilePath
  {
    ReturnedFields(d, doc, c);
    ReachedField(ModelTypeKey, d, doc, c);
    ModelTypeAssign(d);
  }

  /** What `Assign` makes of the `infer_device` tokens. */
  lemma DeviceAssign(d: Descriptor)
    ensures Assign(InferDeviceKey, Some("MNN"), d).inferDevice == 0
    ensures Assign(InferDeviceKey, Some("RKNPU"), d).inferDevice == 1
    ensures Assign(InferDeviceKey, Some("COREML"), d).inferDevice == 2
    ensures Assign(InferDeviceKey, Some("CUDA"), d).inferDevice == 3
  {
  }

  /** The codes `infer_device` stores: MNN 0, RKNPU 1, COREML 2, CUDA 3. */
  lemma DeviceCodes(d: Descriptor, doc: Document, c: Converter)
    ensures var r := ResetFieldwise(d, doc, c);
      r.outcome.Returned? ==>
        (Token(doc, c, InferDeviceKey) == Some("MNN") ==> r.state.inferDevice == 0) &&
        (Token(doc, c, InferDeviceKey) == Some("RKNPU") ==> r.state.inferDevice == 1) &&
        (Token(doc, c, InferDeviceKey) == Some("COREML") ==> r.state.inferDevice == 2) &&
        (Token(doc, c, InferDeviceKey) == Some("CUDA") ==> r.state.inferDevice == 3)
  {
    ReturnedFields(d, doc, c);
    ReachedField(InferDeviceKey, d, doc, c);
    DeviceAssign(d);
  }

  /** What `Assign` makes of the `infer_backend` tokens. */
  lemma BackendAssign(d: Descriptor)
    ensures Assign(InferBackendKey, Some("CPU"), d).inferBackend == 0
    ensures Assign(InferBackendKey, Some("RKNPU"), d).inferBackend == 1
    ensures Assign(InferBackendKey, Some("AUTO"), d).inferBackend == 10
    ensures Assign(InferBackendKey, Some("CUDA"), d).inferBackend == 2
  {
  }

  /** The codes `infer_backend` stores: CPU 0, RKNPU 1, AUTO 10, CUDA 2. */
  lemma BackendCodes(d: Descriptor, doc: Document, c: Converter)
    ensures var r := ResetFieldwise(d, doc, c);
      r.outcome.Returned? ==>
        (Token(doc, c, InferBackendKey) == Some("CPU") ==> r.state.inferBackend == 0) &&
        (Token(doc, c, InferBackendKey) == Some("RKNPU") ==> r.state.inferBackend == 1) &&
        (Token(doc, c, InferBackendKey) == Some("AUTO") ==> r.state.inferBackend == 10) &&
        (Token(doc, c, InferBackendKey) == Some("CUDA") ==> r.state.inferBackend == 2)
  {
    ReturnedFields(d, doc, c);
    ReachedField(InferBackendKey, d, doc, c);
    BackendAssign(d);
  }

  /** `Assign` sets `loadFilePath` to 1 on COREML and keeps it otherwise. */
  lemma LoadFilePathAssign(t: Option<string>, d: Descriptor)
    ensures Assign(ModelTypeKey, t, d).loadFilePath == if t == Some("COREML") then 1 else d.loadFilePath
  {
    if t.Some? {
      EngineTypeTable(t.value);
    }
  }

  /** `loadFilePath` is 1 after `Reset` exactly when it was 1 before or a
      COREML `model_type` was reached; nothing sets it back to 0. */
  lemma LoadFilePathSticky(d: Descriptor, doc: Document, c: Converter)
    ensures var s := ResetFieldwise(d, doc, c).state;
      s.loadFilePath == d.loadFilePath || s.loadFilePath == 1
    ensures var s := ResetFieldwise(d, doc, c).state;
      s.loadFilePath == 1 <==>
        d.loadFilePath == 1 || (Rank(ModelTypeKey) < ThrowIndex(doc, c) && Token(doc, c, ModelTypeKey) == Some("COREML"))
  {
    ReachedField(ModelTypeKey, d, doc, c);
    LoadFilePathAssign(Token(doc, c, ModelTypeKey), d);
  }

  /** A block holding a readable `model_type` alone throws nowhere. */
  lemma ModelTypeOnly(n: Node, c: Converter)
    requires c.asString(n).Some?
    ensures ThrowIndex(map["model_type" := n], c) == OwnKeyCount
    ensures Token(map["model_type" := n], c, ModelTypeKey) == c.asString(n)
  {
    var doc: Document := map["model_type" := n];
    assert forall k :: k != ModelTypeKey ==> KeyText(k) !in doc;
  }

  /** A descriptor reset from a COREML block and then from an MNN block is an
      MNN model that is still marked as loaded from a file path. */
  lemma CoreMLThenMNN(d: Descriptor, c: Converter)
    requires c.asString(Scalar("COREML")) == Some("COREML")
    requires c.asString(Scalar("MNN")) == Some("MNN")
    ensures var s1 := ResetFieldwise(d, map["model_type" := Scalar("COREML")], c).state;
      var s2 := ResetFieldwise(s1, map["model_type" := Scalar("MNN")], c).state;
      s2.modelType == InferMNN && s2.loadFilePath == 1
  {
    var doc1: Document := map["model_type" := Scalar("COREML")];
    var doc2: Document := map["model_type" := Scalar("MNN")];
    var s1 := ResetFieldwise(d, doc1, c).state;
    ModelTypeOnly(Scalar("COREML"), c);
    ModelTypeOnly(Scalar("MNN"), c);
    ReturnedFields(d, doc1, c);
    ReturnedFields(s1, doc2, c);
    ModelTypeTokens(d, doc1, c);
    ModelTypeTokens(s1, doc2, c);
  }

  /** How `Reset` ends: it escapes exactly when one of its own keys is
      unreadable; otherwise it returns `decode`'s status on the prior store,
      -1 exactly when some attribute conversion throws, and keeps the store
      `decode` left, with no rollback. */
  lemma ResetStatus(d: Descriptor, doc: Document, c: Converter)
    ensures ResetFieldwise(d, doc, c).outcome == Escaped <==> exists k :: Unreadable(doc, c, k)
    ensures ResetFieldwise(d, doc, c).outcome == Returned(-1) <==>
      (forall k :: !Unreadable(doc, c, k)) &&
      exists j :: 0 <= j < |AttrTable| && EffectOf(AttrTable[j], doc, c).Fail?
    ensures ResetFieldwise(d, doc, c).outcome == Returned(0) <==>
      (forall k :: !Unreadable(doc, c, k)) &&
      forall j :: 0 <= j < |AttrTable| ==> !EffectOf(AttrTable[j], doc, c).Fail?
    ensures ResetFieldwise(d, doc, c).outcome.Returned? ==>
      ResetFieldwise(d, doc, c).state.configuration == DecodeStore(doc, c, d.configuration).store
  {
    DecodeMeaning(doc, c, d.configuration);
    ThrowsIff(doc, c);
    ReturnedFields(d, doc, c);
  }

  /** Reading the own keys again from the same block changes no field. */
  lemma OwnFieldsIdempotent(d: Descriptor, doc: Document, c: Converter, store: Store)
    ensures OwnFields(OwnFields(d, doc, c).(configuration := store), doc, c) == OwnFields(d, doc, c).(configuration := store)
  {
  }

  /** Resetting twice from the same block is resetting once. */
  lemma ResetIdempotent(d: Descriptor, doc: Document, c: Converter)
    ensures ResetFieldwise(ResetFieldwise(d, doc, c).state, doc, c) == ResetFieldwise(d, doc, c)
  {
    var r1 := ResetFieldwise(d, doc, c);
    if ThrowIndex(doc, c) < OwnKeyCount {
      OwnFieldsIdempotent(d, doc, c, d.configuration);
    } else {
      var dec := DecodeStore(doc, c, d.configuration);
      OwnFieldsIdempotent(d, doc, c, dec.store);
      DecodeIdempotent(doc, c, d.configuration);
      assert r1.state == OwnFields(d, doc, c).(configuration := dec.store);
    }
  }

  /** Without any own key nothing throws and no own field changes. */
  lemma NoOwnKeys(d: Descriptor, doc: Document, c: Converter)
    requires forall k :: KeyText(k) !in doc
    ensures ThrowIndex(doc, c) == OwnKeyCount
    ensures OwnFields(d, doc, c) == d.(buffer := null, bufferSize := 0)
  {
  }

  /** A block with none of the keys `Reset` knows only clears the buffer view
      and reports success. */
  lemma NothingRecognised(d: Descriptor, doc: Document, c: Converter)
    requires forall k :: KeyText(k) !in doc
    requires forall j :: 0 <= j < |AttrTable| ==> AttrTable[j].key !in doc
    ensures ResetFieldwise(d, doc, c) == After(d.(buffer := null, bufferSize := 0), Returned(0))
  {
    NoOwnKeys(d, doc, c);
    ReturnedFields(d, doc, c);
    DecodeMeaning(doc, c, d.configuration);
    var r := DecodeStore(doc, c, d.configuration);
    forall key ensures Lookup(r.store, key) == Lookup(d.configuration, key) {
      assert Untouched(key, 0, FirstFailure(doc, c), doc, c);
    }
    StoresEqual(r.store, d.configuration);
  }
}
