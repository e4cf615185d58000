/** The attribute half of the descriptor: the named-value store behind
    `setData`, and the `decode` step that fills it from the document, one
    well-known key at a time in a fixed order.  A conversion that throws ends
    the step with status -1; what was written before stays written. */
module AttributeDecode {
  import opened Wrappers
  import opened MachineInts
  import opened YamlNode
  import opened InferenceTypes

  /** The value types `setData` is called with. */
  datatype AttrValue =
    | IntAttr(intValue: int32)
    | BoolAttr(boolValue: bool)
    | StringAttr(text: string)
    | StringSeqAttr(strings: seq<string>)
    | IntSeqAttr(ints: seq<int32>)
    | FloatSeqAttr(floats: seq<Float>)

  /** The attribute store: `setData(key, v)` overwrites the entry for key. */
  type Store = map<string, AttrValue>

  /** How a key's node is converted: an int, bool or string; a string looked up
      in the data-type or tensor-type table; or a sequence converted element-wise. */
  datatype AttrKind =
    | IntKind | BoolKind | StringKind
    | DataTypeKind | TensorTypeKind
    | StringSeqKind | IntSeqKind | FloatSeqKind

  datatype AttrSpec = AttrSpec(key: string, kind: AttrKind)

  const InputChannel: AttrSpec := AttrSpec("input_channel", IntKind)
  const InputImageChannel: AttrSpec := AttrSpec("input_image_channel", IntKind)
  const Nchw: AttrSpec := AttrSpec("nchw", BoolKind)
  const SwapColor: AttrSpec := AttrSpec("swap_color", BoolKind)
  const DataTypeAttr: AttrSpec := AttrSpec("data_type", DataTypeKind)
  const InputTensorType: AttrSpec := AttrSpec("input_tensor_type", TensorTypeKind)
  const OutputTensorType: AttrSpec := AttrSpec("output_tensor_type", TensorTypeKind)
  const Threads: AttrSpec := AttrSpec("threads", IntKind)
  const InputLayer: AttrSpec := AttrSpec("input_layer", StringKind)
  const OutputsLayers: AttrSpec := AttrSpec("outputs_layers", StringSeqKind)
  const InputSize: AttrSpec := AttrSpec("input_size", IntSeqKind)
  const Mean: AttrSpec := AttrSpec("mean", FloatSeqKind)
  const Norm: AttrSpec := AttrSpec("norm", FloatSeqKind)

  /** The keys `decode` handles, in the order it handles them. */
  const AttrTable: seq<AttrSpec> := [
    InputChannel, InputImageChannel, Nchw, SwapColor,
    DataTypeAttr, InputTensorType, OutputTensorType,
    Threads, InputLayer,
    OutputsLayers, InputSize, Mean, Norm
  ]

  /** The positions of the first seven entries of `AttrTable`. */
  lemma TableEntriesLow()
    ensures |AttrTable| == 13
    ensures AttrTable[0] == InputChannel && AttrTable[1] == InputImageChannel
    ensures AttrTable[2] == Nchw && AttrTable[3] == SwapColor
    ensures AttrTable[4] == DataTypeAttr && AttrTable[5] == InputTensorType
    ensures AttrTable[6] == OutputTensorType
  {
  }

  /** The positions of the last six entries of `AttrTable`. */
  lemma TableEntriesHigh()
    ensures |AttrTable| == 13
    ensures AttrTable[7] == Threads
    ensures AttrTable[8] == InputLayer && AttrTable[9] == OutputsLayers
    ensures AttrTable[10] == InputSize && AttrTable[11] == Mean && AttrTable[12] == Norm
  {
  }

  /** The value type a key of this kind is stored with. */
  predicate HasKind(v: AttrValue, k: AttrKind) {
    match k
    case IntKind | DataTypeKind | TensorTypeKind => v.IntAttr?
    case BoolKind => v.BoolAttr?
    case StringKind => v.StringAttr?
    case StringSeqKind => v.StringSeqAttr?
    case IntSeqKind => v.IntSeqAttr?
    case FloatSeqKind => v.FloatSeqAttr?
  }

  /** Every table key present in the store holds a value of its declared type. */
  ghost predicate WellTyped(s: Store) {
    forall j :: 0 <= j < |AttrTable| && AttrTable[j].key in s ==> HasKind(s[AttrTable[j].key], AttrTable[j].kind)
  }

  /** What handling one key does: nothing, throw, or one `setData`. */
  datatype Effect = Keep | Fail | Write(value: AttrValue)

  function EffectOf(a: AttrSpec, doc: Document, c: Converter): (e: Effect)
    ensures a.key !in doc ==> e == Keep
    ensures e.Write? ==> HasKind(e.value, a.kind)
  {
    if a.key !in doc then Keep
    else
      var n := doc[a.key];
      match a.kind
      case IntKind =>
        (match c.asInt(n) case None => Fail case Some(v) => Write(IntAttr(v)))
      case BoolKind =>
        (match c.asBool(n) case None => Fail case Some(v) => Write(BoolAttr(v)))
      case StringKind =>
        (match c.asString(n) case None => Fail case Some(v) => Write(StringAttr(v)))
      case DataTypeKind =>
        (match c.asString(n)
         case None => Fail
         case Some(t) => match DataTypeOf(t) case None => Keep case Some(dt) => Write(IntAttr(DataTypeCode(dt))))
      case TensorTypeKind =>
        (match c.asString(n)
         case None => Fail
         case Some(t) => match TensorTypeOf(t) case None => Keep case Some(tt) => Write(IntAttr(TensorTypeCode(tt))))
      case StringSeqKind =>
        (match ConvertChildren(n, c.asString) case None => Fail case Some(s) => Write(StringSeqAttr(s)))
      case IntSeqKind =>
        (match ConvertChildren(n, c.asInt) case None => Fail case Some(s) => Write(IntSeqAttr(s)))
      case FloatSeqKind =>
        (match ConvertChildren(n, c.asFloat) case None => Fail case Some(s) => Write(FloatSeqAttr(s)))
  }

  /** The effect of every table key, in table order.  No effect depends on
      the store, only on the document. */
  function Effects(doc: Document, c: Converter): (es: seq<Effect>)
    ensures |es| == |AttrTable|
    ensures forall j :: 0 <= j < |AttrTable| ==> es[j] == EffectOf(AttrTable[j], doc, c)
  {
    seq(|AttrTable|, j requires 0 <= j < |AttrTable| => EffectOf(AttrTable[j], doc, c))
  }

  function Lookup(m: Store, key: string): Option<AttrValue> {
    if key in m then Some(m[key]) else None
  }

  /** The keys of `AttrTable`, in order. */
  function AttrKeys(): (keys: seq<string>)
    ensures |keys| == |AttrTable|
    ensures forall j :: 0 <= j < |AttrTable| ==> keys[j] == AttrTable[j].key
  {
    seq(|AttrTable|, j requires 0 <= j < |AttrTable| => AttrTable[j].key)
  }

  ghost predicate Distinct(keys: seq<string>) {
    forall i, j :: 0 <= i < j < |keys| ==> keys[i] != keys[j]
  }

  /** The store after `decode` and its return value (0 or -1). */
  datatype Decoded = Decoded(store: Store, status: int32)

  /** One key's effect on a decode in progress: nothing more happens once a
      conversion has thrown. */
  function Apply(key: string, e: Effect, r: Decoded): Decoded {
    if r.status != 0 then r
    else
      match e
      case Fail => Decoded(r.store, -1)
      case Keep => r
      case Write(v) => Decoded(r.store[key := v], 0)
  }

  function Step(a: AttrSpec, doc: Document, c: Converter, r: Decoded): Decoded {
    Apply(a.key, EffectOf(a, doc, c), r)
  }

  /** Effects applied to their keys, in order, from position i on. */
  function ApplyFrom(i: nat, keys: seq<string>, es: seq<Effect>, r: Decoded): Decoded
    requires |es| == |keys|
    decreases |keys| - i
  {
    if i >= |keys| then r else ApplyFrom(i + 1, keys, es, Apply(keys[i], es[i], r))
  }

  /** The `decode` step on a store: the effects of the keys of `AttrTable`
      applied in order, stopping at the first that throws. */
  function DecodeStore(doc: Document, c: Converter, store: Store): Decoded {
    ApplyFrom(0, AttrKeys(), Effects(doc, c), Decoded(store, 0))
  }

  /** The same, written out key by key as the source lists them. */
  ghost function DecodeSteps(doc: Document, c: Converter, store: Store): Decoded {
    var r := Decoded(store, 0);
    var r := Step(InputChannel, doc, c, r);
    var r := Step(InputImageChannel, doc, c, r);
    var r := Step(Nchw, doc, c, r);
    var r := Step(SwapColor, doc, c, r);
    var r := Step(DataTypeAttr, doc, c, r);
    var r := Step(InputTensorType, doc, c, r);
    var r := Step(OutputTensorType, doc, c, r);
    var r := Step(Threads, doc, c, r);
    var r := Step(InputLayer, doc, c, r);
    var r := Step(OutputsLayers, doc, c, r);
    var r := Step(InputSize, doc, c, r);
    var r := Step(Mean, doc, c, r);
    Step(Norm, doc, c, r)
  }

  lemma {:induction false} ApplyFromStopped(i: nat, keys: seq<string>, es: seq<Effect>, r: Decoded)
    requires |es| == |keys| && r.status != 0
    ensures ApplyFrom(i, keys, es, r) == r
    decreases |keys| - i
  {
    if i < |keys| {
      ApplyFromStopped(i + 1, keys, es, r);
    }
  }

  lemma FoldStep(j: nat, a: AttrSpec, doc: Document, c: Converter, r: Decoded)
    requires j < |AttrTable| && AttrTable[j] == a
    ensures ApplyFrom(j, AttrKeys(), Effects(doc, c), r) == ApplyFrom(j + 1, AttrKeys(), Effects(doc, c), Step(a, doc, c, r))
  {
  }

  /** Key by key, `decode` is the fold of its effects. */
  lemma DecodeStepsAreFold(doc: Document, c: Converter, store: Store)
    ensures DecodeSteps(doc, c, store) == DecodeStore(doc, c, store)
  {
    TableEntriesLow();
    TableEntriesHigh();
    var r := Decoded(store, 0);
    FoldStep(0, InputChannel, doc, c, r);
    r := Step(InputChannel, doc, c, r);
    FoldStep(1, InputImageChannel, doc, c, r);
    r := Step(InputImageChannel, doc, c, r);
    FoldStep(2, Nchw, doc, c, r);
    r := Step(Nchw, doc, c, r);
    FoldStep(3, SwapColor, doc, c, r);
    r := Step(SwapColor, doc, c, r);
    FoldStep(4, DataTypeAttr, doc, c, r);
    r := Step(DataTypeAttr, doc, c, r);
    FoldStep(5, InputTensorType, doc, c, r);
    r := Step(InputTensorType, doc, c, r);
    FoldStep(6, OutputTensorType, doc, c, r);
    r := Step(OutputTensorType, doc, c, r);
    FoldStep(7, Threads, doc, c, r);
    r := Step(Threads, doc, c, r);
    FoldStep(8, InputLayer, doc, c, r);
    r := Step(InputLayer, doc, c, r);
    FoldStep(9, OutputsLayers, doc, c, r);
    r := Step(OutputsLayers, doc, c, r);
    FoldStep(10, InputSize, doc, c, r);
    r := Step(InputSize, doc, c, r);
    FoldStep(11, Mean, doc, c, r);
    r := Step(Mean, doc, c, r);
    FoldStep(12, Norm, doc, c, r);
    r := Step(Norm, doc, c, r);
  }

  /** The position of the first effect from i on that throws, or `|es|` when
      none does. */
  function FirstFailureFrom(i: nat, es: seq<Effect>): (k: nat)
    requires i <= |es|
    ensures i <= k <= |es|
    ensures forall j :: i <= j < k ==> !es[j].Fail?
    ensures k < |es| ==> es[k].Fail?
    decreases |es| - i
  {
    if i == |es| || es[i].Fail? then i
    else FirstFailureFrom(i + 1, es)
  }

  /** The position of the first key whose conversion throws, or `|AttrTable|`. */
  function FirstFailure(doc: Document, c: Converter): nat {
    FirstFailureFrom(0, Effects(doc, c))
  }

  /** No key written at the positions lo..hi-1 is `key`. */
  ghost predicate UntouchedBy(key: string, lo: nat, hi: nat, keys: seq<string>, es: seq<Effect>)
    requires |es| == |keys|
  {
    forall j :: lo <= j < hi && j < |keys| && es[j].Write? ==> keys[j] != key
  }

  ghost predicate Untouched(key: string, lo: nat, hi: nat, doc: Document, c: Converter) {
    UntouchedBy(key, lo, hi, AttrKeys(), Effects(doc, c))
  }

  lemma AttrKeysDistinct()
    ensures Distinct(AttrKeys())
  {
  }

  lemma {:induction false} ApplyFromMeaning(i: nat, keys: seq<string>, es: seq<Effect>, store: Store)
    requires i <= |keys| == |es| && Distinct(keys)
    ensures ApplyFrom(i, keys, es, Decoded(store, 0)).status == if FirstFailureFrom(i, es) < |es| then -1 else 0
    ensures forall j :: i <= j < FirstFailureFrom(i, es) && es[j].Write? ==>
      Lookup(ApplyFrom(i, keys, es, Decoded(store, 0)).store, keys[j]) == Some(es[j].value)
    ensures forall key :: UntouchedBy(key, i, FirstFailureFrom(i, es), keys, es) ==>
      Lookup(ApplyFrom(i, keys, es, Decoded(store, 0)).store, key) == Lookup(store, key)
    decreases |keys| - i
  {
    if i < |keys| {
      var k := FirstFailureFrom(i, es);
      match es[i]
      case Fail =>
        ApplyFromStopped(i + 1, keys, es, Decoded(store, -1));
      case Keep =>
        ApplyFromMeaning(i + 1, keys, es, store);
        assert forall key :: UntouchedBy(key, i, k, keys, es) ==> UntouchedBy(key, i + 1, k, keys, es);
      case Write(v) =>
        var store1 := store[keys[i] := v];
        var r := ApplyFrom(i + 1, keys, es, Decoded(store1, 0));
        assert ApplyFrom(i, keys, es, Decoded(store, 0)) == r;
        assert k == FirstFailureFrom(i + 1, es);
        ApplyFromMeaning(i + 1, keys, es, store1);
        assert UntouchedBy(keys[i], i + 1, k, keys, es);
        assert Lookup(r.store, keys[i]) == Some(v);
        forall key | UntouchedBy(key, i, k, keys, es)
          ensures Lookup(r.store, key) == Lookup(store, key)
        {
          assert UntouchedBy(key, i + 1, k, keys, es) && key != keys[i];
        }
    }
  }

  /** `decode` returns -1 exactly when some key's conversion throws.  Every key
      handled before the first such key that has a value to write holds that
      value; every other key (later in the order, skipped, or not in the
      table) keeps its previous entry or absence. */
  lemma DecodeMeaning(doc: Document, c: Converter, store: Store)
    ensures DecodeStore(doc, c, store).status == -1 <==> exists j :: 0 <= j < |AttrTable| && EffectOf(AttrTable[j], doc, c).Fail?
    ensures DecodeStore(doc, c, store).status == 0 <==> forall j :: 0 <= j < |AttrTable| ==> !EffectOf(AttrTable[j], doc, c).Fail?
    ensures forall j :: 0 <= j < FirstFailure(doc, c) && EffectOf(AttrTable[j], doc, c).Write? ==>
      Lookup(DecodeStore(doc, c, store).store, AttrTable[j].key) == Some(EffectOf(AttrTable[j], doc, c).value)
    ensures forall key :: Untouched(key, 0, FirstFailure(doc, c), doc, c) ==>
      Lookup(DecodeStore(doc, c, store).store, key) == Lookup(store, key)
  {
    AttrKeysDistinct();
    ApplyFromMeaning(0, AttrKeys(), Effects(doc, c), store);
  }

  lemma StoresEqual(m1: Store, m2: Store)
    requires forall key :: Lookup(m1, key) == Lookup(m2, key)
    ensures m1 == m2
  {
    assert forall key :: key in m1 <==> Lookup(m1, key).Some?;
    assert m1.Keys == m2.Keys;
    assert forall key :: key in m1 ==> m1[key] == Lookup(m2, key).value;
  }

  lemma FoldIdempotent(keys: seq<string>, es: seq<Effect>, store: Store)
    requires |keys| == |es| && Distinct(keys)
    ensures var r1 := ApplyFrom(0, keys, es, Decoded(store, 0));
      ApplyFrom(0, keys, es, Decoded(r1.store, 0)) == r1
  {
    var r1 := ApplyFrom(0, keys, es, Decoded(store, 0));
    var r2 := ApplyFrom(0, keys, es, Decoded(r1.store, 0));
    var k := FirstFailureFrom(0, es);
    ApplyFromMeaning(0, keys, es, store);
    ApplyFromMeaning(0, keys, es, r1.store);
    forall key ensures Lookup(r2.store, key) == Lookup(r1.store, key) {
      if !UntouchedBy(key, 0, k, keys, es) {
        var j :| 0 <= j < k && j < |keys| && es[j].Write? && keys[j] == key;
      }
    }
    StoresEqual(r2.store, r1.store);
  }

  /** Decoding the same document again changes nothing: every write repeats
      the value already stored, and the same key throws. */
  lemma DecodeIdempotent(doc: Document, c: Converter, store: Store)
    ensures DecodeStore(doc, c, DecodeStore(doc, c, store).store) == DecodeStore(doc, c, store)
  {
    var r1 := DecodeStore(doc, c, store);
    AttrKeysDistinct();
    FoldIdempotent(AttrKeys(), Effects(doc, c), store);
  }

  /** A store whose table keys hold values of their declared types still does
      after `decode`: no key is overwritten with a value of another type. */
  lemma DecodeKeepsTypes(doc: Document, c: Converter, store: Store)
    requires WellTyped(store)
    ensures WellTyped(DecodeStore(doc, c, store).store)
  {
    var es := Effects(doc, c);
    var r := DecodeStore(doc, c, store);
    var k := FirstFailure(doc, c);
    AttrKeysDistinct();
    ApplyFromMeaning(0, AttrKeys(), es, store);
    forall j | 0 <= j < |AttrTable| && AttrTable[j].key in r.store
      ensures HasKind(r.store[AttrTable[j].key], AttrTable[j].kind)
    {
      var key := AttrTable[j].key;
      if !UntouchedBy(key, 0, k, AttrKeys(), es) {
        var j' :| 0 <= j' < k && j' < |AttrTable| && es[j'].Write? && AttrTable[j'].key == key;
        assert j' == j;
        assert Lookup(r.store, key) == Some(es[j].value);
      } else {
        assert Lookup(r.store, key) == Lookup(store, key);
      }
    }
  }

  /** A sequence key is written exactly when every child converts; the stored
      sequence then has one element per child, child i's value at position i.
      The same holds for the int and float sequence keys below. */
  lemma StringSequenceEffect(a: AttrSpec, doc: Document, c: Converter)
    requires a.key in doc && a.kind == StringSeqKind
    ensures EffectOf(a, doc, c).Fail? <==> exists i :: 0 <= i < Size(doc[a.key]) && ConvertAt(doc[a.key], i, c.asString).None?
    ensures EffectOf(a, doc, c).Write? ==>
      var s := EffectOf(a, doc, c).value.strings;
      |s| == Size(doc[a.key]) && forall i :: 0 <= i < |s| ==> s[i] == ConvertAt(doc[a.key], i, c.asString).value
  {
    ConvertPrefixMeaning(doc[a.key], Size(doc[a.key]), c.asString);
  }

  lemma IntSequenceEffect(a: AttrSpec, doc: Document, c: Converter)
    requires a.key in doc && a.kind == IntSeqKind
    ensures EffectOf(a, doc, c).Fail? <==> exists i :: 0 <= i < Size(doc[a.key]) && ConvertAt(doc[a.key], i, c.asInt).None?
    ensures EffectOf(a, doc, c).Write? ==>
      var s := EffectOf(a, doc, c).value.ints;
      |s| == Size(doc[a.key]) && forall i :: 0 <= i < |s| ==> s[i] == ConvertAt(doc[a.key], i, c.asInt).value
  {
    ConvertPrefixMeaning(doc[a.key], Size(doc[a.key]), c.asInt);
  }

  lemma FloatSequenceEffect(a: AttrSpec, doc: Document, c: Converter)
    requires a.key in doc && a.kind == FloatSeqKind
    ensures EffectOf(a, doc, c).Fail? <==> exists i :: 0 <= i < Size(doc[a.key]) && ConvertAt(doc[a.key], i, c.asFloat).None?
    ensures EffectOf(a, doc, c).Write? ==>
      var s := EffectOf(a, doc, c).value.floats;
      |s| == Size(doc[a.key]) && forall i :: 0 <= i < |s| ==> s[i] == ConvertAt(doc[a.key], i, c.asFloat).value
  {
    ConvertPrefixMeaning(doc[a.key], Size(doc[a.key]), c.asFloat);
  }

  /** `data_type`: a readable token of the table writes its code, any other
      readable token writes nothing. */
  lemma DataTypeEffect(a: AttrSpec, doc: Document, c: Converter, token: string)
    requires a.key in doc && a.kind == DataTypeKind && c.asString(doc[a.key]) == Some(token)
    ensures EffectOf(a, doc, c) == Keep <==> forall t :: DataTypeToken(t) != token
    ensures forall t :: DataTypeToken(t) == token ==> EffectOf(a, doc, c) == Write(IntAttr(DataTypeCode(t)))
  {
    DataTypeTable(token);
  }

  /** `input_tensor_type` and `output_tensor_type`, likewise. */
  lemma TensorTypeEffect(a: AttrSpec, doc: Document, c: Converter, token: string)
    requires a.key in doc && a.kind == TensorTypeKind && c.asString(doc[a.key]) == Some(token)
    ensures EffectOf(a, doc, c) == Keep <==> forall t :: TensorTypeToken(t) != token
    ensures forall t :: TensorTypeToken(t) == token ==> EffectOf(a, doc, c) == Write(IntAttr(TensorTypeCode(t)))
  {
    TensorTypeTable(token);
  }
}
