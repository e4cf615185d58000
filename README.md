# InspireModel descriptor

A model archive of InspireFace describes each bundled model with one
configuration block. `InspireModel` (in
`cpp-package/inspireface/cpp/inspireface/middleware/model_archive/inspire_model/inspire_model.h`)
turns such a block into a descriptor.

`Reset` does the following, in order:
- clears the buffer view;
- copies the identity strings `name`, `fullname` and `version`;
- maps the four selector keys through their tables: `model_type`, `infer_engine`, `infer_device` and `infer_backend`. The CoreML model type also marks the model as loaded from a file path (`loadFilePath = 1`);
- runs the private `decode`. `decode` writes thirteen typed attributes into the descriptor's attribute store, in a fixed order. It returns 0, or -1 when a conversion of the tree library throws inside it.

`SetBuffer` attaches a non-owning view of the model bytes.

The model is in Dafny. The descriptor is a class, `InspireModelArchive.InspireModel`, with the source's fields. `Reset`, `decode`, the per-key reads and `SetBuffer` are methods that assign those fields step by step, as the source does. Each method is proved against a specification function of the old state:

- `InspireModelArchive.ReadKey` and `ReadKeys` follow the source's order of own keys, one key at a time.
- `InspireModelArchive.ResetSpec` is `Reset` as a whole.
- `AttributeDecode.DecodeStore` is `decode`: a left fold of one effect per attribute key over the store.
- `YamlNode.ConvertChildren` specifies the element-wise loops that build the sequence attributes.

A second, declarative description, `InspireModelArchive.ResetFieldwise`, says field by field what `Reset` leaves. `ResetIsFieldwise` proves that the two descriptions agree. The properties in `ResetProperties` are stated on `ResetFieldwise`.

`ResetFieldwise` rests on `ThrowIndex`, the rank of the first own key whose `as<std::string>()` throws:
- keys before that rank are applied;
- the key at that rank and the keys after it are not;
- `decode` runs only when no own key throws.

The configuration block is a map from keys to nodes. A node is a scalar, a sequence or a mapping. The library's `as<T>()` conversions come in as a parameter, `Converter`, with one partial function per target type; `None` means the conversion throws. The attribute store behind `setData` is a map from key to a tagged value.

Files:
- `wrappers.dfy`: `Option`, and the machine integer types.
- `yaml_node.dfy`: nodes, documents, conversions of children, and the conversion loop.
- `inference_types.dfy`: the selector enums, their integer codes and their token tables.
- `attribute_decode.dfy`: the attribute table, and the specification and properties of `decode`.
- `inspire_model.dfy`: the descriptor class, `Reset`'s two specifications and their agreement.
- `reset_properties.dfy`: what `Reset` promises.

One might expect `loadFilePath` to follow `modelType`. In the code it starts at 0 (line 228 of `inspire_model.h`), only the COREML branch assigns it, to 1 (line 61), and nothing sets it back, so it survives a later `Reset` to another type. `ResetProperties.LoadFilePathSticky` states this, and `ResetProperties.CoreMLThenMNN` shows it on a two-step example.

## Model

| member | source | states |
|---|---|---|
| InferenceTypes.EngineTypeTable | cpp-package/inspireface/cpp/inspireface/middleware/model_archive/inspire_model/inspire_model.h:52-77 | The engine table maps exactly "MNN", "RKNN", "COREML" and "TensorRT" to their engine types, and no other string to anything. |
| InferenceTypes.DeviceTable | cpp-package/inspireface/cpp/inspireface/middleware/model_archive/inspire_model/inspire_model.h:78-89 | The device table maps exactly "MNN", "RKNPU", "COREML" and "CUDA" to the four engines, and no other string to anything. |
| InferenceTypes.BackendTable | cpp-package/inspireface/cpp/inspireface/middleware/model_archive/inspire_model/inspire_model.h:90-101 | The backend table maps exactly "CPU", "RKNPU", "AUTO" and "CUDA" to the four backends, and no other string to anything. |
| InferenceTypes.DataTypeTable | cpp-package/inspireface/cpp/inspireface/middleware/model_archive/inspire_model/inspire_model.h:133-142 | The `data_type` table maps exactly "image", "data_nhwc" and "data_nchw" to their data types. |
| InferenceTypes.TensorTypeTable | cpp-package/inspireface/cpp/inspireface/middleware/model_archive/inspire_model/inspire_model.h:143-174 | The tensor-type table maps exactly "none", "uint8", "int8", "float32", "int32" and "int64" to their tensor types. |
| InferenceTypes.CodesAreDistinct | cpp-package/inspireface/cpp/inspireface/middleware/model_archive/inspire_model/inspire_model.h:17-29 | Distinct engines, backends, data types and tensor types have distinct integer codes, so a stored code determines its value. |
| YamlNode.ConvertPrefixMeaning | cpp-package/inspireface/cpp/inspireface/middleware/model_archive/inspire_model/inspire_model.h:181-211 | Converting the first k children succeeds iff each child converts. The result then has length k and holds child i's value at position i. |
| YamlNode.ConvertEach | cpp-package/inspireface/cpp/inspireface/middleware/model_archive/inspire_model/inspire_model.h:184-186 | The push_back loop returns the vector of all children's conversions in document order, ok exactly when every child converts. Its length is `n.size()`. |
| AttributeDecode.EffectOf | cpp-package/inspireface/cpp/inspireface/middleware/model_archive/inspire_model/inspire_model.h:121-212 | An attribute key that is absent has no effect. A write always stores a value of the key's declared type. |
| AttributeDecode.AttrKeysDistinct | cpp-package/inspireface/cpp/inspireface/middleware/model_archive/inspire_model/inspire_model.h:121-211 | No two attribute keys are equal, so no write of `decode` overwrites another. |
| AttributeDecode.ApplyFromStopped | cpp-package/inspireface/cpp/inspireface/middleware/model_archive/inspire_model/inspire_model.h:213-216 | Once a conversion has thrown, the remaining keys change nothing. |
| AttributeDecode.FirstFailureFrom | cpp-package/inspireface/cpp/inspireface/middleware/model_archive/inspire_model/inspire_model.h:120-216 | The position of the first effect that throws: every earlier effect does not throw, and the one there does. |
| AttributeDecode.ApplyFromMeaning | cpp-package/inspireface/cpp/inspireface/middleware/model_archive/inspire_model/inspire_model.h:119-218 | Status -1 iff some effect from i on throws. Every write before the first throw is in the store. Every other key keeps its entry or its absence. |
| AttributeDecode.DecodeMeaning | cpp-package/inspireface/cpp/inspireface/middleware/model_archive/inspire_model/inspire_model.h:119-218 | `decode` returns -1 iff some attribute conversion throws and 0 iff none does. Keys written before the first throw hold their values, and all other keys keep their prior entries: no rollback, and nothing after the throw. |
| AttributeDecode.FoldIdempotent | cpp-package/inspireface/cpp/inspireface/middleware/model_archive/inspire_model/inspire_model.h:119-218 | With distinct keys, applying the same effects twice gives the same store and status as applying them once. |
| AttributeDecode.DecodeIdempotent | cpp-package/inspireface/cpp/inspireface/middleware/model_archive/inspire_model/inspire_model.h:119-218 | Running `decode` twice on the same document leaves the same store and status as running it once. |
| AttributeDecode.DecodeKeepsTypes | cpp-package/inspireface/cpp/inspireface/middleware/model_archive/inspire_model/inspire_model.h:121-211 | If every table key in the store holds a value of its declared type, this still holds after `decode`. |
| AttributeDecode.StringSequenceEffect | cpp-package/inspireface/cpp/inspireface/middleware/model_archive/inspire_model/inspire_model.h:181-188 | `outputs_layers` throws iff some child fails to convert. Otherwise it writes a sequence of `n.size()` strings whose element i is child i's; `DecodeMeaning` shows the write replaces any earlier value. |
| AttributeDecode.IntSequenceEffect | cpp-package/inspireface/cpp/inspireface/middleware/model_archive/inspire_model/inspire_model.h:189-196 | The same for `input_size` with ints. |
| AttributeDecode.FloatSequenceEffect | cpp-package/inspireface/cpp/inspireface/middleware/model_archive/inspire_model/inspire_model.h:197-212 | The same for `mean` and `norm` with floats. |
| AttributeDecode.DataTypeEffect | cpp-package/inspireface/cpp/inspireface/middleware/model_archive/inspire_model/inspire_model.h:133-142 | A readable `data_type` token stores the code of its data type when it is in the table, and writes nothing otherwise. |
| AttributeDecode.TensorTypeEffect | cpp-package/inspireface/cpp/inspireface/middleware/model_archive/inspire_model/inspire_model.h:143-174 | The same for the tensor-type keys and their table. |
| InspireModelArchive.ThrowIndex | cpp-package/inspireface/cpp/inspireface/middleware/model_archive/inspire_model/inspire_model.h:43-101 | The rank at which `Reset` throws: no own key before it is unreadable, and the key at it is. |
| InspireModelArchive.Advance | cpp-package/inspireface/cpp/inspireface/middleware/model_archive/inspire_model/inspire_model.h:43-101 | Reading one more own key keeps `Reset` running iff no key up to it is unreadable. It sets that key's field from the token the key is reached with. |
| InspireModelArchive.ReadIdentityMeaning | cpp-package/inspireface/cpp/inspireface/middleware/model_archive/inspire_model/inspire_model.h:43-51 | `name`, `fullname` and `version` become their token when reached and readable, and otherwise keep their prior value. |
| InspireModelArchive.ReadSelectorsMeaning | cpp-package/inspireface/cpp/inspireface/middleware/model_archive/inspire_model/inspire_model.h:52-101 | Each selector becomes its table's value for the token when reached, and otherwise keeps its prior value. Only COREML sets `loadFilePath`. |
| InspireModelArchive.ReadKeysMeaning | cpp-package/inspireface/cpp/inspireface/middleware/model_archive/inspire_model/inspire_model.h:40-101 | Reading the own keys throws iff one of them is unreadable, and yields the fields `OwnFields` describes. |
| InspireModelArchive.ResetIsFieldwise | cpp-package/inspireface/cpp/inspireface/middleware/model_archive/inspire_model/inspire_model.h:40-103 | The step-by-step and the field-by-field descriptions of `Reset` agree on every input. |
| InspireModelArchive.InspireModel.constructor | cpp-package/inspireface/cpp/inspireface/middleware/model_archive/inspire_model/inspire_model.h:38 | The default descriptor has empty strings, `loadFilePath` 0 and an empty store. |
| InspireModelArchive.InspireModel.FromNode | cpp-package/inspireface/cpp/inspireface/middleware/model_archive/inspire_model/inspire_model.h:34-36 | Constructing from a block is a default descriptor followed by `Reset`. |
| InspireModelArchive.InspireModel.Reset | cpp-package/inspireface/cpp/inspireface/middleware/model_archive/inspire_model/inspire_model.h:40-103 | The new state and outcome are `ResetSpec` of the old state. The buffer view is cleared. |
| InspireModelArchive.InspireModel.ReadOwnKeys | cpp-package/inspireface/cpp/inspireface/middleware/model_archive/inspire_model/inspire_model.h:43-101 | The seven own keys, in source order, stopping at the first that throws: the new fields are `ReadKeys` of the old. |
| InspireModelArchive.InspireModel.ReadName | cpp-package/inspireface/cpp/inspireface/middleware/model_archive/inspire_model/inspire_model.h:43-45 | `name` is its token when the key is present. It throws when the token is unreadable. |
| InspireModelArchive.InspireModel.ReadFullname | cpp-package/inspireface/cpp/inspireface/middleware/model_archive/inspire_model/inspire_model.h:46-48 | The same for `fullname`. |
| InspireModelArchive.InspireModel.ReadVersion | cpp-package/inspireface/cpp/inspireface/middleware/model_archive/inspire_model/inspire_model.h:49-51 | The same for `version`. |
| InspireModelArchive.InspireModel.ReadModelType | cpp-package/inspireface/cpp/inspireface/middleware/model_archive/inspire_model/inspire_model.h:52-65 | `modelType` is set from the engine table, and COREML also sets `loadFilePath` to 1. It throws when the token is unreadable. |
| InspireModelArchive.InspireModel.ReadInferEngine | cpp-package/inspireface/cpp/inspireface/middleware/model_archive/inspire_model/inspire_model.h:66-77 | `inferEngine` is set from the engine table. It throws when the token is unreadable. |
| InspireModelArchive.InspireModel.ReadInferDevice | cpp-package/inspireface/cpp/inspireface/middleware/model_archive/inspire_model/inspire_model.h:78-89 | `inferDevice` is set to the code the device table gives. It throws when the token is unreadable. |
| InspireModelArchive.InspireModel.ReadInferBackend | cpp-package/inspireface/cpp/inspireface/middleware/model_archive/inspire_model/inspire_model.h:90-101 | `inferBackend` is set to the code the backend table gives. It throws when the token is unreadable. |
| InspireModelArchive.InspireModel.SetBuffer | cpp-package/inspireface/cpp/inspireface/middleware/model_archive/inspire_model/inspire_model.h:109-112 | Sets exactly `buffer` and `bufferSize` (unchecked) and nothing else; the view may be null, as `data()` of an empty vector may be. |
| InspireModelArchive.InspireModel.Decode | cpp-package/inspireface/cpp/inspireface/middleware/model_archive/inspire_model/inspire_model.h:119-218 | The new store and the status are `DecodeStore` of the old store. |
| InspireModelArchive.InspireModel.DecodeInt | cpp-package/inspireface/cpp/inspireface/middleware/model_archive/inspire_model/inspire_model.h:121-126 | An int key is written when present and converted, and throws when the conversion throws. |
| InspireModelArchive.InspireModel.DecodeBool | cpp-package/inspireface/cpp/inspireface/middleware/model_archive/inspire_model/inspire_model.h:127-132 | The same for the bool keys. |
| InspireModelArchive.InspireModel.DecodeString | cpp-package/inspireface/cpp/inspireface/middleware/model_archive/inspire_model/inspire_model.h:178-180 | The same for `input_layer`. |
| InspireModelArchive.InspireModel.DecodeDataType | cpp-package/inspireface/cpp/inspireface/middleware/model_archive/inspire_model/inspire_model.h:133-142 | `data_type` stores its table code, or nothing for another token. |
| InspireModelArchive.InspireModel.DecodeTensorType | cpp-package/inspireface/cpp/inspireface/middleware/model_archive/inspire_model/inspire_model.h:143-174 | The tensor-type keys store their table code, or nothing for another token. |
| InspireModelArchive.InspireModel.DecodeStrings | cpp-package/inspireface/cpp/inspireface/middleware/model_archive/inspire_model/inspire_model.h:181-188 | `outputs_layers` stores the converted children whole, or throws. |
| InspireModelArchive.InspireModel.DecodeInts | cpp-package/inspireface/cpp/inspireface/middleware/model_archive/inspire_model/inspire_model.h:189-196 | `input_size` stores the converted children whole, or throws. |
| InspireModelArchive.InspireModel.DecodeFloats | cpp-package/inspireface/cpp/inspireface/middleware/model_archive/inspire_model/inspire_model.h:197-212 | `mean` and `norm` store the converted children whole, or throw. |
| ResetProperties.ReturnedFields | cpp-package/inspireface/cpp/inspireface/middleware/model_archive/inspire_model/inspire_model.h:40-103 | `Reset` returns iff no own key throws. Its fields are those `OwnFields` reads. An escape leaves the store untouched. |
| ResetProperties.ReachedField | cpp-package/inspireface/cpp/inspireface/middleware/model_archive/inspire_model/inspire_model.h:43-101 | A key `Reset` gets past sets its fields from its token. The fields of the other keys keep their prior values. |
| ResetProperties.ThrowsIff | cpp-package/inspireface/cpp/inspireface/middleware/model_archive/inspire_model/inspire_model.h:43-101 | `Reset` throws iff some own key is present but its string conversion throws. |
| ResetProperties.AssignKnown | cpp-package/inspireface/cpp/inspireface/middleware/model_archive/inspire_model/inspire_model.h:43-101 | A token in its key's table sets the field it names. |
| ResetProperties.AssignUnknown | cpp-package/inspireface/cpp/inspireface/middleware/model_archive/inspire_model/inspire_model.h:52-101 | A token outside its key's table changes nothing. |
| ResetProperties.ResetClearsBuffer | cpp-package/inspireface/cpp/inspireface/middleware/model_archive/inspire_model/inspire_model.h:40-42 | `Reset` leaves a null buffer of size 0, and nothing it computes depends on what `SetBuffer` attached before. |
| ResetProperties.AbsentKeyKeepsField | cpp-package/inspireface/cpp/inspireface/middleware/model_archive/inspire_model/inspire_model.h:43-101 | An absent own key leaves its field or fields as they were. |
| ResetProperties.UnknownTokenKeepsField | cpp-package/inspireface/cpp/inspireface/middleware/model_archive/inspire_model/inspire_model.h:52-101 | A selector token outside its table leaves its field as it was. |
| ResetProperties.KnownTokenSetsField | cpp-package/inspireface/cpp/inspireface/middleware/model_archive/inspire_model/inspire_model.h:43-101 | A token in its table sets its field once `Reset` gets past the key. This holds in particular whenever `Reset` returns. |
| ResetProperties.EscapeKeepsLaterFields | cpp-package/inspireface/cpp/inspireface/middleware/model_archive/inspire_model/inspire_model.h:43-103 | When `Reset` throws at or before an own key, that key's fields and the store keep their prior values. |
| ResetProperties.ModelTypeAssign | cpp-package/inspireface/cpp/inspireface/middleware/model_archive/inspire_model/inspire_model.h:52-65 | What each `model_type` token does to `modelType` and `loadFilePath`. |
| ResetProperties.ModelTypeTokens | cpp-package/inspireface/cpp/inspireface/middleware/model_archive/inspire_model/inspire_model.h:52-65 | After a returning `Reset`, the tokens MNN, RKNN, COREML and TensorRT give their engine types. Only COREML changes `loadFilePath`, to 1. |
| ResetProperties.DeviceAssign | cpp-package/inspireface/cpp/inspireface/middleware/model_archive/inspire_model/inspire_model.h:78-89 | The device codes each `infer_device` token assigns. |
| ResetProperties.DeviceCodes | cpp-package/inspireface/cpp/inspireface/middleware/model_archive/inspire_model/inspire_model.h:24-29 | After a returning `Reset`, `infer_device` MNN, RKNPU, COREML and CUDA store 0, 1, 2 and 3. |
| ResetProperties.BackendAssign | cpp-package/inspireface/cpp/inspireface/middleware/model_archive/inspire_model/inspire_model.h:90-101 | The backend codes each `infer_backend` token assigns. |
| ResetProperties.BackendCodes | cpp-package/inspireface/cpp/inspireface/middleware/model_archive/inspire_model/inspire_model.h:17-22 | After a returning `Reset`, `infer_backend` CPU, RKNPU, AUTO and CUDA store 0, 1, 10 and 2. |
| ResetProperties.LoadFilePathAssign | cpp-package/inspireface/cpp/inspireface/middleware/model_archive/inspire_model/inspire_model.h:58-61 | The model-type step sets `loadFilePath` to 1 on COREML and keeps it on every other token. |
| ResetProperties.LoadFilePathSticky | cpp-package/inspireface/cpp/inspireface/middleware/model_archive/inspire_model/inspire_model.h:58-61 | After `Reset`, `loadFilePath` is 1 iff it was 1 before or a COREML `model_type` was reached. It is never reset to 0. |
| ResetProperties.ModelTypeOnly | cpp-package/inspireface/cpp/inspireface/middleware/model_archive/inspire_model/inspire_model.h:43-101 | A block with a readable `model_type` alone throws at no own key. |
| ResetProperties.CoreMLThenMNN | cpp-package/inspireface/cpp/inspireface/middleware/model_archive/inspire_model/inspire_model.h:52-65 | Resetting from a COREML block and then from an MNN block gives an MNN model whose `loadFilePath` is still 1. |
| ResetProperties.ResetStatus | cpp-package/inspireface/cpp/inspireface/middleware/model_archive/inspire_model/inspire_model.h:40-103 | `Reset` escapes iff an own key is unreadable. It returns -1 iff none is and some attribute conversion throws, and 0 iff no conversion throws at all. When it returns, the store is `decode`'s, with no rollback. |
| ResetProperties.OwnFieldsIdempotent | cpp-package/inspireface/cpp/inspireface/middleware/model_archive/inspire_model/inspire_model.h:43-101 | Reading the own keys a second time from the same block changes no field. |
| ResetProperties.ResetIdempotent | cpp-package/inspireface/cpp/inspireface/middleware/model_archive/inspire_model/inspire_model.h:40-218 | Resetting twice from the same block gives the same state and outcome as resetting once. |
| ResetProperties.NoOwnKeys | cpp-package/inspireface/cpp/inspireface/middleware/model_archive/inspire_model/inspire_model.h:43-101 | Without any own key nothing throws and no own field changes. |
| ResetProperties.NothingRecognised | cpp-package/inspireface/cpp/inspireface/middleware/model_archive/inspire_model/inspire_model.h:40-218 | A block with none of the keys `Reset` knows only clears the buffer view, and `Reset` returns 0. |

## Left out

- Parsing, and the tree library's own semantics: the block is given as a map from keys to nodes, and the library's `as<T>()` conversions are a parameter that may throw (`Converter`). Undefined nodes other than missing keys are not modelled.
- Positional access `n[i]` on a mapping node is approximated by the entry whose key is the decimal text of i. The library's exact rule for this case is not part of this model.
- `Configurable` and the `CONFIGURABLE_SUPPORT` macro are external. The attribute store is a map from keys to tagged values that `setData` overwrites. `Config()` only returns that store and has no member of its own.
- `print()` and the `INSPIRE_LOGD`/`INSPIRE_LOGE` logging calls only write to the log.
- `InspireModelArchive.InspireModel.FromNode`: the constructor's exception, when `Reset` throws, is not propagated. The model keeps the state `Reset` had reached, which is its state at the throw.
- `InferenceWrapper::EngineType` is defined in a file that is not part of this model. It is an abstract four-valued type, and its integer values are not modelled. `inferEngine`, an `int` in the source, is held as this `EngineType`, so its uninitialised prior value is one of the four engine types rather than any `int`.
- The data-type and tensor-type constants of `InputTensorInfo` are defined in a file that is not part of this model. They are given their declaration-order values 0, 1, 2, …. Only their distinctness is used.
- Float elements of `mean` and `norm` are opaque 32-bit patterns, since no arithmetic is done on them.
- `buffer` is a nullable reference to a `char` array, so the ownership and lifetime of the vector behind `data()` are not modelled. So is aliasing between descriptors.
- The uninitialised fields of the default constructor are arbitrary values. Properties speak of the prior value.
- `Reset`'s reading of its own keys is split into one method per key, and `ReadOwnKeys` calls them in source order. The source's single function body becomes a sequence of calls with the same order and the same early exit on a throw.
