/** The selector enumerations the descriptor fills in, and the fixed
    token tables that map document strings onto them.  An unknown token maps
    to `None`: the caller then leaves its field (or attribute) alone. */
module InferenceTypes {
  import opened Wrappers
  import opened MachineInts

  /** `InferenceWrapper::EngineType`, restricted to the four values the
      descriptor assigns; their numeric values are defined elsewhere. */
  datatype EngineType = InferMNN | InferRKNN | InferCoreML | InferTensorRT

  /** `InspireInferEngine`. */
  datatype InspireInferEngine =
    InspireInferEngineMNN | InspireInferEngineRKNN | InspireInferEngineCoreML | InspireInferEngineTensorRT

  /** `InspireInferBackend`. */
  datatype InspireInferBackend =
    InspireInferBackendAuto | InspireInferBackendCPU | InspireInferBackendRKNPU | InspireInferBackendCUDA

  /** `InputTensorInfo::DataType*`. */
  datatype DataType = DataTypeImage | DataTypeBlobNhwc | DataTypeBlobNchw

  /** `TensorInfo::TensorType*`. */
  datatype TensorType =
    TensorTypeNone | TensorTypeUint8 | TensorTypeInt8 | TensorTypeFp32 | TensorTypeInt32 | TensorTypeInt64

  /** The enumerator values of `InspireInferEngine`. */
  function InferEngineCode(e: InspireInferEngine): int32 {
    match e
    case InspireInferEngineMNN => 0
    case InspireInferEngineRKNN => 1
    case InspireInferEngineCoreML => 2
    case InspireInferEngineTensorRT => 3
  }

  /** The enumerator values of `InspireInferBackend` (`Auto` is 10). */
  function InferBackendCode(b: InspireInferBackend): int32 {
    match b
    case InspireInferBackendAuto => 10
    case InspireInferBackendCPU => 0
    case InspireInferBackendRKNPU => 1
    case InspireInferBackendCUDA => 2
  }

  /** Integer codes stored for `data_type`, taken in declaration order. */
  function DataTypeCode(t: DataType): int32 {
    match t
    case DataTypeImage => 0
    case DataTypeBlobNhwc => 1
    case DataTypeBlobNchw => 2
  }

  /** Integer codes stored for the tensor types, taken in declaration order. */
  function TensorTypeCode(t: TensorType): int32 {
    match t
    case TensorTypeNone => 0
    case TensorTypeUint8 => 1
    case TensorTypeInt8 => 2
    case TensorTypeFp32 => 3
    case TensorTypeInt32 => 4
    case TensorTypeInt64 => 5
  }

  // The document token of each value; the tables below are their inverses.

  function EngineTypeToken(e: EngineType): string {
    match e
    case InferMNN => "MNN"
    case InferRKNN => "RKNN"
    case InferCoreML => "COREML"
    case InferTensorRT => "TensorRT"
  }

  function DeviceToken(e: InspireInferEngine): string {
    match e
    case InspireInferEngineMNN => "MNN"
    case InspireInferEngineRKNN => "RKNPU"
    case InspireInferEngineCoreML => "COREML"
    case InspireInferEngineTensorRT => "CUDA"
  }

  function BackendToken(b: InspireInferBackend): string {
    match b
    case InspireInferBackendCPU => "CPU"
    case InspireInferBackendRKNPU => "RKNPU"
    case InspireInferBackendAuto => "AUTO"
    case InspireInferBackendCUDA => "CUDA"
  }

  function DataTypeToken(t: DataType): string {
    match t
    case DataTypeImage => "image"
    case DataTypeBlobNhwc => "data_nhwc"
    case DataTypeBlobNchw => "data_nchw"
  }

  function TensorTypeToken(t: TensorType): string {
    match t
    case TensorTypeNone => "none"
    case TensorTypeUint8 => "uint8"
    case TensorTypeInt8 => "int8"
    case TensorTypeFp32 => "float32"
    case TensorTypeInt32 => "int32"
    case TensorTypeInt64 => "int64"
  }

  /** The table of `model_type` and `infer_engine`. */
  function EngineTypeOf(token: string): Option<EngineType>
  {
    if token == "MNN" then Some(InferMNN)
    else if token == "RKNN" then Some(InferRKNN)
    else if token == "COREML" then Some(InferCoreML)
    else if token == "TensorRT" then Some(InferTensorRT)
    else None
  }

  /** The table of `infer_device`. */
  function DeviceOf(token: string): Option<InspireInferEngine>
  {
    if token == "MNN" then Some(InspireInferEngineMNN)
    else if token == "RKNPU" then Some(InspireInferEngineRKNN)
    else if token == "COREML" then Some(InspireInferEngineCoreML)
    else if token == "CUDA" then Some(InspireInferEngineTensorRT)
    else None
  }

  /** The table of `infer_backend`. */
  function BackendOf(token: string): Option<InspireInferBackend>
  {
    if token == "CPU" then Some(InspireInferBackendCPU)
    else if token == "RKNPU" then Some(InspireInferBackendRKNPU)
    else if token == "AUTO" then Some(InspireInferBackendAuto)
    else if token == "CUDA" then Some(InspireInferBackendCUDA)
    else None
  }

  /** The table of `data_type`. */
  function DataTypeOf(token: string): Option<DataType>
  {
    if token == "image" then Some(DataTypeImage)
    else if token == "data_nhwc" then Some(DataTypeBlobNhwc)
    else if token == "data_nchw" then Some(DataTypeBlobNchw)
    else None
  }

  /** The table of `input_tensor_type` and `output_tensor_type`. */
  function TensorTypeOf(token: string): Option<TensorType>
  {
    if token == "none" then Some(TensorTypeNone)
    else if token == "uint8" then Some(TensorTypeUint8)
    else if token == "int8" then Some(TensorTypeInt8)
    else if token == "float32" then Some(TensorTypeFp32)
    else if token == "int32" then Some(TensorTypeInt32)
    else if token == "int64" then Some(TensorTypeInt64)
    else None
  }

  /** Each table maps exactly the token of a value to that value, and
      nothing else to anything. */
  lemma EngineTypeTable(token: string)
    ensures forall e :: EngineTypeOf(token) == Some(e) <==> EngineTypeToken(e) == token
  {
  }

  lemma DeviceTable(token: string)
    ensures forall e :: DeviceOf(token) == Some(e) <==> DeviceToken(e) == token
  {
  }

  lemma BackendTable(token: string)
    ensures forall b :: BackendOf(token) == Some(b) <==> BackendToken(b) == token
  {
  }

  lemma DataTypeTable(token: string)
    ensures forall t :: DataTypeOf(token) == Some(t) <==> DataTypeToken(t) == token
  {
  }

  lemma TensorTypeTable(token: string)
    ensures forall t :: TensorTypeOf(token) == Some(t) <==> TensorTypeToken(t) == token
  {
  }

  /** Distinct selector values get distinct integer codes, so a stored code
      determines the value it came from. */
  lemma CodesAreDistinct()
    ensures forall e1, e2 :: InferEngineCode(e1) == InferEngineCode(e2) ==> e1 == e2
    ensures forall b1, b2 :: InferBackendCode(b1) == InferBackendCode(b2) ==> b1 == b2
    ensures forall t1, t2 :: DataTypeCode(t1) == DataTypeCode(t2) ==> t1 == t2
    ensures forall t1, t2 :: TensorTypeCode(t1) == TensorTypeCode(t2) ==> t1 == t2
  {
  }
}
