/** Value types shared by the configuration descriptors and the native interface. */
module Common {

  datatype Option<T> = None | Some(value: T)

  /** Rust `i32`. */
  type I32 = x: int | -0x8000_0000 <= x < 0x8000_0000

  /** Rust `u64`. */
  type U64 = x: int | 0 <= x < 0x1_0000_0000_0000_0000

  /** `PD_Bool`, the native API's 8-bit integer flag (1 for on, 0 for off). */
  type PdBool = x: int | -0x80 <= x < 0x80

  /** `PrecisionType`: the TensorRT precisions FP32 (kFloat32), FP16 (kHalf) and INT8 (kInt8). */
  datatype Precision = Float32 | Half | Int8

  /** Stand-in for the model descriptor of config/model.rs, which is not part of this model. */
  datatype Model = Model(source: string)

  /** Stand-in for the Lite-subgraph options of config/lite_engine.rs, which is not part of this model. */
  datatype LiteEngine = LiteEngine(options: string)
}
