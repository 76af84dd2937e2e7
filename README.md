# paddle_inference: configuration translator and predictor handles, in Dafny

This project models the core of `paddle_inference`, a Rust wrapper over the
Paddle Inference C API (`PD_*` functions). The core has two parts.

- **The configuration translator.** A `Config` record is a plain value. It has
  defaults and by-value builders (`src/config/mod.rs`). `Predictor::new`
  creates one native configuration handle and applies the record to it
  section by section: model, CPU (with MKLDNN), GPU (with TensorRT), XPU,
  ONNX Runtime, then the global switches and options. Each section is the
  `set_to` of one descriptor (`src/config/setting.rs`). Finally the handle is
  turned into a predictor handle.
- **The predictor handle lifecycle** (`src/predictor.rs`): `run`, `clone`,
  `drop`, the tensor-handle lookups `input`/`output`, and the no-op
  `clear_intermediate_tensor`.

The native engine is opaque. Module `Ffi` models it as a class `Engine` with
four parts:

- a trace of every foreign call made;
- a table of the live configuration handles, each with the setters applied to it;
- a table of the live predictor handles, each with the setters it was built from;
- a counter for fresh handles.

Each `PD_Config*` setter is one constructor of `ConfigCall`. A function `Rank`
places every setter in the order in which the code issues it, and groups the
ranks into bands, one band per section.

The model has two layers for each `set_to`.

- **A specification function** (`CpuCalls`, `GpuCalls`, `TensorRtCalls`,
  `XpuCalls`, `OnnxRuntimeCalls`, `GlobalCalls`, and `Translate` for all of
  `Predictor::new`). It gives the list of setters the code issues.
- **A method** (`CpuSetTo`, `GpuSetTo`, …, `ConfigSetTo`). It issues the
  setters one by one on the engine, as the Rust code does. It is proved to
  leave exactly the specified setters on the handle and in the trace.

Lemmas about the specification functions state what the code promises:

- which setters are issued, under which field conditions, with which arguments;
- that every translation is in table order;
- that each band of a translation is exactly its section;
- what happens when a dynamic-shape entry fails its length check.

`assert!` in `check_and_get_shape_size` panics, and there is no recovery. The
model represents the panic as an `Aborted` result: the setters issued before
the panic are kept, and no predictor is created (`Predictor.New` returns `null`).

Module layout:

- `common.dfy`: integer ranges, `Option`, and the precision enum.
- `ffi.dfy`: setters, ordering table, trace, and `Engine`.
- `setting.dfy`: the descriptors and their `set_to`.
- `configuration.dfy`: `Config`, `Config::new`, and the builders.
- `predictor.dfy`: the translation in `Predictor::new`, and the class `Predictor`.
- `scenarios.dfy`: concrete configurations worked out in full.

The model follows the code in these places, where a reader might expect otherwise:

- **Engine call before the length check.** In `Gpu::set_to` the TensorRT
  engine call (`src/config/setting.rs:210`) is issued before the per-entry
  length check (`src/config/setting.rs:236`). A mismatched entry therefore
  panics after the engine call and before the batch call. Nothing is
  validated before the section starts. `AbortedLast`, `TranslateAborted` and
  `Scenarios.MismatchedEntry` state this.
- **The check is per entry.** It compares the three shapes of one entry, never
  one entry with another. Two consistent entries of ranks 3 and 4 are accepted
  (`Scenarios.EntriesOfDifferentRanks`). Only an entry whose own shapes differ
  in length panics.
- **A panic leaks the configuration handle.** The handle stays live and is
  never released: `Predictor.New` ensures it is still in `configs`.
- **`run` returns the raw flag.** It returns the engine's `PD_Bool` unchanged,
  not a typed error.
- **No separate MKLDNN switch.** Supplying an MKLDNN op list only issues
  `PD_ConfigSetMkldnnOp`; no separate "enable MKLDNN" setter is issued.
- **Only "on" for memory reuse.** `enable_memory_optimization` can only set the
  flag to 1, which is also the default.
- **Defaults also issue the model section and IR debugging.** The default
  configuration issues the model section, `SwitchIrOptim(1)`, `SwitchIrDebug(0)`
  and `EnableMemoryOptim(1)`, and no thread setter, since `Config::new` leaves
  the thread count unset (`Scenarios.DefaultTranslation`). The thread setter
  appears only once a thread count is configured (`Scenarios.FourThreads`).

## Model

| member | source | states |
|---|---|---|
| Setting.CheckAndGetShapeSize | src/config/setting.rs:129-136 | succeeds exactly when the min, max and optimal shapes have the same length, and then returns that length; `None` is the failed `assert!` |
| Setting.ShapeBatchOf | src/config/setting.rs:229-245 | the parallel arrays exist exactly when every entry passes the length check. Entry i of each array comes from entry i of the list: name, shape length, min, max and optimal shape |
| Setting.CollectDynamicShapes | src/config/setting.rs:222-245 | the loop that pushes each entry into the six vectors yields `ShapeBatchOf(infos)`. It stops with `None` exactly when some entry is inconsistent |
| Setting.MkldnnCallsContents | src/config/setting.rs:153-172 | cache capacity is issued iff the size is `Some(n)` with `n > 0`; the op list iff it is given, with size equal to its length; the bfloat16 switch and its op list only when that list is given, then as the last two calls, adjacent |
| Setting.MkldnnCacheContents | src/config/setting.rs:153-157 | the cache-capacity setter is issued exactly when the size is positive, with that size |
| Setting.MkldnnOpContents | src/config/setting.rs:158-164 | `SetMkldnnOp(n, ops)` is issued exactly when `op == Some(ops)`, with `n` the length of `ops` |
| Setting.MkldnnBfloat16Contents | src/config/setting.rs:165-172 | without a bfloat16 list no bfloat16 setter is issued. With one, the switch is immediately followed by its op list, sized by its length, at the end |
| Setting.MkldnnCallsKinds | src/config/setting.rs:147-173 | the MKLDNN block issues only MKLDNN setters |
| Setting.CpuCallsContents | src/config/setting.rs:142-173 | `SetCpuMathLibraryNumThreads(t)` is issued iff `threads == Some(t)` and `t > 0`. Without MKLDNN no other setter is issued; with MKLDNN, the MKLDNN block ends the list and only the thread setter may precede it |
| Setting.MkldnnSetTo | src/config/setting.rs:153-172 | issuing the MKLDNN block appends exactly `MkldnnCalls(m)` to the handle's setters and to the trace, and changes nothing else |
| Setting.CpuSetTo | src/config/setting.rs:139-175 | `Cpu::set_to` appends exactly `CpuCalls(cpu)` to the handle's setters and to the trace |
| Setting.DynamicShapeCallsContents | src/config/setting.rs:221-258 | the batch setter exists iff every entry is consistent. It is absent for an empty list; otherwise there is exactly one, with `tensor_num` equal to the list's length, arrays describing each entry in order, and the plugin-FP16 flag passed through |
| Setting.TensorRtCallsShape | src/config/setting.rs:209-245 | the TensorRT branch starts with the engine call carrying the six scalar fields unchanged, and issues only TensorRT setters. It panics iff some entry fails the length check, and then the engine call is the only setter issued |
| Setting.TensorRtCallsCompleted | src/config/setting.rs:221-267 | in a completed branch the batch call is issued iff the list is non-empty, and then it is the second call and describes every entry. OSS and DLA(core) are issued exactly when set |
| Setting.FollowUpsContents | src/config/setting.rs:261-267 | the follow-ups are OSS exactly when enabled and DLA(core) exactly when a core is given, and nothing else |
| Setting.GpuBaseContents | src/config/setting.rs:187-195 | `EnableUseGpu(pool, device)` comes first; multi-stream and cuDNN are issued exactly when enabled; none of these is a TensorRT setter |
| Setting.GpuCallsContents | src/config/setting.rs:187-268 | `Gpu::set_to` starts with `EnableUseGpu`, issues multi-stream and cuDNN exactly when enabled, and issues TensorRT setters iff TensorRT is configured, placed after the base setters. It panics exactly when the TensorRT branch panics |
| Setting.TensorRtSetTo | src/config/setting.rs:209-267 | the TensorRT block appends exactly `TensorRtCalls(t).calls`: the engine call is issued before the loop runs the length check. `completed` is false exactly when the check fails |
| Setting.GpuSetTo | src/config/setting.rs:177-270 | `Gpu::set_to` appends exactly `GpuCalls(g).calls`. `completed` is false exactly when it panics |
| Setting.MkldnnOrdered | src/config/setting.rs:153-172 | cache capacity, op list, bfloat16 switch and bfloat16 op list come in that order, each at most once |
| Setting.CpuOrdered | src/config/setting.rs:142-173 | the thread count precedes every MKLDNN setter, and the CPU setters stay inside the CPU band |
| Setting.FollowUpsOrdered | src/config/setting.rs:261-267 | OSS comes before DLA |
| Setting.TensorRtOrdered | src/config/setting.rs:209-267 | engine, dynamic-shape batch, OSS, DLA come in that order, each at most once |
| Setting.GpuBaseOrdered | src/config/setting.rs:187-195 | GPU switch, multi-stream, cuDNN come in that order |
| Setting.GpuOrdered | src/config/setting.rs:187-268 | all GPU setters, TensorRT included, are in table order inside the GPU band |
| Setting.AutotuneFileArg | src/config/setting.rs:282-285 | the autotune-file argument is the null pointer exactly when no file is given, and otherwise the file's name |
| Setting.XpuCalls | src/config/setting.rs:288-297 | `Xpu::set_to` issues exactly one setter, carrying workspace size, lock flag, autotune flag, precision and adaptive-seqlen unchanged; the file argument is null iff no file is given, and otherwise the C string of the given name |
| Setting.XpuSetTo | src/config/setting.rs:272-300 | `Xpu::set_to` appends exactly `XpuCalls(x)` |
| Setting.XpuOrdered | src/config/setting.rs:288-297 | the XPU setter lies in the XPU band |
| Setting.OnnxRuntimeCalls | src/config/setting.rs:302-308 | `EnableONNXRuntime` comes first; `EnableORTOptimization` is issued exactly when optimization is enabled |
| Setting.OnnxRuntimeSetTo | src/config/setting.rs:302-308 | `ONNXRuntime::set_to` appends exactly `OnnxRuntimeCalls(o)` |
| Setting.OnnxRuntimeOrdered | src/config/setting.rs:304-307 | the backend switch precedes its optimization switch |
| Configuration.New | src/config/mod.rs:46-62 | defaults: IR optimization 1, IR debug 0, memory reuse 1; no GPU, XPU, ONNX Runtime, Lite or cache directory; default CPU settings; the three flags off |
| Configuration.DisableLogInfo | src/config/mod.rs:65-68 | sets `disable_log` and no other field |
| Configuration.EnableProfile | src/config/mod.rs:71-74 | sets `profile` and no other field |
| Configuration.DisableFcPadding | src/config/mod.rs:77-80 | sets `disable_fc_padding` and no other field |
| Configuration.SetOptimizationCacheDir | src/config/mod.rs:85-88 | sets the cache directory to `Some(dir)` and no other field |
| Configuration.EnableMemoryOptimization | src/config/mod.rs:91-94 | sets the memory-reuse flag to 1 and no other field |
| Configuration.EnableLiteEngine | src/config/mod.rs:97-100 | wraps the Lite options in `Some` and changes no other field |
| Configuration.IrOptimization | src/config/mod.rs:103-106 | the flag becomes 1 iff `enable` and 0 iff not (no inversion); no other field changes |
| Configuration.IrDebug | src/config/mod.rs:109-112 | the flag becomes 1 iff `debug` and 0 iff not; no other field changes |
| Configuration.WithCpu | src/config/mod.rs:114-117 | replaces the CPU settings and no other field |
| Configuration.WithGpu | src/config/mod.rs:119-122 | wraps the GPU settings in `Some` and changes no other field |
| Configuration.WithXpu | src/config/mod.rs:124-127 | wraps the XPU settings in `Some` and changes no other field |
| Configuration.WithOnnxRuntime | src/config/mod.rs:129-132 | wraps the ONNX Runtime settings in `Some` and changes no other field |
| Configuration.FlagBuildersIdempotent | src/config/mod.rs:65-94 | applying `disable_log_info`, `enable_profile`, `disable_fc_padding` or `enable_memory_optimization` twice equals applying it once |
| Configuration.LastValueWins | src/config/mod.rs:85-122 | for `gpu`, `set_optimization_cache_dir`, `ir_optimization` and `ir_debug`, the later call overrides the earlier one |
| Predictors.OptionCallsContents | src/predictor.rs:79-94 | the trailing options issue only their own setters; the cache directory is issued iff it is `Some(d)` and carries `d`; FC padding, profiling and log suppression are issued iff their flags are set |
| Predictors.GlobalCallsSwitches | src/predictor.rs:55-77 | IR optimization and IR debugging come first and carry the configured flags unchanged; memory reuse is issued with exactly the configured flag and no other; the Lite section is issued iff Lite is configured |
| Predictors.GlobalCallsOptions | src/predictor.rs:79-94 | after the device sections, the cache-directory, FC-padding, profiling and logging setters are issued exactly when set |
| Predictors.OptionsOrdered | src/predictor.rs:79-94 | cache directory, FC padding, profiling, logging come in that order |
| Predictors.GlobalOrdered | src/predictor.rs:55-94 | IR optimization, IR debug, Lite, memory reuse, then the options, in that order, inside the global band |
| Predictors.TranslateAbortsIff | src/predictor.rs:45-47 | `Predictor::new` panics exactly when TensorRT is configured and some dynamic-shape entry has mismatched lengths |
| Predictors.PartsInBand | src/predictor.rs:41-94 | each of the six sections lies inside its own band of the ordering table |
| Predictors.PartsOrdered | src/predictor.rs:41-94 | each section is in table order |
| Predictors.TranslateOrdered | src/predictor.rs:39-97 | every setter ranks strictly after the one before it. So each setter is issued at most once, and model, CPU, GPU/TensorRT, XPU, ONNX Runtime, IR optimization, IR debug, Lite, memory reuse, cache directory, FC padding, profiling and logging come in that order |
| Predictors.TranslateSection | src/predictor.rs:41-94 | band k of the translation is exactly section k when that section was reached, and empty after a panic in the GPU section |
| Predictors.AbortedInBand | src/config/setting.rs:209-236 | a panicking translation issued nothing past the GPU band |
| Predictors.AbortedLast | src/config/setting.rs:209-236 | a panicking translation has TensorRT configured and ends with the engine call carrying its six scalar fields |
| Predictors.TranslateAborted | src/config/setting.rs:209-258 | a panicking translation, which ends with the engine call by `AbortedLast`, holds no dynamic-shape batch call, and holds no XPU, ONNX Runtime or global setter |
| Predictors.NoGpuSilent | src/predictor.rs:45-47 | without GPU settings, no GPU or TensorRT setter is issued |
| Predictors.NoXpuSilent | src/predictor.rs:48-50 | without XPU settings, no XPU setter is issued |
| Predictors.NoOnnxSilent | src/predictor.rs:51-53 | without ONNX Runtime settings, no ONNX Runtime setter is issued |
| Predictors.TranslateEndsWithGlobals | src/predictor.rs:55-94 | a translation that does not panic ends with the global setters; everything before them lies in the bands before them |
| Predictors.TranslateOptions | src/predictor.rs:79-94 | a translation that does not panic carries the cache-directory, FC-padding, profiling and logging setters exactly when they are set |
| Predictors.TranslateSwitches | src/predictor.rs:55-77 | a translation that does not panic carries IR optimization and IR debug with the configured flags, memory reuse with exactly the configured flag, and the Lite section iff Lite is configured |
| Predictors.SwitchesSetTo | src/predictor.rs:55-77 | appends exactly the IR switches, the Lite section if configured, and memory reuse |
| Predictors.OptionsSetTo | src/predictor.rs:79-94 | appends exactly the trailing options that are set, in order |
| Predictors.GlobalSetTo | src/predictor.rs:55-94 | appends exactly `GlobalCalls(c)` |
| Predictors.DevicesSetTo | src/predictor.rs:41-47 | appends exactly the model, CPU and GPU sections. `completed` is false exactly when the GPU section panics |
| Predictors.BackendsSetTo | src/predictor.rs:48-53 | appends exactly the XPU and ONNX Runtime sections, each only when configured |
| Predictors.ConfigSetTo | src/predictor.rs:41-94 | the whole step-by-step translation leaves exactly `Translate(c).calls` on the handle and in the trace. `completed` is false exactly when it panics |
| Predictors.Predictor.FromPtr | src/predictor.rs:100-102 | the predictor owns exactly the handle it was given |
| Predictors.Predictor.New | src/predictor.rs:22-98 | one fresh configuration handle, then every setter of `Translate(config)` on it, then one fresh predictor handle built from exactly those setters, which consumes the configuration handle. On a panic there is no predictor and the configuration handle stays live |
| Predictors.Predictor.Input | src/predictor.rs:120-124 | one input-handle lookup for `name` on this predictor's handle; the live handles do not change |
| Predictors.Predictor.Output | src/predictor.rs:140-144 | one output-handle lookup for `name` on this predictor's handle; the live handles do not change |
| Predictors.Predictor.Run | src/predictor.rs:149-151 | returns the engine's flag unchanged, records one run call, and leaves the live handles unchanged |
| Predictors.Predictor.ClearIntermediateTensor | src/predictor.rs:153-155 | issues no foreign call and changes nothing |
| Predictors.Predictor.Clone | src/predictor.rs:158-163 | a fresh handle, never issued before and distinct from the original, for the same setters; the original stays live |
| Predictors.Predictor.Drop | src/predictor.rs:165-169 | destroys this handle and no other, exactly once in the whole trace |
| Predictors.CloneThenDrop | src/predictor.rs:158-169 | after dropping a clone, the original's handle is still live and `run` still works on it |
| Ffi.Engine.ConfigCreate | src/predictor.rs:39 | `PD_ConfigCreate` yields a fresh, empty configuration handle |
| Ffi.Engine.PredictorCreate | src/predictor.rs:96 | `PD_PredictorCreate` consumes the configuration handle and yields a fresh predictor handle built from its setters |
| Ffi.Engine.PredictorClone | src/predictor.rs:160 | `PD_PredictorClone` yields a fresh handle for the same setters |
| Ffi.Engine.PredictorRun | src/predictor.rs:150 | `PD_PredictorRun` returns the engine's flag and changes no handle |
| Ffi.Engine.GetTensorHandle | src/predictor.rs:122 | the tensor lookup returns the slot named `name` on the given side of the predictor |
| Ffi.Engine.PredictorDestroy | src/predictor.rs:167 | `PD_PredictorDestroy` releases a live handle, which has never been destroyed before |
| Scenarios.DefaultTranslation | src/config/mod.rs:46-62 | `Config::new(m)` issues the model section, `SwitchIrOptim(1)`, `SwitchIrDebug(0)` and `EnableMemoryOptim(1)`, and nothing else |
| Scenarios.FourThreads | src/config/setting.rs:142-146 | four CPU threads on the defaults add exactly `SetCpuMathLibraryNumThreads(4)` after the model section |
| Scenarios.GpuWithParts | src/predictor.rs:41-94 | for a GPU with cuDNN and TensorRT, the six sections of `Predictor::new` |
| Scenarios.GpuWithTranslation | src/config/setting.rs:187-258 | for that GPU: model, GPU switch and cuDNN, then the TensorRT branch, then the defaults unless the branch panics |
| Scenarios.GpuWithTensorRt | src/config/setting.rs:209-221 | GPU switch, cuDNN and the 1 MiB engine call come in that order, and an empty dynamic-shape list issues no batch call |
| Scenarios.TwoRanksTensorRt | src/config/setting.rs:221-258 | two consistent entries of ranks 3 and 4 yield the engine call and one batch call with shape lengths `[3, 4]` |
| Scenarios.EntriesOfDifferentRanks | src/config/setting.rs:229-258 | entries of different ranks do not panic; the whole translation completes |
| Scenarios.MismatchedEntry | src/config/setting.rs:209-236 | an entry whose min shape has 3 dimensions and max shape 4 panics after the engine call, before any batch call or later section |

## Left out

- `input_names`, `output_names`, `input_num` and `output_num` (`src/predictor.rs:107-135`) return what the engine answers. `OneDimArrayCstr` is not part of this model, so the model has nothing to say about them.
- `to_c_str` and C-string lifetimes are not part of this model. Names, paths and op lists are passed as whole strings; truncation at an embedded `\0` is not modelled.
- `Model::set_to` and `LiteEngine::set_to` (`config/model.rs`, `config/lite_engine.rs`) are not part of this model. Each is one opaque setter, `ModelSection` or `LiteSection`, placed where the code calls it.
- `PrecisionType` (`common.rs`) is not part of this model beyond its three values.
- What the native engine does with each `PD_*` call is not modelled: inference, graph optimization, and the contents of tensors. Each call is a trace event or a handle allocation.
- The tensor type: tensor data get/set and shapes. `input`/`output` return the slot the engine hands back.
- The model has no threads, no serde derive, and no build script (`build.rs`). `src/lib.rs` holds only module declarations.
- Predictors.Predictor.Run: the engine's success flag is a parameter (`answer`); the model does not say when inference succeeds.
- Predictors.Predictor.New: the panic is a `null` result with the trace cut at the panic. Unwinding is not modelled, and neither are destructors that run during it; none of them releases the configuration handle.
- Ffi.Engine: handles are never reused. The engine in the model issues each handle number once, while a real allocator may hand out an address again after a release.
- Ffi.Engine.GetTensorHandle: the model does not capture that looking up a name the predictor does not declare is engine-dependent. Every lookup returns a slot.
- `Common.I32`, `U64` and `PdBool` are range-restricted integers. The Rust `usize` sizes (op counts, `tensor_num`, shape lengths) are unbounded `nat`s, because every list in the model is far below `usize::MAX`.
