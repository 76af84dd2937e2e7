/**
 * The `Config` record of src/config/mod.rs: the predictor's settings as a
 * plain value, its defaults and its by-value builder methods. Each builder
 * sets one field and hands the record back.
 */
module Configuration {
  import opened Common
  import opened Setting

  datatype Config = Config(
    model: Model,
    cpu: Cpu,
    gpu: Option<Gpu>,
    xpu: Option<Xpu>,
    onnxRuntime: Option<ONNXRuntime>,
    irOptimization: PdBool,
    irDebug: PdBool,
    lite: Option<LiteEngine>,
    memoryOptimization: PdBool,
    optimizationCacheDir: Option<string>,
    disableFcPadding: bool,
    profile: bool,
    disableLog: bool)

  /**
   * `Config::new`: IR optimization and memory reuse on, IR debugging off, no
   * device or backend beyond the default CPU settings, every other option off.
   */
  function New(model: Model): (c: Config)
    ensures c.model == model
    ensures c.cpu.threads.None? && c.cpu.mkldnn.None?
    ensures c.gpu.None? && c.xpu.None? && c.onnxRuntime.None? && c.lite.None?
    ensures c.irOptimization == 1 && c.irDebug == 0 && c.memoryOptimization == 1
    ensures c.optimizationCacheDir.None?
    ensures !c.disableFcPadding && !c.profile && !c.disableLog
  {
    Config(model, Cpu(None, None), None, None, None, 1, 0, None, 1, None, false, false, false)
  }

  /** `disable_log_info`. */
  function DisableLogInfo(c: Config): (r: Config)
    ensures r.disableLog
    ensures r.(disableLog := c.disableLog) == c
  {
    c.(disableLog := true)
  }

  /** `enable_profile`. */
  function EnableProfile(c: Config): (r: Config)
    ensures r.profile
    ensures r.(profile := c.profile) == c
  {
    c.(profile := true)
  }

  /** `disable_fc_padding`. */
  function DisableFcPadding(c: Config): (r: Config)
    ensures r.disableFcPadding
    ensures r.(disableFcPadding := c.disableFcPadding) == c
  {
    c.(disableFcPadding := true)
  }

  /** `set_optimization_cache_dir`. */
  function SetOptimizationCacheDir(c: Config, dir: string): (r: Config)
    ensures r.optimizationCacheDir == Some(dir)
    ensures r.(optimizationCacheDir := c.optimizationCacheDir) == c
  {
    c.(optimizationCacheDir := Some(dir))
  }

  /** `enable_memory_optimization`; there is no builder that turns it off again. */
  function EnableMemoryOptimization(c: Config): (r: Config)
    ensures r.memoryOptimization == 1
    ensures r.(memoryOptimization := c.memoryOptimization) == c
  {
    c.(memoryOptimization := 1)
  }

  /** `enable_lite_engine`. */
  function EnableLiteEngine(c: Config, lite: LiteEngine): (r: Config)
    ensures r.lite == Some(lite)
    ensures r.(lite := c.lite) == c
  {
    c.(lite := Some(lite))
  }

  /** `ir_optimization`: the flag is 1 exactly when `enable` holds, 0 otherwise. */
  function IrOptimization(c: Config, enable: bool): (r: Config)
    ensures r.irOptimization == 1 <==> enable
    ensures r.irOptimization == 0 <==> !enable
    ensures r.(irOptimization := c.irOptimization) == c
  {
    c.(irOptimization := if enable then 1 else 0)
  }

  /** `ir_debug`: the flag is 1 exactly when `debug` holds, 0 otherwise. */
  function IrDebug(c: Config, debug: bool): (r: Config)
    ensures r.irDebug == 1 <==> debug
    ensures r.irDebug == 0 <==> !debug
    ensures r.(irDebug := c.irDebug) == c
  {
    c.(irDebug := if debug then 1 else 0)
  }

  /** `cpu`: replaces the CPU settings wholesale. */
  function WithCpu(c: Config, cpu: Cpu): (r: Config)
    ensures r.cpu == cpu
    ensures r.(cpu := c.cpu) == c
  {
    c.(cpu := cpu)
  }

  /** `gpu`. */
  function WithGpu(c: Config, gpu: Gpu): (r: Config)
    ensures r.gpu == Some(gpu)
    ensures r.(gpu := c.gpu) == c
  {
    c.(gpu := Some(gpu))
  }

  /** `xpu`. */
  function WithXpu(c: Config, xpu: Xpu): (r: Config)
    ensures r.xpu == Some(xpu)
    ensures r.(xpu := c.xpu) == c
  {
    c.(xpu := Some(xpu))
  }

  /** `onnx_runtime`. */
  function WithOnnxRuntime(c: Config, onnx: ONNXRuntime): (r: Config)
    ensures r.onnxRuntime == Some(onnx)
    ensures r.(onnxRuntime := c.onnxRuntime) == c
  {
    c.(onnxRuntime := Some(onnx))
  }

  /** The flag builders are idempotent: applying one twice is applying it once. */
  lemma FlagBuildersIdempotent(c: Config)
    ensures DisableLogInfo(DisableLogInfo(c)) == DisableLogInfo(c)
    ensures EnableProfile(EnableProfile(c)) == EnableProfile(c)
    ensures DisableFcPadding(DisableFcPadding(c)) == DisableFcPadding(c)
    ensures EnableMemoryOptimization(EnableMemoryOptimization(c)) == EnableMemoryOptimization(c)
  {
  }

  /** A later call of a value builder overrides an earlier one: the last value wins. */
  lemma LastValueWins(c: Config, g1: Gpu, g2: Gpu, d1: string, d2: string, e1: bool, e2: bool)
    ensures WithGpu(WithGpu(c, g1), g2) == WithGpu(c, g2)
    ensures SetOptimizationCacheDir(SetOptimizationCacheDir(c, d1), d2) == SetOptimizationCacheDir(c, d2)
    ensures IrOptimization(IrOptimization(c, e1), e2) == IrOptimization(c, e2)
    ensures IrDebug(IrDebug(c, e1), e2) == IrDebug(c, e2)
  {
  }
}
