/**
 * src/predictor.rs: how `Predictor::new` turns a `Config` into one
 * configuration handle, a fixed sequence of setter sections and a predictor
 * handle, and the predictor's handle lifecycle (`run`, `clone`, `drop`, the
 * tensor-handle lookups and the no-op `clear_intermediate_tensor`).
 */
module Predictors {
  import opened Common
  import opened Ffi
  import opened Setting
  import opened Configuration

  // ---------------------------------------------------------------- the settings after the device sections

  /** A setter issued only when `b` holds. */
  function When(b: bool, s: ConfigCall): (r: seq<ConfigCall>)
    ensures |r| <= 1
  {
    if b then [s] else []
  }

  /** The Lite-subgraph section, present only when the Lite engine is configured. */
  function LiteCalls(lite: Option<LiteEngine>): (r: seq<ConfigCall>)
    ensures |r| <= 1
  {
    match lite
    case Some(l) => [LiteSection(l)]
    case None => []
  }

  /** The cache-directory setter, present only when a directory is configured. */
  function CacheDirCalls(dir: Option<string>): (r: seq<ConfigCall>)
    ensures |r| <= 1
  {
    match dir
    case Some(d) => [SetOptimCacheDir(d)]
    case None => []
  }

  /** The optional setters at the end of `Predictor::new`: cache directory, FC padding, profiling, logging. */
  function OptionCalls(c: Config): (r: seq<ConfigCall>)
    ensures |r| <= 4
  {
    CacheDirCalls(c.optimizationCacheDir) + When(c.disableFcPadding, DisableFCPadding)
    + When(c.profile, ProfileEnabled) + When(c.disableLog, DisableGlogInfo)
  }

  /** The IR switches, the Lite section and the memory-reuse switch, issued right after the device sections. */
  function SwitchCalls(c: Config): (r: seq<ConfigCall>)
    ensures 3 <= |r| <= 4
  {
    [SwitchIrOptim(c.irOptimization), SwitchIrDebug(c.irDebug)] + LiteCalls(c.lite)
    + [EnableMemoryOptim(c.memoryOptimization)]
  }

  /** The setters `Predictor::new` issues after the device sections. */
  function GlobalCalls(c: Config): (r: seq<ConfigCall>)
    ensures 3 <= |r| <= 8
  {
    SwitchCalls(c) + OptionCalls(c)
  }

  /** The optional trailing setters are issued exactly when their options are set. */
  lemma OptionCallsContents(c: Config)
    ensures forall x :: x in OptionCalls(c) ==> x.SetOptimCacheDir? || x.DisableFCPadding? || x.ProfileEnabled? || x.DisableGlogInfo?
    ensures forall d :: SetOptimCacheDir(d) in OptionCalls(c) <==> c.optimizationCacheDir == Some(d)
    ensures DisableFCPadding in OptionCalls(c) <==> c.disableFcPadding
    ensures ProfileEnabled in OptionCalls(c) <==> c.profile
    ensures DisableGlogInfo in OptionCalls(c) <==> c.disableLog
  {
    var dir, fc := CacheDirCalls(c.optimizationCacheDir), When(c.disableFcPadding, DisableFCPadding);
    var profile, log := When(c.profile, ProfileEnabled), When(c.disableLog, DisableGlogInfo);
    assert OptionCalls(c) == dir + fc + profile + log;
  }

  /**
   * After the device sections, the IR switches and the memory-reuse switch are
   * issued unconditionally, carrying the configured flags unchanged (not
   * inverted), and the Lite section exactly when the Lite engine is configured.
   */
  lemma GlobalCallsSwitches(c: Config)
    ensures GlobalCalls(c)[0] == SwitchIrOptim(c.irOptimization)
    ensures GlobalCalls(c)[1] == SwitchIrDebug(c.irDebug)
    ensures forall f :: EnableMemoryOptim(f) in GlobalCalls(c) <==> f == c.memoryOptimization
    ensures forall l :: LiteSection(l) in GlobalCalls(c) <==> c.lite == Some(l)
  {
    var ir := [SwitchIrOptim(c.irOptimization), SwitchIrDebug(c.irDebug)];
    var lite, mem, opts := LiteCalls(c.lite), [EnableMemoryOptim(c.memoryOptimization)], OptionCalls(c);
    assert GlobalCalls(c) == ir + lite + mem + opts;
    OptionCallsContents(c);
  }

  /** After the device sections, the other options are issued exactly when they are set. */
  lemma GlobalCallsOptions(c: Config)
    ensures forall d :: SetOptimCacheDir(d) in GlobalCalls(c) <==> c.optimizationCacheDir == Some(d)
    ensures DisableFCPadding in GlobalCalls(c) <==> c.disableFcPadding
    ensures ProfileEnabled in GlobalCalls(c) <==> c.profile
    ensures DisableGlogInfo in GlobalCalls(c) <==> c.disableLog
  {
    var ir := [SwitchIrOptim(c.irOptimization), SwitchIrDebug(c.irDebug)];
    var lite, mem, opts := LiteCalls(c.lite), [EnableMemoryOptim(c.memoryOptimization)], OptionCalls(c);
    assert GlobalCalls(c) == ir + lite + mem + opts;
    OptionCallsContents(c);
  }

  /** An optional setter lies, in table order, inside its own rank. */
  lemma WhenBanded(b: bool, s: ConfigCall)
    ensures Ordered(When(b, s)) && InBand(When(b, s), Rank(s), Rank(s) + 1)
  {
  }

  /** The optional trailing setters come in table order inside their band. */
  lemma OptionsOrdered(c: Config)
    ensures Ordered(OptionCalls(c)) && InBand(OptionCalls(c), 20, RankEnd)
  {
    var dir, fc := CacheDirCalls(c.optimizationCacheDir), When(c.disableFcPadding, DisableFCPadding);
    var profile, log := When(c.profile, ProfileEnabled), When(c.disableLog, DisableGlogInfo);
    assert Ordered(dir) && InBand(dir, 20, 21);
    WhenBanded(c.disableFcPadding, DisableFCPadding);
    WhenBanded(c.profile, ProfileEnabled);
    WhenBanded(c.disableLog, DisableGlogInfo);
    assert Rank(DisableFCPadding) == 21 && Rank(ProfileEnabled) == 22 && Rank(DisableGlogInfo) == 23;
    OrderedConcat4(dir, fc, profile, log, 20, 21, 22, 23, RankEnd);
  }

  /** The setters after the device sections come in table order inside their band. */
  lemma GlobalOrdered(c: Config)
    ensures Ordered(GlobalCalls(c)) && InBand(GlobalCalls(c), GlobalBegin, RankEnd)
  {
    var ir, lite := [SwitchIrOptim(c.irOptimization), SwitchIrDebug(c.irDebug)], LiteCalls(c.lite);
    var mem := [EnableMemoryOptim(c.memoryOptimization)];
    assert Ordered(ir) && InBand(ir, GlobalBegin, 18);
    assert Ordered(lite) && InBand(lite, 18, 19);
    assert Ordered(mem) && InBand(mem, 19, 20);
    OptionsOrdered(c);
    OrderedConcat4(ir, lite, mem, OptionCalls(c), GlobalBegin, 18, 19, 20, RankEnd);
  }

  // ---------------------------------------------------------------- the whole translation

  /** The GPU section of `Predictor::new`: nothing when no GPU is configured. */
  function GpuSection(gpu: Option<Gpu>): (r: Emitted)
  {
    match gpu
    case Some(g) => GpuCalls(g)
    case None => Completed([])
  }

  /** The XPU section of `Predictor::new`: nothing when no XPU is configured. */
  function XpuSection(xpu: Option<Xpu>): (r: seq<ConfigCall>)
  {
    match xpu
    case Some(x) => XpuCalls(x)
    case None => []
  }

  /** The ONNX Runtime section of `Predictor::new`: nothing when it is not configured. */
  function OnnxSection(onnx: Option<ONNXRuntime>): (r: seq<ConfigCall>)
  {
    match onnx
    case Some(o) => OnnxRuntimeCalls(o)
    case None => []
  }

  /** The six sections of `Predictor::new`, in issue order; the GPU one may be cut short by a panic. */
  function Parts(c: Config): (r: seq<seq<ConfigCall>>)
    ensures |r| == 6
  {
    [[ModelSection(c.model)], CpuCalls(c.cpu), GpuSection(c.gpu).calls, XpuSection(c.xpu),
     OnnxSection(c.onnxRuntime), GlobalCalls(c)]
  }

  /** The bands of the ordering table the six sections occupy: section k lies in [Bands[k], Bands[k + 1]). */
  const Bands: seq<nat> := [0, CpuBegin, GpuBegin, XpuBegin, OnnxBegin, GlobalBegin, RankEnd]

  /** How many sections are issued: all six, or the first three when the GPU section panics. */
  function PartsIssued(c: Config): nat
  {
    if GpuSection(c.gpu).Aborted? then 3 else 6
  }

  /** The concatenation of the first `n` lists of `parts`. */
  function Concat(parts: seq<seq<ConfigCall>>, n: nat): seq<ConfigCall>
    requires n <= |parts|
  {
    if n == 0 then [] else Concat(parts, n - 1) + parts[n - 1]
  }

  /** The concatenations of the first three and of all six of six lists. */
  lemma ConcatSix(p: seq<seq<ConfigCall>>)
    requires |p| == 6
    ensures Concat(p, 3) == p[0] + p[1] + p[2]
    ensures Concat(p, 6) == p[0] + p[1] + p[2] + p[3] + p[4] + p[5]
  {
    assert Concat(p, 1) == p[0];
    assert Concat(p, 2) == p[0] + p[1];
    assert Concat(p, 3) == p[0] + p[1] + p[2];
    assert Concat(p, 4) == p[0] + p[1] + p[2] + p[3];
    assert Concat(p, 5) == p[0] + p[1] + p[2] + p[3] + p[4];
  }

  /**
   * Every setter `Predictor::new` issues on its configuration handle: the
   * model, CPU, GPU, XPU and ONNX Runtime sections, then the global settings,
   * one after the other. A panic in the GPU section ends the list there.
   */
  function Translate(c: Config): (r: Emitted)
  {
    var calls := Concat(Parts(c), PartsIssued(c));
    if GpuSection(c.gpu).Aborted? then Aborted(calls) else Completed(calls)
  }

  /** The translation panics exactly when a TensorRT dynamic-shape entry has mismatched lengths. */
  lemma TranslateAbortsIff(c: Config)
    ensures Translate(c).Aborted? <==>
              && c.gpu.Some? && c.gpu.value.enableTensorRt.Some?
              && !AllConsistent(c.gpu.value.enableTensorRt.value.dynamicShapeInfo)
  {
    if c.gpu.Some? {
      GpuCallsContents(c.gpu.value);
      if c.gpu.value.enableTensorRt.Some? {
        TensorRtCallsShape(c.gpu.value.enableTensorRt.value);
      }
    }
  }

  /** Each section lies inside its own band. */
  lemma PartsInBand(c: Config)
    ensures forall k :: 0 <= k < 6 ==> InBand(Parts(c)[k], Bands[k], Bands[k + 1])
  {
    var p := Parts(c);
    forall k | 0 <= k < 6 ensures InBand(p[k], Bands[k], Bands[k + 1]) {
      if k == 0 {
        assert Rank(p[0][0]) == 0;
      } else if k == 1 {
        CpuOrdered(c.cpu);
      } else if k == 2 {
        if c.gpu.Some? {
          GpuOrdered(c.gpu.value);
        }
      } else if k == 3 {
        if c.xpu.Some? {
          XpuOrdered(c.xpu.value);
        }
      } else if k == 4 {
        if c.onnxRuntime.Some? {
          OnnxRuntimeOrdered(c.onnxRuntime.value);
        }
      } else {
        GlobalOrdered(c);
      }
    }
  }

  /** Each section is in table order. */
  lemma PartsOrdered(c: Config)
    ensures forall k :: 0 <= k < 6 ==> Ordered(Parts(c)[k])
  {
    var p := Parts(c);
    forall k | 0 <= k < 6 ensures Ordered(p[k]) {
      if k == 0 {
        assert Rank(p[0][0]) == 0;
      } else if k == 1 {
        CpuOrdered(c.cpu);
      } else if k == 2 {
        if c.gpu.Some? {
          GpuOrdered(c.gpu.value);
        }
      } else if k == 3 {
        if c.xpu.Some? {
          XpuOrdered(c.xpu.value);
        }
      } else if k == 4 {
        if c.onnxRuntime.Some? {
          OnnxRuntimeOrdered(c.onnxRuntime.value);
        }
      } else {
        GlobalOrdered(c);
      }
    }
  }

  /** The band boundaries never decrease. */
  lemma BandsMonotone()
    ensures forall i, j :: 0 <= i <= j < |Bands| ==> Bands[i] <= Bands[j]
  {
  }

  /**
   * Lists that are each in table order inside consecutive bands concatenate
   * to a list in table order spanning those bands.
   */
  lemma {:induction false} ConcatOrdered(parts: seq<seq<ConfigCall>>, bands: seq<nat>, n: nat)
    requires |bands| == |parts| + 1 && n <= |parts|
    requires forall i, j :: 0 <= i <= j < |bands| ==> bands[i] <= bands[j]
    requires forall k :: 0 <= k < |parts| ==> Ordered(parts[k])
    requires forall k :: 0 <= k < |parts| ==> InBand(parts[k], bands[k], bands[k + 1])
    ensures Ordered(Concat(parts, n)) && InBand(Concat(parts, n), bands[0], bands[n])
    decreases n
  {
    if n > 0 {
      ConcatOrdered(parts, bands, n - 1);
      OrderedConcat(Concat(parts, n - 1), parts[n - 1], bands[0], bands[n - 1], bands[n]);
    }
  }

  /**
   * When list k of `parts` lies in band k, band j of the concatenation of the
   * first `n` lists is list j, or nothing for a band past the first `n`.
   */
  lemma {:induction false} SectionOfConcat(parts: seq<seq<ConfigCall>>, bands: seq<nat>, n: nat, j: nat)
    requires |bands| == |parts| + 1 && n <= |parts| && j < |parts|
    requires forall i, k :: 0 <= i <= k < |bands| ==> bands[i] <= bands[k]
    requires forall k :: 0 <= k < |parts| ==> InBand(parts[k], bands[k], bands[k + 1])
    ensures j < n ==> Section(Concat(parts, n), bands[j], bands[j + 1]) == parts[j]
    ensures n <= j ==> Section(Concat(parts, n), bands[j], bands[j + 1]) == []
    decreases n
  {
    var lo, hi := bands[j], bands[j + 1];
    if n == 0 {
      assert Concat(parts, n) == [];
      assert Section([], lo, hi) == [];
    } else {
      var init, last := Concat(parts, n - 1), parts[n - 1];
      SectionOfConcat(parts, bands, n - 1, j);
      assert Concat(parts, n) == init + last;
      SectionOfAppendBanded(init, last, bands[n - 1], bands[n], lo, hi);
      if j < n - 1 {
        assert hi <= bands[n - 1];
        assert Section(init + last, lo, hi) == Section(init, lo, hi);
      } else if j == n - 1 {
        assert Section(init, lo, hi) == [];
        assert Section(init + last, lo, hi) == [] + last == last;
      } else {
        assert bands[n] <= lo;
        assert Section(init + last, lo, hi) == Section(init, lo, hi);
      }
    }
  }

  /**
   * The fixed section order: every setter has a higher rank than the one
   * before it, so each kind of setter is issued at most once and the sections
   * model, CPU, GPU (TensorRT included), XPU, ONNX Runtime, IR optimization,
   * IR debugging, Lite, memory reuse, cache directory, FC padding, profiling
   * and logging follow one another in that order.
   */
  lemma TranslateOrdered(c: Config)
    ensures Ordered(Translate(c).calls) && InBand(Translate(c).calls, 0, RankEnd)
  {
    PartsOrdered(c);
    PartsInBand(c);
    BandsMonotone();
    ConcatOrdered(Parts(c), Bands, PartsIssued(c));
  }

  /**
   * Taken band by band, a translation is exactly what each section issues:
   * band k holds section k when that section was reached, and nothing after
   * a panic in the GPU section.
   */
  lemma TranslateSection(c: Config, k: nat)
    requires k < 6
    ensures Section(Translate(c).calls, Bands[k], Bands[k + 1]) == if k < PartsIssued(c) then Parts(c)[k] else []
  {
    PartsInBand(c);
    BandsMonotone();
    SectionOfConcat(Parts(c), Bands, PartsIssued(c), k);
  }

  /** A panicking translation issues only setters of the bands before XPU. */
  lemma AbortedInBand(c: Config)
    requires Translate(c).Aborted?
    ensures InBand(Translate(c).calls, 0, XpuBegin)
  {
    PartsOrdered(c);
    PartsInBand(c);
    BandsMonotone();
    ConcatOrdered(Parts(c), Bands, 3);
  }

  /** A panicking translation ends with the TensorRT engine call. */
  lemma AbortedLast(c: Config)
    requires Translate(c).Aborted?
    ensures c.gpu.Some? && c.gpu.value.enableTensorRt.Some?
    ensures var t := c.gpu.value.enableTensorRt.value;
            Translate(c).calls[|Translate(c).calls| - 1] ==
              EnableTensorRtEngine(t.workspaceSize, t.maxBatchSize, t.minSubgraphSize,
                                   t.precisionType, t.useStatic, t.useCalibMode)
  {
    TranslateAbortsIff(c);
    var g := c.gpu.value;
    var trt := TensorRtCalls(g.enableTensorRt.value).calls;
    var head := [ModelSection(c.model)] + CpuCalls(c.cpu) + GpuBaseCalls(g);
    TensorRtCallsShape(g.enableTensorRt.value);
    ConcatSix(Parts(c));
    assert Translate(c).calls == head + trt;
    assert (head + trt)[|head + trt| - 1] == trt[0];
  }

  /**
   * A panicking translation stops right after the TensorRT engine call, which
   * is its last setter (`AbortedLast`): no dynamic-shape batch is issued, and
   * nothing after the GPU section is.
   */
  lemma TranslateAborted(c: Config)
    requires Translate(c).Aborted?
    ensures forall i :: 0 <= i < |Translate(c).calls| ==> !Translate(c).calls[i].SetTrtDynamicShapeInfo?
    ensures Section(Translate(c).calls, XpuBegin, RankEnd) == []
  {
    var calls := Translate(c).calls;
    AbortedLast(c);
    TranslateOrdered(c);
    NoShapeInfoBeforeEngine(calls);
    AbortedInBand(c);
    SectionOfBanded(calls, 0, XpuBegin, XpuBegin, RankEnd);
  }

  /** A list whose section for a band is empty holds no call of that band. */
  lemma EmptySectionAbsent(calls: seq<ConfigCall>, lo: nat, hi: nat)
    requires Section(calls, lo, hi) == []
    ensures forall x :: x in calls ==> !(lo <= Rank(x) < hi)
  {
    SectionMembers(calls, lo, hi);
  }

  /** With no GPU configured, no GPU or TensorRT setter appears in the translation. */
  lemma NoGpuSilent(c: Config)
    requires c.gpu.None?
    ensures forall x :: x in Translate(c).calls ==> !(GpuBegin <= Rank(x) < XpuBegin)
  {
    TranslateSection(c, 2);
    EmptySectionAbsent(Translate(c).calls, GpuBegin, XpuBegin);
  }

  /** With no XPU configured, no XPU setter appears in the translation. */
  lemma NoXpuSilent(c: Config)
    requires c.xpu.None?
    ensures forall x :: x in Translate(c).calls ==> !(XpuBegin <= Rank(x) < OnnxBegin)
  {
    TranslateSection(c, 3);
    EmptySectionAbsent(Translate(c).calls, XpuBegin, OnnxBegin);
  }

  /** With no ONNX Runtime configured, no ONNX Runtime setter appears in the translation. */
  lemma NoOnnxSilent(c: Config)
    requires c.onnxRuntime.None?
    ensures forall x :: x in Translate(c).calls ==> !(OnnxBegin <= Rank(x) < GlobalBegin)
  {
    TranslateSection(c, 4);
    EmptySectionAbsent(Translate(c).calls, OnnxBegin, GlobalBegin);
  }

  /** A list inside the bands before the global setters holds none of them. */
  lemma NoGlobalsBefore(a: seq<ConfigCall>)
    requires InBand(a, 0, GlobalBegin)
    ensures forall x :: x in a ==> Rank(x) < GlobalBegin
  {
  }

  /** Followed by `GlobalCalls(c)`, a list of earlier setters carries the options exactly when they are set. */
  lemma OptionsAmong(a: seq<ConfigCall>, c: Config)
    requires InBand(a, 0, GlobalBegin)
    ensures forall d :: SetOptimCacheDir(d) in a + GlobalCalls(c) <==> c.optimizationCacheDir == Some(d)
    ensures DisableFCPadding in a + GlobalCalls(c) <==> c.disableFcPadding
    ensures ProfileEnabled in a + GlobalCalls(c) <==> c.profile
    ensures DisableGlogInfo in a + GlobalCalls(c) <==> c.disableLog
  {
    var g := GlobalCalls(c);
    assert DisableFCPadding !in a && ProfileEnabled !in a && DisableGlogInfo !in a && forall d :: SetOptimCacheDir(d) !in a by {
      NoGlobalsBefore(a);
    }
    assert forall x :: x !in a ==> (x in a + g <==> x in g);
    GlobalCallsOptions(c);
  }

  /** Followed by `GlobalCalls(c)`, a list of earlier setters carries the configured switches. */
  lemma SwitchesAmong(a: seq<ConfigCall>, c: Config)
    requires InBand(a, 0, GlobalBegin)
    ensures SwitchIrOptim(c.irOptimization) in a + GlobalCalls(c) && SwitchIrDebug(c.irDebug) in a + GlobalCalls(c)
    ensures forall f :: EnableMemoryOptim(f) in a + GlobalCalls(c) <==> f == c.memoryOptimization
    ensures forall l :: LiteSection(l) in a + GlobalCalls(c) <==> c.lite == Some(l)
  {
    var g := GlobalCalls(c);
    assert forall f, l :: EnableMemoryOptim(f) !in a && LiteSection(l) !in a by {
      NoGlobalsBefore(a);
    }
    assert forall x :: x !in a ==> (x in a + g <==> x in g);
    GlobalCallsSwitches(c);
    assert g[0] in a + g && g[1] in a + g;
  }

  /**
   * A translation that does not panic issues the cache-directory, FC-padding,
   * profiling and logging setters exactly when they are set.
   */
  lemma TranslateOptions(c: Config)
    requires Translate(c).Completed?
    ensures forall d :: SetOptimCacheDir(d) in Translate(c).calls <==> c.optimizationCacheDir == Some(d)
    ensures DisableFCPadding in Translate(c).calls <==> c.disableFcPadding
    ensures ProfileEnabled in Translate(c).calls <==> c.profile
    ensures DisableGlogInfo in Translate(c).calls <==> c.disableLog
  {
    TranslateEndsWithGlobals(c);
    OptionsAmong(Concat(Parts(c), 5), c);
  }

  /**
   * A translation that does not panic issues the IR switches and the
   * memory-reuse switch with the configured flags, and the Lite section
   * exactly when the Lite engine is configured.
   */
  lemma TranslateSwitches(c: Config)
    requires Translate(c).Completed?
    ensures SwitchIrOptim(c.irOptimization) in Translate(c).calls && SwitchIrDebug(c.irDebug) in Translate(c).calls
    ensures forall f :: EnableMemoryOptim(f) in Translate(c).calls <==> f == c.memoryOptimization
    ensures forall l :: LiteSection(l) in Translate(c).calls <==> c.lite == Some(l)
  {
    TranslateEndsWithGlobals(c);
    SwitchesAmong(Concat(Parts(c), 5), c);
  }

  /**
   * A translation that does not panic ends with the setters issued after the
   * device sections, and everything before them lies in the earlier bands.
   */
  lemma TranslateEndsWithGlobals(c: Config)
    requires Translate(c).Completed?
    ensures Translate(c).calls == Concat(Parts(c), 5) + GlobalCalls(c)
    ensures InBand(Concat(Parts(c), 5), 0, GlobalBegin)
  {
    PartsOrdered(c);
    PartsInBand(c);
    BandsMonotone();
    ConcatOrdered(Parts(c), Bands, 5);
  }

  // ---------------------------------------------------------------- issuing the translation

  /** The IR switches, the Lite section and the memory-reuse switch, issued on `cfg` after the setters `before`. */
  method SwitchesSetTo(c: Config, e: Engine, cfg: Handle, ghost t0: seq<Call>,
                       ghost c0: map<Handle, seq<ConfigCall>>, ghost before: seq<ConfigCall>)
    requires e.Valid() && e.Applied(t0, c0, cfg, before)
    modifies e
    ensures e.Valid() && e.next == old(e.next) && e.predictors == old(e.predictors)
    ensures e.Applied(t0, c0, cfg, before + SwitchCalls(c))
  {
    Issue(e, cfg, SwitchIrOptim(c.irOptimization), t0, c0, before);
    ghost var done := before + [SwitchIrOptim(c.irOptimization)];
    Issue(e, cfg, SwitchIrDebug(c.irDebug), t0, c0, done);
    done := done + [SwitchIrDebug(c.irDebug)];
    if c.lite.Some? {
      Issue(e, cfg, LiteSection(c.lite.value), t0, c0, done);
      done := done + [LiteSection(c.lite.value)];
    }
    Issue(e, cfg, EnableMemoryOptim(c.memoryOptimization), t0, c0, done);
    done := done + [EnableMemoryOptim(c.memoryOptimization)];
    assert done == before + SwitchCalls(c);
  }

  /** The optional trailing setters, issued on `cfg` after the setters `before`. */
  method OptionsSetTo(c: Config, e: Engine, cfg: Handle, ghost t0: seq<Call>,
                      ghost c0: map<Handle, seq<ConfigCall>>, ghost before: seq<ConfigCall>)
    requires e.Valid() && e.Applied(t0, c0, cfg, before)
    modifies e
    ensures e.Valid() && e.next == old(e.next) && e.predictors == old(e.predictors)
    ensures e.Applied(t0, c0, cfg, before + OptionCalls(c))
  {
    ghost var dir, fc := CacheDirCalls(c.optimizationCacheDir), When(c.disableFcPadding, DisableFCPadding);
    ghost var profile, log := When(c.profile, ProfileEnabled), When(c.disableLog, DisableGlogInfo);
    if c.optimizationCacheDir.Some? {
      Issue(e, cfg, SetOptimCacheDir(c.optimizationCacheDir.value), t0, c0, before);
    } else {
      assert before + dir == before;
    }
    if c.disableFcPadding {
      Issue(e, cfg, DisableFCPadding, t0, c0, before + dir);
    } else {
      assert before + dir + fc == before + dir;
    }
    if c.profile {
      Issue(e, cfg, ProfileEnabled, t0, c0, before + dir + fc);
    } else {
      assert before + dir + fc + profile == before + dir + fc;
    }
    if c.disableLog {
      Issue(e, cfg, DisableGlogInfo, t0, c0, before + dir + fc + profile);
    } else {
      assert before + dir + fc + profile + log == before + dir + fc + profile;
    }
    Regroup5(before, dir, fc, profile, log);
  }

  /** The setters after the device sections, issued on `cfg` after the setters `before`. */
  method GlobalSetTo(c: Config, e: Engine, cfg: Handle, ghost t0: seq<Call>,
                     ghost c0: map<Handle, seq<ConfigCall>>, ghost before: seq<ConfigCall>)
    requires e.Valid() && e.Applied(t0, c0, cfg, before)
    modifies e
    ensures e.Valid() && e.next == old(e.next) && e.predictors == old(e.predictors)
    ensures e.Applied(t0, c0, cfg, before + GlobalCalls(c))
  {
    SwitchesSetTo(c, e, cfg, t0, c0, before);
    OptionsSetTo(c, e, cfg, t0, c0, before + SwitchCalls(c));
    Assoc(before, SwitchCalls(c), OptionCalls(c));
  }

  /**
   * The model, CPU and GPU sections, issued on `cfg` from the trace `t0` and
   * table `c0`; `completed` is false when the GPU section panics.
   */
  method DevicesSetTo(c: Config, e: Engine, cfg: Handle, ghost t0: seq<Call>, ghost c0: map<Handle, seq<ConfigCall>>)
    returns (completed: bool)
    requires e.Valid() && e.Applied(t0, c0, cfg, [])
    modifies e
    ensures e.Valid() && e.next == old(e.next) && e.predictors == old(e.predictors)
    ensures completed <==> GpuSection(c.gpu).Completed?
    ensures e.Applied(t0, c0, cfg, [ModelSection(c.model)] + CpuCalls(c.cpu) + GpuSection(c.gpu).calls)
  {
    Issue(e, cfg, ModelSection(c.model), t0, c0, []);
    ghost var done := [ModelSection(c.model)];
    assert [] + done == done;
    CpuSetTo(c.cpu, e, cfg, t0, c0, done);
    done := done + CpuCalls(c.cpu);
    if c.gpu.Some? {
      completed := GpuSetTo(c.gpu.value, e, cfg, t0, c0, done);
    } else {
      completed := true;
      assert done + [] == done;
    }
  }

  /** The XPU and ONNX Runtime sections, issued on `cfg` after the setters `before`. */
  method BackendsSetTo(c: Config, e: Engine, cfg: Handle, ghost t0: seq<Call>,
                       ghost c0: map<Handle, seq<ConfigCall>>, ghost before: seq<ConfigCall>)
    requires e.Valid() && e.Applied(t0, c0, cfg, before)
    modifies e
    ensures e.Valid() && e.next == old(e.next) && e.predictors == old(e.predictors)
    ensures e.Applied(t0, c0, cfg, before + XpuSection(c.xpu) + OnnxSection(c.onnxRuntime))
  {
    if c.xpu.Some? {
      XpuSetTo(c.xpu.value, e, cfg, t0, c0, before);
    } else {
      assert before + [] == before;
    }
    ghost var done := before + XpuSection(c.xpu);
    if c.onnxRuntime.Some? {
      OnnxRuntimeSetTo(c.onnxRuntime.value, e, cfg, t0, c0, done);
    } else {
      assert done + [] == done;
    }
  }

  /**
   * Every setter `Predictor::new` issues on the fresh configuration handle
   * `cfg`, in order; `completed` is false when the GPU section panics, which
   * ends the translation there.
   */
  method ConfigSetTo(c: Config, e: Engine, cfg: Handle) returns (completed: bool)
    requires e.Valid() && cfg in e.configs
    modifies e
    ensures e.Valid() && e.next == old(e.next) && e.predictors == old(e.predictors)
    ensures completed <==> Translate(c).Completed?
    ensures e.Applied(old(e.trace), old(e.configs), cfg, Translate(c).calls)
  {
    ghost var t0, c0 := e.trace, e.configs;
    ghost var p := Parts(c);
    e.AppliedNothing(cfg);
    completed := DevicesSetTo(c, e, cfg, t0, c0);
    ghost var head := p[0] + p[1] + p[2];
    if !completed {
      assert head == Translate(c).calls by {
        ConcatSix(p);
      }
      return;
    }
    BackendsSetTo(c, e, cfg, t0, c0, head);
    GlobalSetTo(c, e, cfg, t0, c0, head + p[3] + p[4]);
    assert head + p[3] + p[4] + p[5] == Translate(c).calls by {
      ConcatSix(p);
    }
  }

  // ---------------------------------------------------------------- the predictor

  /** `Predictor`: the owner of one native predictor handle. */
  class Predictor {
    const engine: Engine
    const ptr: Handle

    /** The handle is live in the engine. */
    ghost predicate Valid()
      reads this, engine
    {
      engine.Valid() && ptr in engine.predictors
    }

    /** `Predictor::from_ptr`: takes ownership of a handle. */
    constructor FromPtr(engine: Engine, ptr: Handle)
      ensures this.engine == engine && this.ptr == ptr
    {
      this.engine := engine;
      this.ptr := ptr;
    }

    /**
     * `Predictor::new`: one fresh configuration handle, every setter of
     * `Translate(config)` on it in order, and then a fresh predictor handle
     * built from exactly those setters, which consumes the configuration
     * handle. When the GPU section panics no predictor exists (`null`), the
     * trace ends with the setters issued so far and the configuration handle
     * stays live: nothing releases it.
     */
    static method New(e: Engine, config: Config) returns (p: Predictor?, ghost cfg: Handle)
      requires e.Valid()
      modifies e
      ensures e.Valid()
      ensures !old(e.Issued(cfg)) && e.Issued(cfg)
      ensures p == null <==> Translate(config).Aborted?
      ensures p == null ==>
                && e.trace == old(e.trace) + [ConfigCreate(cfg)] + On(cfg, Translate(config).calls)
                && e.configs == old(e.configs)[cfg := Translate(config).calls]
                && e.predictors == old(e.predictors)
      ensures p != null ==>
                && fresh(p) && p.engine == e && p.Valid()
                && (var h := p.ptr; !old(e.Issued(h))) && p.ptr != cfg
                && e.trace == old(e.trace) + [ConfigCreate(cfg)] + On(cfg, Translate(config).calls)
                                + [PredictorCreate(cfg, p.ptr)]
                && e.configs == old(e.configs)
                && e.predictors == old(e.predictors)[p.ptr := Translate(config).calls]
    {
      var config0 := e.ConfigCreate();
      cfg := config0;
      ghost var c1 := e.configs;
      var completed := ConfigSetTo(config, e, config0);
      assert c1[cfg] + Translate(config).calls == Translate(config).calls;
      if !completed {
        return null, cfg;
      }
      var handle := e.PredictorCreate(config0);
      assert e.configs == old(e.configs);
      p := new Predictor.FromPtr(e, handle);
    }

    /** `Predictor::input`: the engine's handle for the input tensor `name`. */
    method Input(name: string) returns (t: TensorSlot)
      requires Valid()
      modifies engine
      ensures Valid() && engine.next == old(engine.next)
      ensures t == TensorSlot(ptr, InputSide, name)
      ensures engine.configs == old(engine.configs) && engine.predictors == old(engine.predictors)
      ensures engine.trace == old(engine.trace) + [PredictorGetInputHandle(ptr, name)]
    {
      t := engine.GetTensorHandle(ptr, InputSide, name);
    }

    /** `Predictor::output`: the engine's handle for the output tensor `name`. */
    method Output(name: string) returns (t: TensorSlot)
      requires Valid()
      modifies engine
      ensures Valid() && engine.next == old(engine.next)
      ensures t == TensorSlot(ptr, OutputSide, name)
      ensures engine.configs == old(engine.configs) && engine.predictors == old(engine.predictors)
      ensures engine.trace == old(engine.trace) + [PredictorGetOutputHandle(ptr, name)]
    {
      t := engine.GetTensorHandle(ptr, OutputSide, name);
    }

    /** `Predictor::run`: hands back the engine's flag `answer` unchanged; the live handles stay as they were. */
    method Run(answer: PdBool) returns (r: PdBool)
      requires Valid()
      modifies engine
      ensures Valid() && engine.next == old(engine.next)
      ensures r == answer
      ensures engine.configs == old(engine.configs) && engine.predictors == old(engine.predictors)
      ensures engine.trace == old(engine.trace) + [PredictorRun(ptr)]
    {
      r := engine.PredictorRun(ptr, answer);
    }

    /** `Predictor::clear_intermediate_tensor`: its foreign call is commented out, so it issues nothing. */
    method ClearIntermediateTensor()
      requires Valid()
      ensures Valid() && unchanged(engine)
    {
    }

    /**
     * `Clone::clone`: a fresh predictor owning a fresh handle, distinct from
     * this one, for the same setters; this handle stays live.
     */
    method Clone() returns (q: Predictor)
      requires Valid()
      modifies engine
      ensures fresh(q) && q.engine == engine
      ensures Valid() && q.Valid() && q.ptr != ptr && (var h := q.ptr; !old(engine.Issued(h)))
      ensures engine.configs == old(engine.configs)
      ensures engine.predictors == old(engine.predictors)[q.ptr := old(engine.predictors[ptr])]
      ensures engine.trace == old(engine.trace) + [PredictorClone(ptr, q.ptr)]
    {
      var h := engine.PredictorClone(ptr);
      q := new Predictor.FromPtr(engine, h);
    }

    /**
     * `Drop::drop`: destroys this predictor's handle and no other; the
     * handle is destroyed exactly once, after which this predictor is no
     * longer valid.
     */
    method Drop()
      requires Valid()
      modifies engine
      ensures !Valid() && engine.Valid() && engine.next == old(engine.next)
      ensures engine.configs == old(engine.configs)
      ensures engine.predictors == old(engine.predictors) - {ptr}
      ensures engine.trace == old(engine.trace) + [PredictorDestroy(ptr)]
      ensures multiset(engine.trace)[PredictorDestroy(ptr)] == 1
    {
      engine.PredictorDestroy(ptr);
    }
  }

  /** Dropping a clone leaves the original's handle live, and the original can still run. */
  method CloneThenDrop(p: Predictor, answer: PdBool) returns (r: PdBool)
    requires p.Valid()
    modifies p.engine
    ensures p.Valid() && r == answer
    ensures p.engine.predictors == old(p.engine.predictors)
    ensures exists q: Handle :: q != p.ptr && p.engine.trace ==
              old(p.engine.trace) + [PredictorClone(p.ptr, q), PredictorDestroy(q), PredictorRun(p.ptr)]
  {
    var q := p.Clone();
    q.Drop();
    r := p.Run(answer);
    assert p.engine.predictors == old(p.engine.predictors)[q.ptr := old(p.engine.predictors[p.ptr])] - {q.ptr};
  }
}
